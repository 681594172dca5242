/** `EncryptionSelector`: three option buttons; a click selects an option or, on the selected one, clears it. */
module EncryptionChoice {
  import opened Wrappers

  /** The security types offered. */
  datatype Security = WPA | WEP | OPEN {
    /** The `type` string of the option. */
    function Name(): string
    {
      match this
      case WPA => "WPA"
      case WEP => "WEP"
      case OPEN => "OPEN"
    }
  }

  /** The options in the order the selector shows them. */
  const OPTIONS: seq<Security> := [WPA, WEP, OPEN]

  /** What one click hands out: the value passed to `onChange`, and whether `touchEncryption` ran. */
  datatype ClickResult = ClickResult(selected: Option<Security>, touched: bool)

  /** A click on `option` while `current` is selected. */
  function Click(current: Option<Security>, option: Security, hasTouch: bool): (r: ClickResult)
    ensures current == Some(option) ==> r.selected.None?
    ensures current != Some(option) ==> r.selected == Some(option)
    ensures r.touched == hasTouch
  {
    var isSelected := current == Some(option);
    ClickResult(if isSelected then None else Some(option), hasTouch)
  }

  /** Every security type is offered exactly once, and the option names tell them apart. */
  lemma OptionsAreExactlyTheTypes()
    ensures |OPTIONS| == 3 && OPTIONS[0] == WPA && OPTIONS[1] == WEP && OPTIONS[2] == OPEN
    ensures forall s: Security :: s in OPTIONS
    ensures forall s: Security, t: Security :: s.Name() == t.Name() ==> s == t
  {
    forall s: Security
      ensures s in OPTIONS
    {
      match s
      case WPA => assert OPTIONS[0] == s;
      case WEP => assert OPTIONS[1] == s;
      case OPEN => assert OPTIONS[2] == s;
    }
  }

  /** Clicking the same option twice from "none selected" or "it selected" restores the selection. */
  lemma ClickTwiceRestores(current: Option<Security>, option: Security, hasTouch: bool)
    requires current.None? || current == Some(option)
    ensures Click(Click(current, option, hasTouch).selected, option, hasTouch).selected == current
  {
  }
}
