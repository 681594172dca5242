/**
 * `AuthModal`: the sign-in / register dialog, with its password meter, the
 * ad-hoc email pattern `^[^@ ]+@[^@ ]+\.[^@ .]{2,}$`, the required fields of
 * each mode and the outcome of a submit.
 */
module AuthDialog {
  import opened Wrappers
  import opened Text
  import opened Generator

  /** `calculateStrength`: buckets of `pwd.length`, counted in UTF-16 code units: 0 / under 6 / under 10 / longer. */
  function CalculateStrength(pwd: string): (r: Strength)
    ensures r.width == 0 <==> pwd == ""
    ensures r.width in {0, 33, 66, 100}
    ensures r.rating == NoLabel <==> pwd == ""
    ensures r.rating != VeryStrong
    ensures r.width == 33 <==> 0 < JsLength(pwd) < 6
    ensures r.width == 66 <==> 6 <= JsLength(pwd) < 10
    ensures r.width == 100 <==> 10 <= JsLength(pwd)
  {
    if pwd == "" then Strength(0, NoLabel)
    else if JsLength(pwd) < 6 then Strength(33, Weak)
    else if JsLength(pwd) < 10 then Strength(66, Medium)
    else Strength(100, Strong)
  }

  /** A longer password never shows a smaller width. */
  lemma CalculateStrengthIsMonotone(a: string, b: string)
    requires JsLength(a) <= JsLength(b)
    ensures CalculateStrength(a).width <= CalculateStrength(b).width
  {
  }

  /**
   * A split of `s` the pattern accepts: a local part before the '@' at `at`, a domain up to the '.'
   * at `dot`, and a final segment of two or more UTF-16 code units (the pattern has no `u` flag, so a
   * character beyond U+FFFF counts twice); neither '@' nor ' ' anywhere else, and no '.' in the final
   * segment.
   */
  ghost predicate SplitsAt(s: string, at: nat, dot: nat)
  {
    && 0 < at && at + 1 < dot && dot < |s| && JsLength(s[dot + 1..]) >= 2
    && s[at] == '@' && s[dot] == '.'
    && (forall i :: 0 <= i < at ==> s[i] != '@' && s[i] != ' ')
    && (forall i :: at < i < dot ==> s[i] != '@' && s[i] != ' ')
    && (forall i :: dot < i < |s| ==> s[i] != '@' && s[i] != ' ' && s[i] != '.')
  }

  /** The language of the pattern: some split is accepted. */
  ghost predicate EmailPattern(s: string)
  {
    exists at: nat, dot: nat :: SplitsAt(s, at, dot)
  }

  /** The pattern decided directly: no space, a single '@', and the last '.' far enough after it and two code units from the end. */
  function IsValidEmail(s: string): bool
  {
    match IndexOf(s, '@')
    case None => false
    case Some(at) =>
      match LastIndexOf(s, '.')
      case None => false
      case Some(dot) =>
        && ' ' !in s && LastIndexOf(s, '@') == Some(at)
        && 0 < at && at + 1 < dot && JsLength(s[dot + 1..]) >= 2
  }

  /** The direct decision accepts exactly the language of the pattern. */
  lemma IsValidEmailMatchesPattern(s: string)
    ensures IsValidEmail(s) <==> EmailPattern(s)
  {
    if IsValidEmail(s) {
      var at, dot := IndexOf(s, '@').value, LastIndexOf(s, '.').value;
      assert SplitsAt(s, at, dot);
    }
    if EmailPattern(s) {
      var at: nat, dot: nat :| SplitsAt(s, at, dot);
      assert IndexOf(s, '@') == Some(at);
      assert LastIndexOf(s, '@') == Some(at);
      assert LastIndexOf(s, '.') == Some(dot);
      forall i | 0 <= i < |s|
        ensures s[i] != ' '
      {
        if i == at || i == dot {
        }
      }
    }
  }

  /** An accepted email has exactly one '@' and no space. */
  lemma AcceptedEmailShape(s: string)
    requires IsValidEmail(s)
    ensures exists at :: 0 <= at < |s| && s[at] == '@' && forall i :: 0 <= i < |s| && i != at ==> s[i] != '@'
    ensures ' ' !in s
  {
    var at := IndexOf(s, '@').value;
    assert LastIndexOf(s, '@') == Some(at);
    assert forall i :: 0 <= i < |s| && i != at ==> s[i] != '@';
  }

  /** An accepted email has a non-empty label before its final '.', and a final segment without '.' of two or more code units. */
  lemma AcceptedEmailDomain(s: string)
    requires IsValidEmail(s)
    ensures exists at, dot ::
      && 0 <= at < dot < |s| && s[at] == '@' && s[dot] == '.'
      && dot - at >= 2 && JsLength(s[dot + 1..]) >= 2 && (forall i :: dot < i < |s| ==> s[i] != '.')
  {
    var at, dot := IndexOf(s, '@').value, LastIndexOf(s, '.').value;
    assert s[at] == '@' && s[dot] == '.';
  }

  datatype Field = Name | Email | Password

  datatype AuthCall = Register | Login

  /** The dialog's mode, its form values and whether the parent still shows it. */
  class AuthModal {
    var isRegisterMode: bool
    var name: string
    var email: string
    var password: string
    var isOpen: bool

    constructor (isOpen: bool)
      ensures !isRegisterMode && name == "" && email == "" && password == "" && this.isOpen == isOpen
    {
      isRegisterMode := false;
      name, email, password := "", "", "";
      this.isOpen := isOpen;
    }

    /** The inputs shown: the name only in register mode. */
    function FormFields(): (r: seq<Field>)
      reads this
      ensures Name in r <==> isRegisterMode
      ensures Email in r && Password in r
    {
      if isRegisterMode then [Name, Email, Password] else [Email, Password]
    }

    /** The validation rules of the shown inputs all hold. */
    function FormValid(): (r: bool)
      reads this
      ensures r <==> && email != "" && EmailPattern(email) && password != ""
                     && (Name in FormFields() ==> name != "")
    {
      IsValidEmailMatchesPattern(email);
      email != "" && IsValidEmail(email) && password != "" && (isRegisterMode ==> name != "")
    }

    /** The meter under the password input. */
    function Meter(): Strength
      reads this
    {
      CalculateStrength(password)
    }

    /** The "Register" link. */
    method ShowRegister()
      modifies this
      ensures isRegisterMode
      ensures name == old(name) && email == old(email) && password == old(password) && isOpen == old(isOpen)
    {
      isRegisterMode := true;
    }

    /** The "Login" link. */
    method ShowLogin()
      modifies this
      ensures !isRegisterMode
      ensures name == old(name) && email == old(email) && password == old(password) && isOpen == old(isOpen)
    {
      isRegisterMode := false;
    }

    /** Typing into the inputs. */
    method Type(n: string, e: string, p: string)
      modifies this
      ensures name == n && email == e && password == p
      ensures isRegisterMode == old(isRegisterMode) && isOpen == old(isOpen)
    {
      name, email, password := n, e, p;
    }

    /**
     * `handleSubmit(onSubmit)`: an invalid form calls nothing; a valid one calls register or login by mode,
     * and only when that call succeeds is the form reset and the dialog closed.
     */
    method Submit(succeeds: bool) returns (called: Option<AuthCall>)
      modifies this
      ensures called.None? <==> !old(FormValid())
      ensures called.Some? ==> called.value == (if isRegisterMode then Register else Login)
      ensures isRegisterMode == old(isRegisterMode)
      ensures called.Some? && succeeds ==> name == "" && email == "" && password == "" && !isOpen
      ensures called.None? || !succeeds ==>
        name == old(name) && email == old(email) && password == old(password) && isOpen == old(isOpen)
    {
      if !FormValid() {
        return None;
      }
      called := Some(if isRegisterMode then Register else Login);
      if succeeds {
        name, email, password := "", "", "";
        isOpen := false;
      }
    }
  }

  /** Examples of the pattern: a plain address passes; a one-letter final segment fails. */
  lemma EmailExamples()
    ensures IsValidEmail("a@b.co")
    ensures !IsValidEmail("a@b.c")
  {
    var ok := "a@b.co";
    assert ok[0] == 'a' && ok[1] == '@' && ok[2] == 'b' && ok[3] == '.' && ok[4] == 'c' && ok[5] == 'o';
    assert IndexOf(ok, '@') == Some(1) && LastIndexOf(ok, '.') == Some(3);
    var short := "a@b.c";
    assert short[1] == '@' && short[3] == '.' && short[4..] == "c" && short[4..][1..] == [];
    assert IndexOf(short, '@') == Some(1) && LastIndexOf(short, '.') == Some(3);
  }

  /** A second '@' and a space are rejected. */
  lemma EmailRejections()
    ensures !IsValidEmail("a@b@c.com")
    ensures !IsValidEmail("a b@c.com")
  {
    var twoAts := "a@b@c.com";
    assert twoAts[1] == '@' && twoAts[3] == '@';
    assert "a b@c.com"[1] == ' ';
  }

  /** A final segment of one character beyond U+FFFF is two code units long, so the pattern accepts it. */
  lemma AstralFinalSegmentAccepted()
    ensures IsValidEmail("a@b.\U{1F600}")
  {
    var astral := "a@b.\U{1F600}";
    assert astral[0] == 'a' && astral[1] == '@' && astral[2] == 'b' && astral[3] == '.';
    assert astral[4..] == "\U{1F600}" && astral[4..][1..] == [];
    assert JsLength(astral[4..]) == 2;
  }
}
