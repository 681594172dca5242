/**
 * `Dropdown`: a menu that is either controlled (its `controlledOpen` prop is a
 * boolean and the parent decides) or keeps its own `openInternal` flag. Every
 * change it wants is reported through `onOpenChange`.
 */
module Menu {
  import opened Wrappers

  class Dropdown {
    var openInternal: bool
    /** The `controlledOpen` prop; None when it is not a boolean. */
    var controlledOpen: Option<bool>
    const closeOnItemClick: bool
    const align: string

    constructor (controlledOpen: Option<bool>, closeOnItemClick: bool, align: string)
      ensures !openInternal && this.controlledOpen == controlledOpen
      ensures this.closeOnItemClick == closeOnItemClick && this.align == align
    {
      openInternal := false;
      this.controlledOpen := controlledOpen;
      this.closeOnItemClick := closeOnItemClick;
      this.align := align;
    }

    /** `typeof controlledOpen === 'boolean'` */
    predicate IsControlled()
      reads this
    {
      controlledOpen.Some?
    }

    /** The menu is shown: the prop when controlled, the own flag otherwise. */
    function Open(): (r: bool)
      reads this
      ensures IsControlled() ==> r == controlledOpen.value
      ensures !IsControlled() ==> r == openInternal
    {
      controlledOpen.GetOr(openInternal)
    }

    /** `alignClass` */
    function AlignClass(): (c: string)
      ensures c == "left-0" <==> align == "left"
      ensures c == "right-0" <==> align != "left"
    {
      if align == "left" then "left-0" else "right-0"
    }

    /** `toggle(next)`: the new state is `next` when given, else the opposite of `Open()`; only an uncontrolled menu stores it. */
    method Toggle(next: Option<bool>) returns (reported: bool)
      modifies this
      ensures reported == (if next.Some? then next.value else !old(Open()))
      ensures old(IsControlled()) ==> openInternal == old(openInternal)
      ensures !old(IsControlled()) ==> openInternal == reported
      ensures controlledOpen == old(controlledOpen)
      ensures !IsControlled() ==> Open() == reported
    {
      reported := if next.Some? then next.value else !Open();
      if !IsControlled() {
        openInternal := reported;
      }
    }

    /** A mouse-down: outside the mounted menu it reports (and, uncontrolled, sets) closed. */
    method MouseDown(mounted: bool, inside: bool) returns (reported: Option<bool>)
      modifies this
      ensures reported.Some? <==> mounted && !inside
      ensures reported.Some? ==> reported.value == false
      ensures reported.Some? && !IsControlled() ==> !openInternal
      ensures reported.None? || IsControlled() ==> openInternal == old(openInternal)
      ensures controlledOpen == old(controlledOpen)
    {
      if !mounted || inside {
        return None;
      }
      reported := Some(false);
      if !IsControlled() {
        openInternal := false;
      }
    }

    /** A click inside the open menu closes it exactly when `closeOnItemClick` is set. */
    method MenuClick() returns (reported: Option<bool>)
      requires Open()
      modifies this
      ensures reported.Some? <==> closeOnItemClick
      ensures reported.Some? ==> reported.value == false
      ensures closeOnItemClick && !IsControlled() ==> !openInternal
      ensures !closeOnItemClick || IsControlled() ==> openInternal == old(openInternal)
      ensures controlledOpen == old(controlledOpen)
    {
      if !closeOnItemClick {
        return None;
      }
      var r := Toggle(Some(false));
      reported := Some(r);
    }

    /** The parent renders with a new `controlledOpen`. */
    method ReceiveControlledOpen(c: Option<bool>)
      modifies this
      ensures controlledOpen == c && openInternal == old(openInternal)
    {
      controlledOpen := c;
    }
  }

  /** Uncontrolled, two trigger clicks open and close the menu again. */
  method TriggerTwiceUncontrolled(closeOnItemClick: bool, align: string) returns (first: bool, second: bool)
    ensures first && !second
  {
    var d := new Dropdown(None, closeOnItemClick, align);
    var _ := d.Toggle(None);
    first := d.Open();
    var _ := d.Toggle(None);
    second := d.Open();
  }

  /** Controlled, a trigger click only reports the wish; the menu stays as the parent holds it. */
  method ControlledOnlyReports(held: bool, closeOnItemClick: bool, align: string) returns (reported: bool, shown: bool)
    ensures reported == !held && shown == held
  {
    var d := new Dropdown(Some(held), closeOnItemClick, align);
    reported := d.Toggle(None);
    shown := d.Open();
  }
}
