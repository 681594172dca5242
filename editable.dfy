/**
 * `EditableField`: an input that is read-only until the pencil is pressed, and
 * whose check button hands the new text to `onSave` only when it differs from
 * the field's value.
 */
module Editable {
  import opened Wrappers
  import opened Text

  /** The field's `value` prop, its own state and its `type` prop. */
  class EditableField {
    var value: Option<string>
    var inputValue: string
    var isEditing: bool
    var isSaving: bool
    var showPassword: bool
    const kind: string

    /** `inputValue` starts as `value || ""`. */
    constructor (value: Option<string>, kind: string)
      ensures this.value == value && inputValue == OrEmpty(value) && this.kind == kind
      ensures !isEditing && !isSaving && !showPassword
    {
      this.value := value;
      inputValue := OrEmpty(value);
      isEditing, isSaving, showPassword := false, false, false;
      this.kind := kind;
    }

    /** `inputValue === value`; a null value never equals the text. */
    predicate Unchanged()
      reads this
    {
      value == Some(inputValue)
    }

    /** The input is disabled outside edit mode. */
    predicate InputDisabled()
      reads this
    {
      !isEditing
    }

    /** The pencil / check button: disabled while saving, or while an unchanged value is being edited. */
    predicate ButtonDisabled()
      reads this
    {
      isEditing && (isSaving || Unchanged())
    }

    /** The input's `type`: a password field shows its text only while `showPassword` is on. */
    function InputType(): (t: string)
      reads this
      ensures t == "password" <==> kind == "password" && !showPassword
    {
      if kind == "password" then (if showPassword then "text" else "password") else "text"
    }

    /** The pencil: edit mode starts. */
    method StartEdit()
      modifies this
      ensures isEditing && value == old(value) && inputValue == old(inputValue) && isSaving == old(isSaving)
      ensures showPassword == old(showPassword)
    {
      isEditing := true;
    }

    /** Typing; a disabled input takes no text. */
    method Type(s: string)
      modifies this
      ensures inputValue == (if old(isEditing) then s else old(inputValue))
      ensures isEditing == old(isEditing) && value == old(value) && isSaving == old(isSaving)
      ensures showPassword == old(showPassword)
    {
      if isEditing {
        inputValue := s;
      }
    }

    /** The eye toggle, rendered only for a password field in edit mode. */
    method ToggleShowPassword()
      requires kind == "password" && isEditing
      modifies this
      ensures showPassword == !old(showPassword)
      ensures isEditing == old(isEditing) && value == old(value) && inputValue == old(inputValue)
      ensures isSaving == old(isSaving)
    {
      showPassword := !showPassword;
    }

    /**
     * `handleSave`: an unchanged value just leaves edit mode; otherwise the text goes to `onSave`, and only
     * a save that succeeds leaves edit mode. `sent` is what `onSave` received.
     */
    method HandleSave(succeeds: bool) returns (sent: Option<string>)
      modifies this
      ensures old(Unchanged()) ==> sent.None? && !isEditing
      ensures !old(Unchanged()) ==> sent == Some(old(inputValue)) && isEditing == (old(isEditing) && !succeeds)
      ensures old(Unchanged()) ==> isSaving == old(isSaving)
      ensures !old(Unchanged()) ==> !isSaving
      ensures value == old(value) && inputValue == old(inputValue) && showPassword == old(showPassword)
    {
      if Unchanged() {
        isEditing := false;
        return None;
      }
      isSaving := true;
      sent := Some(inputValue);
      if succeeds {
        isEditing := false;
      }
      isSaving := false;
    }

    /** The parent passes a new `value`; the text in the input is not reset by it. */
    method ReceiveValue(v: Option<string>)
      modifies this
      ensures value == v && inputValue == old(inputValue)
      ensures isEditing == old(isEditing) && isSaving == old(isSaving) && showPassword == old(showPassword)
    {
      value := v;
    }

    /**
     * A press of the check button, which is enabled only for a changed text: the text always goes to
     * `onSave`, and the field leaves edit mode exactly when the save succeeds.
     */
    method PressCheck(succeeds: bool) returns (sent: Option<string>)
      requires isEditing && !ButtonDisabled()
      modifies this
      ensures sent == Some(old(inputValue))
      ensures isEditing == !succeeds && !isSaving
      ensures value == old(value) && inputValue == old(inputValue) && showPassword == old(showPassword)
    {
      sent := HandleSave(succeeds);
    }
  }

  /** Right after the pencil, before any typing, the check button is disabled: an untouched value cannot be saved. */
  method UntouchedEditCannotBeSaved(v: string, kind: string) returns (editing: bool, disabled: bool)
    ensures editing && disabled
  {
    var f := new EditableField(Some(v), kind);
    f.StartEdit();
    editing := f.isEditing;
    disabled := f.ButtonDisabled();
  }

  /** A failed save keeps the typed text in edit mode; retrying sends the same text again. */
  method FailedSaveCanBeRetried(v: string, typed: string, kind: string)
    returns (first: Option<string>, stillEditing: bool, second: Option<string>, done: bool)
    requires typed != v
    ensures first == Some(typed) && stillEditing && second == Some(typed) && done
  {
    var f := new EditableField(Some(v), kind);
    f.StartEdit();
    f.Type(typed);
    first := f.PressCheck(false);
    stillEditing := f.isEditing;
    second := f.PressCheck(true);
    done := !f.isEditing;
  }

  /** The eye toggle is kept across a successful save: the next edit of the field still shows the password. */
  method ShownPasswordStaysShown(v: string, typed: string) returns (shownAgain: bool, inputType: string)
    requires typed != v
    ensures shownAgain && inputType == "text"
  {
    var f := new EditableField(Some(v), "password");
    f.StartEdit();
    f.ToggleShowPassword();
    f.Type(typed);
    var _ := f.PressCheck(true);
    f.StartEdit();
    shownAgain := f.showPassword;
    inputType := f.InputType();
  }
}
