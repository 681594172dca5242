/**
 * `QrCard`: one saved card with its picture, its title and three info lines,
 * an edit mode in which each of those fields is an `EditableField`, and the
 * Edit / Delete buttons shown to the card's owner.
 */
module CardView {
  import opened Wrappers
  import opened Text
  import opened CardStore

  /** The keys `handleSaveField` is called with: the title and the three info items. */
  datatype Field = Title | Ssid | Password | Encryption {
    /** The record key the field is stored under. */
    function Key(): string
    {
      match this
      case Title => "title"
      case Ssid => "ssid"
      case Password => "password"
      case Encryption => "encryption"
    }
  }

  /** `card[key]` */
  function FieldOf(c: Card, f: Field): Option<string>
  {
    match f
    case Title => c.title
    case Ssid => c.ssid
    case Password => c.password
    case Encryption => c.encryption
  }

  /** `{ ...card, [key]: value }`: the named field takes the value, every other column stays as it was. */
  function WithField(c: Card, f: Field, v: string): (r: Card)
    ensures FieldOf(r, f) == Some(v)
    ensures forall g: Field :: g != f ==> FieldOf(r, g) == FieldOf(c, g)
    ensures r.id == c.id && r.userId == c.userId && r.qrUrl == c.qrUrl
  {
    match f
    case Title => c.(title := Some(v))
    case Ssid => c.(ssid := Some(v))
    case Password => c.(password := Some(v))
    case Encryption => c.(encryption := Some(v))
  }

  /** Two cards that agree on the four editable fields and on every other column are the same card. */
  lemma SameFieldsSameCard(c: Card, d: Card)
    requires c.id == d.id && c.userId == d.userId && c.qrUrl == d.qrUrl
    requires forall g: Field :: FieldOf(c, g) == FieldOf(d, g)
    ensures c == d
  {
    assert FieldOf(c, Title) == FieldOf(d, Title);
    assert FieldOf(c, Ssid) == FieldOf(d, Ssid);
    assert FieldOf(c, Password) == FieldOf(d, Password);
    assert FieldOf(c, Encryption) == FieldOf(d, Encryption);
  }

  /** Saving a field twice keeps only the second value. */
  lemma LastSaveWins(c: Card, f: Field, v: string, w: string)
    ensures WithField(WithField(c, f, v), f, w) == WithField(c, f, w)
  {
    SameFieldsSameCard(WithField(WithField(c, f, v), f, w), WithField(c, f, w));
  }

  /** Saves of two different fields do not disturb each other, whichever comes first. */
  lemma DistinctSavesCommute(c: Card, f: Field, v: string, g: Field, w: string)
    requires f != g
    ensures WithField(WithField(c, f, v), g, w) == WithField(WithField(c, g, w), f, v)
  {
    SameFieldsSameCard(WithField(WithField(c, f, v), g, w), WithField(WithField(c, g, w), f, v));
  }

  /** The info lines in the order they are listed: a label and the field it shows. */
  const INFO_ITEMS: seq<(string, Field)> := [("SSID", Ssid), ("Pass", Password), ("Encp", Encryption)]

  /** The text of an info line outside edit mode: the field, or "None" when it is missing or empty. */
  function InfoText(c: Card, f: Field): (t: string)
    ensures Truthy(FieldOf(c, f)) ==> t == FieldOf(c, f).value
    ensures !Truthy(FieldOf(c, f)) ==> t == "None"
    ensures t != ""
  {
    if Truthy(FieldOf(c, f)) then FieldOf(c, f).value else "None"
  }

  /** What the picture area shows: the image when `qr_url` is set, otherwise the "No QR" text. */
  datatype Picture = Image(src: string) | NoQr

  function PictureOf(c: Card): (p: Picture)
    ensures p.Image? <==> Truthy(c.qrUrl)
    ensures p.Image? ==> p.src == c.qrUrl.value
  {
    if Truthy(c.qrUrl) then Image(c.qrUrl.value) else NoQr
  }

  /** A rendered action button. */
  datatype Button = EditButton(caption: string) | DeleteButton

  /** The card as held by `QrCard`: the `card` prop, which handlers were supplied, and its own state. */
  class QrCard {
    const card: Card
    const isUser: bool
    const hasOnEdit: bool
    const hasOnDelete: bool
    var isEditing: bool
    var editableCard: Card

    /** `editableCard` starts as a copy of the prop; edit mode starts off. */
    constructor (card: Card, isUser: bool, hasOnEdit: bool, hasOnDelete: bool)
      ensures this.card == card && this.isUser == isUser
      ensures this.hasOnEdit == hasOnEdit && this.hasOnDelete == hasOnDelete
      ensures !isEditing && editableCard == card
    {
      this.card := card;
      this.isUser := isUser;
      this.hasOnEdit := hasOnEdit;
      this.hasOnDelete := hasOnDelete;
      isEditing := false;
      editableCard := card;
    }

    /** The edit button's label. */
    function EditLabel(): (l: string)
      reads this
      ensures l == "Cancel" <==> isEditing
      ensures l == "Edit" <==> !isEditing
    {
      if isEditing then "Cancel" else "Edit"
    }

    /** The buttons shown: none unless `isUser`; then Edit when `onEdit` is given and Delete when `onDelete` is, in that order. */
    function Buttons(): (bs: seq<Button>)
      reads this
      ensures !isUser ==> bs == []
      ensures (|bs| > 0 && bs[0].EditButton?) <==> isUser && hasOnEdit
      ensures |bs| > 0 && bs[0].EditButton? ==> bs[0].caption == EditLabel()
      ensures forall i :: 1 <= i < |bs| ==> bs[i] == DeleteButton
      ensures DeleteButton in bs <==> isUser && hasOnDelete
      ensures |bs| <= 2
    {
      if !isUser then []
      else (if hasOnEdit then [EditButton(EditLabel())] else []) + (if hasOnDelete then [DeleteButton] else [])
    }

    /** The Edit / Cancel button flips edit mode and touches nothing else. */
    method ToggleEdit()
      modifies this
      ensures isEditing == !old(isEditing) && editableCard == old(editableCard)
    {
      isEditing := !isEditing;
    }

    /** The Delete button hands the id of the `card` prop to `onDelete`; it exists only for the owner with `onDelete`. */
    method HandleDelete() returns (deleted: CardId)
      requires isUser && hasOnDelete
      ensures deleted == card.id
    {
      deleted := card.id;
    }

    /**
     * `handleSaveField`: stores the value under the one key in the local copy and hands that copy to
     * `onEdit` when it is given; edit mode is left as it was.
     */
    method HandleSaveField(f: Field, v: string) returns (edited: Option<Card>)
      modifies this
      ensures editableCard == WithField(old(editableCard), f, v)
      ensures edited == (if hasOnEdit then Some(editableCard) else None)
      ensures isEditing == old(isEditing)
    {
      var updated := WithField(editableCard, f, v);
      editableCard := updated;
      if hasOnEdit {
        edited := Some(updated);
      } else {
        edited := None;
      }
    }
  }

  /** Every card handed to `onEdit` keeps the prop's id, owner and picture, whatever fields were edited before. */
  method EditsKeepIdentity(c: Card, f: Field, v: string, g: Field, w: string) returns (first: Option<Card>, second: Option<Card>)
    ensures first.Some? && second.Some?
    ensures second.value.id == c.id && second.value.userId == c.userId && second.value.qrUrl == c.qrUrl
    ensures FieldOf(second.value, g) == Some(w)
    ensures f != g ==> FieldOf(second.value, f) == Some(v)
  {
    var view := new QrCard(c, true, true, true);
    view.ToggleEdit();
    first := view.HandleSaveField(f, v);
    second := view.HandleSaveField(g, w);
  }
}
