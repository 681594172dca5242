/**
 * `ShareQRCode`: the panel under a generated code, with its action list, the
 * export file names, the copy guard, the export menu and the duplicate-guarded
 * save into the card cache.
 */
module Share {
  import opened Wrappers
  import opened Text
  import opened Auth
  import opened CardStore

  /** The action buttons, in the order they are declared. */
  datatype Action = ShareWhatsApp | CopyPassword | Download | Print | GenerateNew | SaveCard

  function Rank(a: Action): nat
  {
    match a
    case ShareWhatsApp => 0
    case CopyPassword => 1
    case Download => 2
    case Print => 3
    case GenerateNew => 4
    case SaveCard => 5
  }

  /** `buttonActions` after `.filter(Boolean)`. */
  function ButtonActions(password: string, user: Option<User>): (r: seq<Action>)
    ensures CopyPassword in r <==> password != ""
    ensures SaveCard in r <==> IsConfirmed(user)
    ensures ShareWhatsApp in r && Download in r && Print in r && GenerateNew in r
    ensures forall i, j :: 0 <= i < j < |r| ==> Rank(r[i]) < Rank(r[j])
  {
    [ShareWhatsApp] + (if password != "" then [CopyPassword] else []) + [Download, Print, GenerateNew]
      + (if IsConfirmed(user) then [SaveCard] else [])
  }

  datatype ExportFormat = Png | Jpeg | Pdf

  function Extension(f: ExportFormat): string
  {
    match f
    case Png => "png"
    case Jpeg => "jpeg"
    case Pdf => "pdf"
  }

  /** The name an export is saved under. */
  function ExportFileName(networkName: string, f: ExportFormat): string
  {
    networkName + "-wifi-qr." + Extension(f)
  }

  /** The name `handleDownload` saves under. */
  function DownloadFileName(networkName: string): string
  {
    networkName + "-wifi-qr.png"
  }

  /** Downloading saves under the same name as exporting to PNG. */
  lemma DownloadIsPngExport(networkName: string)
    ensures DownloadFileName(networkName) == ExportFileName(networkName, Png)
  {
  }

  /** The file name determines both the network name and the format. */
  lemma ExportFileNameInjective(n1: string, f1: ExportFormat, n2: string, f2: ExportFormat)
    requires ExportFileName(n1, f1) == ExportFileName(n2, f2)
    ensures n1 == n2 && f1 == f2
  {
    var s := ExportFileName(n1, f1);
    var t1, t2 := "-wifi-qr." + Extension(f1), "-wifi-qr." + Extension(f2);
    assert s == n1 + t1 && s == n2 + t2;
    assert s[|s| - 4] == t1[|t1| - 4] == t2[|t2| - 4];
    assert s[|s| - 1] == t1[|t1| - 1] == t2[|t2| - 1];
    assert f1 == f2;
    assert n1 == s[..|n1|] == n2;
  }

  /** `cards.some(c => c.qr_url === value)` */
  predicate AlreadySaved(cards: seq<Card>, url: string)
  {
    exists i :: 0 <= i < |cards| && cards[i].qrUrl == Some(url)
  }

  /** No two cached cards share a url. */
  ghost predicate UrlsDistinct(cards: seq<Card>)
  {
    forall i, j :: 0 <= i < j < |cards| && cards[i].qrUrl.Some? ==> cards[i].qrUrl != cards[j].qrUrl
  }

  /** A save that passed the guard and stored its own url keeps the urls of the cache distinct. */
  lemma GuardKeepsUrlsDistinct(cards: seq<Card>, row: Card, url: string)
    requires UrlsDistinct(cards) && !AlreadySaved(cards, url) && row.qrUrl == Some(url)
    ensures UrlsDistinct([row] + cards)
  {
    var s := [row] + cards;
    forall i, j | 0 <= i < j < |s| && s[i].qrUrl.Some?
      ensures s[i].qrUrl != s[j].qrUrl
    {
      if i == 0 {
        assert s[j] == cards[j - 1];
      } else {
        assert s[i] == cards[i - 1] && s[j] == cards[j - 1];
      }
    }
  }

  /** The record `handleSaveCard` hands to `saveCard`: the network name is both title and ssid. */
  function SaveDraft(value: string, networkName: string, password: string, security: string): (d: Draft)
    ensures d.qrUrl == Some(value) && d.title == Some(networkName) && d.ssid == Some(networkName)
    ensures d.password == Some(password) && d.encryption == Some(security)
  {
    Draft(Some(value), Some(networkName), Some(password), Some(security), Some(networkName))
  }

  /** The row reaching the store: the network name as title and ssid, password and security as given. */
  lemma SavedRowFields(owner: UserId, value: string, networkName: string, password: string, security: string)
    ensures var r := InsertRequest(owner, SaveDraft(value, networkName, password, security));
      && r.userId == owner && r.qrUrl == Some(value) && r.title == Some(networkName)
      && r.ssid == networkName && r.password == password && r.encryption == security
  {
  }

  datatype SaveNotice = CardSaved | SaveFailed

  /** The notice the panel evidently means: saved exactly when the store returned a row. */
  function SaveCardNotice(saved: Option<Card>): (n: SaveNotice)
    ensures n == CardSaved <==> saved.Some?
  {
    if saved.Some? then CardSaved else SaveFailed
  }

  /** What a press of "save card" leads to. */
  datatype SaveOutcome = Skipped | CardAlreadySaved | Submitted(notice: SaveNotice)

  /** The panel's props, its export menu and the card cache it saves into. */
  class ShareQRCode {
    const value: Option<string>
    const networkName: string
    const password: string
    const security: string
    const store: CardProvider
    var showExportDropdown: bool

    constructor (value: Option<string>, networkName: string, password: string, security: string, store: CardProvider)
      ensures this.value == value && this.networkName == networkName && this.password == password
      ensures this.security == security && this.store == store && !showExportDropdown
    {
      this.value, this.networkName, this.password, this.security := value, networkName, password, security;
      this.store := store;
      showExportDropdown := false;
    }

    /** Nothing is rendered without a value. */
    predicate Renders()
    {
      Truthy(value)
    }

    /** `handleCopyPassword`: copies the password, unless there is none. */
    method HandleCopyPassword() returns (copied: Option<string>)
      ensures copied.None? <==> password == ""
      ensures copied.Some? ==> copied.value == password
    {
      if password == "" {
        return None;
      }
      copied := Some(password);
    }

    /** The export button toggles the menu. */
    method ToggleExport()
      modifies this
      ensures showExportDropdown == !old(showExportDropdown)
    {
      showExportDropdown := !showExportDropdown;
    }

    /** A mouse-down outside the menu closes it; one inside leaves it. */
    method MouseDown(inside: bool)
      modifies this
      ensures showExportDropdown == (old(showExportDropdown) && inside)
    {
      if !inside {
        showExportDropdown := false;
      }
    }

    /** `handleExport`: the file is written under its export name and the menu closes. */
    method HandleExport(f: ExportFormat) returns (fileName: Option<string>)
      modifies this
      ensures fileName.None? <==> !Truthy(value)
      ensures fileName.Some? ==> fileName.value == ExportFileName(networkName, f) && !showExportDropdown
      ensures fileName.None? ==> showExportDropdown == old(showExportDropdown)
    {
      if !Truthy(value) {
        return None;
      }
      fileName := Some(ExportFileName(networkName, f));
      showExportDropdown := false;
    }

    /**
     * `handleSaveCard`: skipped unless a confirmed user is signed in; refused when a cached card has this
     * url; otherwise the record goes to `saveCard`, which returns null on a store error instead of throwing,
     * so the saved notice follows whatever the store answered.
     */
    method HandleSaveCard(user: Option<User>, insert: NewRow -> RowReply) returns (outcome: SaveOutcome)
      requires Renders()
      modifies store
      ensures store.loading == old(store.loading) && store.fetched == old(store.fetched)
      ensures !IsConfirmed(user) ==> outcome == Skipped && store.cards == old(store.cards)
      ensures IsConfirmed(user) && AlreadySaved(old(store.cards), value.value) ==>
        outcome == CardAlreadySaved && store.cards == old(store.cards)
      ensures IsConfirmed(user) && !AlreadySaved(old(store.cards), value.value) ==>
        var reply := insert(InsertRequest(user.value.id, SaveDraft(value.value, networkName, password, security)));
        && outcome == Submitted(CardSaved)
        && store.cards == (if reply.Stored? then [reply.row] + old(store.cards) else old(store.cards))
    {
      if !IsConfirmed(user) {
        return Skipped;
      }
      if AlreadySaved(store.cards, value.value) {
        return CardAlreadySaved;
      }
      var _ := store.SaveCard(user, SaveDraft(value.value, networkName, password, security), insert);
      outcome := Submitted(CardSaved);
    }

    /** `handleSaveCard` as evidently meant: the same steps, with the notice following what `saveCard` returned. */
    method HandleSaveCardChecked(user: Option<User>, insert: NewRow -> RowReply) returns (outcome: SaveOutcome)
      requires Renders()
      modifies store
      ensures store.loading == old(store.loading) && store.fetched == old(store.fetched)
      ensures !IsConfirmed(user) ==> outcome == Skipped && store.cards == old(store.cards)
      ensures IsConfirmed(user) && AlreadySaved(old(store.cards), value.value) ==>
        outcome == CardAlreadySaved && store.cards == old(store.cards)
      ensures IsConfirmed(user) && !AlreadySaved(old(store.cards), value.value) ==>
        var reply := insert(InsertRequest(user.value.id, SaveDraft(value.value, networkName, password, security)));
        && outcome == Submitted(if reply.Stored? then CardSaved else SaveFailed)
        && store.cards == (if reply.Stored? then [reply.row] + old(store.cards) else old(store.cards))
    {
      if !IsConfirmed(user) {
        return Skipped;
      }
      if AlreadySaved(store.cards, value.value) {
        return CardAlreadySaved;
      }
      var saved := store.SaveCard(user, SaveDraft(value.value, networkName, password, security), insert);
      outcome := Submitted(SaveCardNotice(saved));
    }
  }

  /** Pressing "save card" twice for the same code saves it once: the second press finds it cached. */
  method SecondSaveIsRefused(user: User, url: string, name: string, insert: NewRow -> RowReply)
    returns (first: SaveOutcome, second: SaveOutcome, count: nat)
    requires IsConfirmed(Some(user)) && url != ""
    requires insert(InsertRequest(user.id, SaveDraft(url, name, "", ""))).Stored?
    requires insert(InsertRequest(user.id, SaveDraft(url, name, "", ""))).row.qrUrl == Some(url)
    ensures first == Submitted(CardSaved) && second == CardAlreadySaved && count == 1
  {
    var store := new CardProvider();
    var panel := new ShareQRCode(Some(url), name, "", "", store);
    first := panel.HandleSaveCard(Some(user), insert);
    assert store.cards[0].qrUrl == Some(url);
    second := panel.HandleSaveCard(Some(user), insert);
    count := store.CardCount();
  }

  /** As written, a save the store refuses is announced as saved, and the cache stays empty. */
  method FailedSaveAnnouncedAsSaved(user: User, url: string, name: string, insert: NewRow -> RowReply)
    returns (outcome: SaveOutcome, count: nat)
    requires IsConfirmed(Some(user)) && url != ""
    requires insert(InsertRequest(user.id, SaveDraft(url, name, "", ""))).RowFailed?
    ensures outcome == Submitted(CardSaved) && count == 0
  {
    var store := new CardProvider();
    var panel := new ShareQRCode(Some(url), name, "", "", store);
    outcome := panel.HandleSaveCard(Some(user), insert);
    count := store.CardCount();
  }

  /** With the evident handler the same refused save is announced as a failure. */
  method RefusedSaveReported(user: User, url: string, name: string, insert: NewRow -> RowReply)
    returns (outcome: SaveOutcome, count: nat)
    requires IsConfirmed(Some(user)) && url != ""
    requires insert(InsertRequest(user.id, SaveDraft(url, name, "", ""))).RowFailed?
    ensures outcome == Submitted(SaveFailed) && count == 0
  {
    var store := new CardProvider();
    var panel := new ShareQRCode(Some(url), name, "", "", store);
    outcome := panel.HandleSaveCardChecked(Some(user), insert);
    count := store.CardCount();
  }
}
