/**
 * The saved-cards page: the complete cards of the cache, the search filter,
 * the paged "load more" list, the capacity notice, and the delete and edit
 * flows.
 */
module SavedCards {
  import opened Wrappers
  import opened Text
  import opened Auth
  import opened Seqs
  import opened CardStore
  import opened QrSession
  import opened Layout
  import opened CardView

  const LOAD_STEP: nat := 3

  /** `card.qr_url && card.title` */
  predicate Complete(c: Card)
  {
    Truthy(c.qrUrl) && Truthy(c.title)
  }

  /** `savedCards`: the complete cards, in cache order. */
  function SavedCardsOf(cards: seq<Card>): (r: seq<Card>)
    ensures forall c :: c in r <==> c in cards && Complete(c)
    ensures IsSubsequence(r, cards)
    ensures forall c :: multiset(r)[c] == if Complete(c) then multiset(cards)[c] else 0
  {
    FilterKeepsOrder(cards, Complete);
    forall c
      ensures multiset(Filter(cards, Complete))[c] == if Complete(c) then multiset(cards)[c] else 0
    {
      FilterCounts(cards, Complete, c);
    }
    Filter(cards, Complete)
  }

  /** A card matches the lowered query when its lowered title, or its lowered ssid if it has one, contains it. */
  predicate Matches(c: Card, loweredQuery: string)
  {
    || Includes(ToLower(c.title.GetOr("")), loweredQuery)
    || (Truthy(c.ssid) && Includes(ToLower(c.ssid.value), loweredQuery))
  }

  /** `filteredCards`: all saved cards for a blank query; otherwise those matching the lowered, untrimmed query. */
  function FilteredCards(saved: seq<Card>, query: string): (r: seq<Card>)
    ensures IsBlank(query) ==> r == saved
    ensures !IsBlank(query) ==> forall c :: c in r <==> c in saved && Matches(c, ToLower(query))
    ensures !IsBlank(query) ==>
      forall c :: multiset(r)[c] == if Matches(c, ToLower(query)) then multiset(saved)[c] else 0
    ensures IsSubsequence(r, saved)
  {
    TrimEmptyIffBlank(query);
    if Trim(query) == "" then
      SubsequenceRefl(saved);
      saved
    else
      var q := ToLower(query);
      var p := (c: Card) => Matches(c, q);
      FilterKeepsOrder(saved, p);
      forall c
        ensures multiset(Filter(saved, p))[c] == if Matches(c, q) then multiset(saved)[c] else 0
      {
        FilterCounts(saved, p, c);
      }
      Filter(saved, p)
  }

  /** Lowering keeps white space and never makes a non-space out of one. */
  lemma LowerKeepsBlank(s: string)
    ensures IsBlank(ToLower(s)) <==> IsBlank(s)
  {
    if !IsBlank(s) {
      var i :| 0 <= i < |s| && !IsSpace(s[i]);
      assert !IsSpace(ToLower(s)[i]);
    }
  }

  /** Lowering twice is lowering once. */
  lemma LowerIdempotent(s: string)
    ensures ToLower(ToLower(s)) == ToLower(s)
  {
  }

  /** The search ignores the case of the query. */
  lemma SearchIgnoresQueryCase(saved: seq<Card>, query: string)
    ensures FilteredCards(saved, ToLower(query)) == FilteredCards(saved, query)
  {
    LowerKeepsBlank(query);
    LowerIdempotent(query);
    TrimEmptyIffBlank(query);
    TrimEmptyIffBlank(ToLower(query));
  }

  /** A single card passes a non-blank query exactly when it matches the lowered query. */
  lemma FilteredSingle(c: Card, query: string)
    requires !IsBlank(query)
    ensures FilteredCards([c], query) == if Matches(c, ToLower(query)) then [c] else []
  {
    TrimEmptyIffBlank(query);
    var q := ToLower(query);
    var p := (x: Card) => Matches(x, q);
    assert [c][1..] == [];
    assert Filter([c], p) == (if p(c) then [c] else []) + Filter([], p);
  }

  /** The query is lowered but not trimmed: a leading space stops an exact title from matching. */
  lemma QueryIsNotTrimmed(c: Card)
    requires c.title == Some("home") && c.ssid.None?
    ensures FilteredCards([c], " home") == []
    ensures FilteredCards([c], "home") == [c]
  {
    assert !IsBlank(" home") by {
      assert " home"[1] == 'h';
    }
    assert !IsBlank("home") by {
      assert "home"[0] == 'h';
    }
    assert ToLower(" home") == " home";
    assert ToLower("home") == "home";
    assert !Matches(c, " home") by {
      assert !Includes("home", " home");
    }
    assert Matches(c, "home") by {
      assert "home"[..4] == "home";
    }
    FilteredSingle(c, " home");
    FilteredSingle(c, "home");
  }

  /** `handleLoadMore`'s update: three more, but never past the filtered length. */
  function LoadMore(prev: nat, len: nat): (r: nat)
    ensures r <= prev + LOAD_STEP && r <= len
    ensures r == prev + LOAD_STEP || r == len
  {
    if prev + LOAD_STEP < len then prev + LOAD_STEP else len
  }

  /** The visible count after `k` presses of "load more". */
  function LoadMoreTimes(v: nat, len: nat, k: nat): nat
  {
    if k == 0 then v else LoadMore(LoadMoreTimes(v, len, k - 1), len)
  }

  /** From `v <= len`, `k` presses show `min(v + 3k, len)` cards; so enough presses show them all. */
  lemma {:induction false} LoadMoreTimesIsMin(v: nat, len: nat, k: nat)
    requires v <= len
    ensures LoadMoreTimes(v, len, k) == if v + LOAD_STEP * k < len then v + LOAD_STEP * k else len
  {
    if k > 0 {
      LoadMoreTimesIsMin(v, len, k - 1);
    }
  }

  /** `filteredCards.slice(0, visibleCount)` */
  function Shown(filtered: seq<Card>, visible: nat): (r: seq<Card>)
    ensures |r| == if visible < |filtered| then visible else |filtered|
    ensures r <= filtered
  {
    if visible < |filtered| then filtered[..visible] else filtered
  }

  /** The "load more" button is shown exactly while some filtered card is hidden. */
  predicate ShowsLoadMore(filtered: seq<Card>, visible: nat)
  {
    visible < |filtered|
  }

  lemma LoadMoreShownIffHidden(filtered: seq<Card>, visible: nat)
    ensures ShowsLoadMore(filtered, visible) <==> Shown(filtered, visible) != filtered
  {
  }

  /** `canAddMore` */
  predicate CanAddMore(cards: seq<Card>)
  {
    |cards| < MAX_CARDS
  }

  /** For a signed-in user the page's capacity notice and the shared message agree. */
  lemma CapacityAgreesWithMessage(user: User, cards: seq<Card>)
    ensures CanAddMore(cards) <==> Message(Some(user), Some(cards)).CanSaveMore?
    ensures !CanAddMore(cards) <==> Message(Some(user), Some(cards)) == MaxCardsReached
  {
  }

  datatype DeleteNotice = CardDeleted | DeleteFailed

  /** The notice the page evidently means: success exactly when the store deleted the card. */
  function ConfirmDeleteNotice(storeDeleted: bool): (n: DeleteNotice)
    ensures n == CardDeleted <==> storeDeleted
    ensures n == DeleteFailed <==> !storeDeleted
  {
    if storeDeleted then CardDeleted else DeleteFailed
  }

  /** The page's own state over the shared card cache and QR session. */
  class SavedCardsPage {
    var modalOpen: bool
    var selectedCardId: Option<CardId>
    var visibleCount: nat
    var searchQuery: string
    const store: CardProvider
    const session: GlobalProvider

    constructor (store: CardProvider, session: GlobalProvider)
      ensures this.store == store && this.session == session
      ensures !modalOpen && selectedCardId.None? && visibleCount == LOAD_STEP && searchQuery == ""
    {
      this.store := store;
      this.session := session;
      modalOpen := false;
      selectedCardId := None;
      visibleCount := LOAD_STEP;
      searchQuery := "";
    }

    function Filtered(): seq<Card>
      reads this`searchQuery, store`cards
    {
      FilteredCards(SavedCardsOf(store.cards), searchQuery)
    }

    /** The cards on screen. */
    function Visible(): seq<Card>
      reads this`searchQuery, this`visibleCount, store`cards
    {
      Shown(Filtered(), visibleCount)
    }

    /** Typing in the search box; the effect on `[searchQuery]` resets the page size when the query changed. */
    method SetSearchQuery(q: string)
      modifies this
      ensures searchQuery == q
      ensures q != old(searchQuery) ==> visibleCount == LOAD_STEP
      ensures q == old(searchQuery) ==> visibleCount == old(visibleCount)
      ensures modalOpen == old(modalOpen) && selectedCardId == old(selectedCardId)
    {
      if q != searchQuery {
        visibleCount := LOAD_STEP;
      }
      searchQuery := q;
    }

    /** `handleLoadMore` */
    method HandleLoadMore()
      modifies this
      ensures visibleCount == LoadMore(old(visibleCount), old(|Filtered()|))
      ensures searchQuery == old(searchQuery) && modalOpen == old(modalOpen) && selectedCardId == old(selectedCardId)
    {
      visibleCount := LoadMore(visibleCount, |Filtered()|);
    }

    /** `handleDeleteClick`: remembers the card and opens the confirmation. */
    method HandleDeleteClick(id: CardId)
      modifies this
      ensures selectedCardId == Some(id) && modalOpen
      ensures visibleCount == old(visibleCount) && searchQuery == old(searchQuery)
    {
      selectedCardId := Some(id);
      modalOpen := true;
    }

    /**
     * `handleConfirmDelete`: with no (or an empty) selection nothing happens; otherwise the card is deleted
     * through the cache and the modal closes with the selection cleared. `deleteCard` resolves whether or
     * not the store deleted, so the catch branch never runs and the notice is always the success notice.
     */
    method HandleConfirmDelete(delete: CardId -> bool) returns (notice: Option<DeleteNotice>)
      modifies this, store
      ensures !Truthy(old(selectedCardId)) ==>
        && notice.None? && store.cards == old(store.cards)
        && modalOpen == old(modalOpen) && selectedCardId == old(selectedCardId)
      ensures Truthy(old(selectedCardId)) ==>
        var id := old(selectedCardId).value;
        && notice == Some(CardDeleted)
        && store.cards == (if delete(id) then RemoveById(old(store.cards), id) else old(store.cards))
        && !modalOpen && selectedCardId.None?
      ensures visibleCount == old(visibleCount) && searchQuery == old(searchQuery)
      ensures store.loading == old(store.loading) && store.fetched == old(store.fetched)
    {
      if !Truthy(selectedCardId) {
        return None;
      }
      store.DeleteCard(selectedCardId.value, delete);
      notice := Some(CardDeleted);
      modalOpen := false;
      selectedCardId := None;
    }

    /**
     * `handleConfirmDelete` as evidently meant: the same steps over a delete that reports the store's
     * refusal, so the notice says whether the card was deleted.
     */
    method HandleConfirmDeleteChecked(delete: CardId -> bool) returns (notice: Option<DeleteNotice>)
      modifies this, store
      ensures !Truthy(old(selectedCardId)) ==>
        && notice.None? && store.cards == old(store.cards)
        && modalOpen == old(modalOpen) && selectedCardId == old(selectedCardId)
      ensures Truthy(old(selectedCardId)) ==>
        var id := old(selectedCardId).value;
        && notice == Some(ConfirmDeleteNotice(delete(id)))
        && store.cards == (if delete(id) then RemoveById(old(store.cards), id) else old(store.cards))
        && !modalOpen && selectedCardId.None?
      ensures visibleCount == old(visibleCount) && searchQuery == old(searchQuery)
      ensures store.loading == old(store.loading) && store.fetched == old(store.fetched)
    {
      if !Truthy(selectedCardId) {
        return None;
      }
      var ok := store.DeleteCardChecked(selectedCardId.value, delete);
      notice := Some(ConfirmDeleteNotice(ok));
      modalOpen := false;
      selectedCardId := None;
    }

    /**
     * `handleEditClick`, the `onEdit` of every card on the page: hands the card to `saveQR` (password
     * defaulting to "", security to `nopass`) and then shows the form again. The card may come from a
     * field edit, so its title may be empty; its url and title are present.
     */
    method HandleEditClick(user: Option<User>, card: Card)
      requires card.qrUrl.Some? && card.title.Some?
      modifies session
      ensures user.None? ==>
        session.State() == old(session.State()).(error := NOT_LOGGED_IN, formVisible := true)
        && session.stored == old(session.stored)
      ensures IsUnconfirmed(user) ==>
        session.State() == old(session.State()).(error := NOT_CONFIRMED, formVisible := true)
        && session.stored == old(session.stored)
      ensures IsConfirmed(user) ==>
        && session.State() == QrState(card.qrUrl, card.title.value, OrEmpty(card.password),
                                      if Truthy(card.encryption) then card.encryption.value else "nopass", true, "")
        && session.stored == Some(Snapshot(card.qrUrl, card.title, Some(session.networkSecurity), Some(false)))
    {
      var security := if Truthy(card.encryption) then card.encryption.value else "nopass";
      var _ := session.SaveQR(user, card.qrUrl.value, card.title.value, OrEmpty(card.password), security);
      session.SetFormVisible(true);
    }

    /**
     * The edit handler the page evidently means: the one changed field goes to `updateCard` as a patch,
     * so on success every cached card with that id becomes the stored row, and on error nothing changes.
     */
    method HandleCardEdit(edited: Card, f: Field, v: string, update: (CardId, Patch) -> RowReply)
      returns (stored: Option<Card>)
      modifies store
      ensures var reply := update(edited.id, map[f.Key() := Some(v)]);
        && (reply.Stored? ==> stored == Some(reply.row) && store.cards == ReplaceById(old(store.cards), edited.id, reply.row))
        && (reply.RowFailed? ==> stored.None? && store.cards == old(store.cards))
      ensures store.loading == old(store.loading) && store.fetched == old(store.fetched)
    {
      stored := store.UpdateCard(edited.id, map[f.Key() := Some(v)], update);
    }
  }

  /** Whatever page size was reached, changing the query returns to the first page; "load more" then grows it by at most three. */
  method SearchResetsPaging(cards: seq<Card>, reached: nat, q: string) returns (afterSearch: nat, afterMore: nat)
    requires q != ""
    ensures afterSearch == LOAD_STEP
    ensures afterMore <= afterSearch + LOAD_STEP
  {
    var store := new CardProvider();
    store.cards := cards;
    var session := new GlobalProvider(None);
    var page := new SavedCardsPage(store, session);
    page.visibleCount := reached;
    page.SetSearchQuery(q);
    afterSearch := page.visibleCount;
    page.HandleLoadMore();
    afterMore := page.visibleCount;
  }

  /** As written, confirming the delete of a card the store refuses to delete announces success, and the cache keeps the card. */
  method FailedDeleteAnnouncedAsSuccess(cards: seq<Card>, id: CardId, delete: CardId -> bool)
    returns (notice: Option<DeleteNotice>, cached: seq<Card>)
    requires id != "" && !delete(id)
    ensures notice == Some(CardDeleted)
    ensures cached == cards
  {
    var store := new CardProvider();
    store.cards := cards;
    var session := new GlobalProvider(None);
    var page := new SavedCardsPage(store, session);
    page.HandleDeleteClick(id);
    notice := page.HandleConfirmDelete(delete);
    cached := store.cards;
  }

  /** With the evident handler the same refused delete is announced as a failure. */
  method RefusedDeleteReported(cards: seq<Card>, id: CardId, delete: CardId -> bool)
    returns (notice: Option<DeleteNotice>, cached: seq<Card>)
    requires id != "" && !delete(id)
    ensures notice == Some(DeleteFailed)
    ensures cached == cards
  {
    var store := new CardProvider();
    store.cards := cards;
    var session := new GlobalProvider(None);
    var page := new SavedCardsPage(store, session);
    page.HandleDeleteClick(id);
    notice := page.HandleConfirmDeleteChecked(delete);
    cached := store.cards;
  }

  /**
   * As written, a field edit on this page is announced as saved (`onEdit` receives the changed card) but
   * nothing reaches the store: `onEdit` is `handleEditClick`, and the cache keeps the old card.
   */
  method EditNeverReachesStore(user: Option<User>, c: Card, f: Field, v: string)
    returns (edited: Option<Card>, cached: seq<Card>)
    requires Complete(c) && FieldOf(c, f) != Some(v)
    ensures edited.Some? && FieldOf(edited.value, f) == Some(v)
    ensures cached == [c] && FieldOf(cached[0], f) != Some(v)
  {
    var store := new CardProvider();
    store.cards := [c];
    var session := new GlobalProvider(None);
    var page := new SavedCardsPage(store, session);
    var view := new QrCard(c, true, true, true);
    view.ToggleEdit();
    edited := view.HandleSaveField(f, v);
    page.HandleEditClick(user, edited.value);
    cached := store.cards;
  }

  /** With the evident handler, a stored edit shows in the cached card with that id. */
  method EditReachesStore(c: Card, f: Field, v: string, update: (CardId, Patch) -> RowReply)
    returns (cached: seq<Card>)
    requires update(c.id, map[f.Key() := Some(v)]).Stored?
    requires update(c.id, map[f.Key() := Some(v)]).row == WithField(c, f, v)
    ensures |cached| == 1 && FieldOf(cached[0], f) == Some(v) && cached[0].id == c.id
  {
    var store := new CardProvider();
    store.cards := [c];
    var session := new GlobalProvider(None);
    var page := new SavedCardsPage(store, session);
    var view := new QrCard(c, true, true, true);
    var edited := view.HandleSaveField(f, v);
    var _ := page.HandleCardEdit(edited.value, f, v, update);
    cached := store.cards;
  }
}
