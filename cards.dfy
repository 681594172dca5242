/**
 * The saved-card cache of `CardProvider`: the signed-in user's rows of the
 * `wifi_cards` table, newest first, with the store's list, insert, update and
 * delete calls given as function-valued parameters that return the store's
 * answer for the request they are handed.
 */
module CardStore {
  import opened Wrappers
  import opened Text
  import opened Auth
  import opened Seqs

  /** Declared beside the store; no operation of the store checks it. */
  const MAX_CARDS: nat := 10

  type CardId = string

  /** One row of `wifi_cards` as the store returns it; every text column may be null. */
  datatype Card = Card(id: CardId, userId: UserId, qrUrl: Option<string>, title: Option<string>,
                       password: Option<string>, encryption: Option<string>, ssid: Option<string>)

  /** The object a caller hands to `saveCard`. */
  datatype Draft = Draft(qrUrl: Option<string>, title: Option<string>, password: Option<string>,
                         encryption: Option<string>, ssid: Option<string>)

  /** The row `saveCard` sends to the store's insert. */
  datatype NewRow = NewRow(userId: UserId, qrUrl: Option<string>, title: Option<string>,
                           password: string, encryption: string, ssid: string)

  /** Column updates handed to `updateCard`, passed to the store unchanged. */
  type Patch = map<string, Option<string>>

  /** The store's answer to a list query: the rows (possibly null) or an error. */
  datatype ListReply = Listed(rows: Option<seq<Card>>) | ListFailed

  /** The store's answer to an insert or an update: the stored row or an error. */
  datatype RowReply = Stored(row: Card) | RowFailed

  /** The row inserted for `owner`; the three optional text columns default to "". */
  function InsertRequest(owner: UserId, d: Draft): (r: NewRow)
    ensures r.userId == owner && r.qrUrl == d.qrUrl && r.title == d.title
    ensures !Truthy(d.password) ==> r.password == ""
    ensures !Truthy(d.encryption) ==> r.encryption == ""
    ensures !Truthy(d.ssid) ==> r.ssid == ""
    ensures Truthy(d.password) ==> r.password == d.password.value
    ensures Truthy(d.encryption) ==> r.encryption == d.encryption.value
    ensures Truthy(d.ssid) ==> r.ssid == d.ssid.value
  {
    NewRow(owner, d.qrUrl, d.title, OrEmpty(d.password), OrEmpty(d.encryption), OrEmpty(d.ssid))
  }

  /** The cache after a list query answered `reply`: the rows (null read as none), or the old cache on error. */
  ghost function AfterFetch(cached: seq<Card>, reply: ListReply): seq<Card>
  {
    match reply
    case ListFailed => cached
    case Listed(rows) => rows.GetOr([])
  }

  /** `updateCard`'s `map`: every entry whose id matches becomes `row`; the others stay where they are. */
  function ReplaceById(s: seq<Card>, id: CardId, row: Card): (r: seq<Card>)
    ensures |r| == |s|
    ensures forall i :: 0 <= i < |s| ==> r[i] == (if s[i].id == id then row else s[i])
  {
    if s == [] then [] else [if s[0].id == id then row else s[0]] + ReplaceById(s[1..], id, row)
  }

  /** `deleteCard`'s `filter`: drops every entry with id `id`; an absent id changes nothing. */
  function RemoveById(s: seq<Card>, id: CardId): (r: seq<Card>)
    ensures |r| <= |s|
    ensures forall c :: c in r <==> c in s && c.id != id
    ensures (forall i :: 0 <= i < |s| ==> s[i].id != id) ==> r == s
  {
    var keep := (c: Card) => c.id != id;
    if forall i :: 0 <= i < |s| ==> s[i].id != id then
      FilterKeepsAll(s, keep);
      Filter(s, keep)
    else
      Filter(s, keep)
  }

  /** The entries `RemoveById` keeps are in their original order, each as often as before. */
  lemma RemoveByIdKeepsOthers(s: seq<Card>, id: CardId)
    ensures IsSubsequence(RemoveById(s, id), s)
    ensures forall c: Card :: c.id != id ==> multiset(RemoveById(s, id))[c] == multiset(s)[c]
    ensures forall c: Card :: c.id == id ==> c !in RemoveById(s, id)
  {
    var keep := (c: Card) => c.id != id;
    FilterKeepsOrder(s, keep);
    forall c: Card | c.id != id
      ensures multiset(RemoveById(s, id))[c] == multiset(s)[c]
    {
      FilterCounts(s, keep, c);
    }
  }

  /** The cache held by `CardProvider`, with its `loading` state and the `fetchedRef` flag. */
  class CardProvider {
    var cards: seq<Card>
    var loading: bool
    var fetched: bool

    constructor ()
      ensures cards == [] && !loading && !fetched
    {
      cards := [];
      loading := false;
      fetched := false;
    }

    /** `latestCard`: the newest card, or null for an empty cache. */
    function LatestCard(): (r: Option<Card>)
      reads this
      ensures r.None? <==> cards == []
      ensures r.Some? ==> r.value == cards[0]
    {
      if cards == [] then None else Some(cards[0])
    }

    /** `cardCount` */
    function CardCount(): nat
      reads this
    {
      |cards|
    }

    /** `fetchCards`: with a user, replaces the cache by the listed rows, or keeps it on error. */
    method FetchCards(user: Option<User>, list: UserId -> ListReply)
      modifies this
      ensures fetched == old(fetched)
      ensures user.None? ==> cards == old(cards) && loading == old(loading)
      ensures user.Some? ==> !loading && cards == AfterFetch(old(cards), list(user.value.id))
    {
      if user.None? {
        return;
      }
      loading := true;
      var reply := list(user.value.id);
      match reply {
        case ListFailed =>
        case Listed(rows) =>
          cards := rows.GetOr([]);
      }
      loading := false;
    }

    /** `saveCard`: with a user, inserts the draft and prepends the stored row; no capacity or duplicate check. */
    method SaveCard(user: Option<User>, d: Draft, insert: NewRow -> RowReply) returns (r: Option<Card>)
      modifies this
      ensures loading == old(loading) && fetched == old(fetched)
      ensures user.None? ==> r.None? && cards == old(cards)
      ensures user.Some? && insert(InsertRequest(user.value.id, d)).Stored? ==>
        var row := insert(InsertRequest(user.value.id, d)).row;
        r == Some(row) && cards == [row] + old(cards)
      ensures user.Some? && insert(InsertRequest(user.value.id, d)).RowFailed? ==>
        r.None? && cards == old(cards)
    {
      if user.None? {
        return None;
      }
      var reply := insert(InsertRequest(user.value.id, d));
      match reply {
        case RowFailed =>
          r := None;
        case Stored(row) =>
          cards := [row] + cards;
          r := Some(row);
      }
    }

    /** `updateCard`: on success every entry with that id becomes the returned row; on error nothing changes. */
    method UpdateCard(id: CardId, patch: Patch, update: (CardId, Patch) -> RowReply) returns (r: Option<Card>)
      modifies this
      ensures loading == old(loading) && fetched == old(fetched)
      ensures update(id, patch).Stored? ==>
        r == Some(update(id, patch).row) && cards == ReplaceById(old(cards), id, update(id, patch).row)
      ensures update(id, patch).RowFailed? ==> r.None? && cards == old(cards)
    {
      var reply := update(id, patch);
      match reply {
        case RowFailed =>
          r := None;
        case Stored(row) =>
          cards := ReplaceById(cards, id, row);
          r := Some(row);
      }
    }

    /**
     * `deleteCard`: when the store deletes, every entry with that id leaves the cache; on error the error
     * is only logged, nothing changes and nothing is reported to the caller.
     */
    method DeleteCard(id: CardId, delete: CardId -> bool)
      modifies this
      ensures loading == old(loading) && fetched == old(fetched)
      ensures delete(id) ==> cards == RemoveById(old(cards), id)
      ensures !delete(id) ==> cards == old(cards)
    {
      if delete(id) {
        cards := RemoveById(cards, id);
      }
    }

    /**
     * `deleteCard` as its callers evidently expect it: the same cache update, but the store's refusal
     * reaches the caller (`ok` is false exactly when the store refused).
     */
    method DeleteCardChecked(id: CardId, delete: CardId -> bool) returns (ok: bool)
      modifies this
      ensures loading == old(loading) && fetched == old(fetched)
      ensures ok == delete(id)
      ensures ok ==> cards == RemoveById(old(cards), id)
      ensures !ok ==> cards == old(cards)
    {
      DeleteCard(id, delete);
      ok := delete(id);
    }

    /** The effect on `[user]`: sign-out clears the cache and the flag; a user triggers one fetch per session. */
    method SessionEffect(user: Option<User>, list: UserId -> ListReply) returns (ranFetch: bool)
      modifies this
      ensures ranFetch <==> user.Some? && !old(fetched)
      ensures user.None? ==> cards == [] && !fetched && loading == old(loading)
      ensures user.Some? ==> fetched
      ensures user.Some? && old(fetched) ==> cards == old(cards) && loading == old(loading)
      ensures ranFetch ==> !loading && cards == AfterFetch(old(cards), list(user.value.id))
    {
      if user.None? {
        cards := [];
        fetched := false;
        return false;
      }
      ranFetch := !fetched;
      if !fetched {
        FetchCards(user, list);
        fetched := true;
      }
    }
  }

  /** While a user stays signed in, the effect fetches on its first run only. */
  method FetchesOncePerSession(user: User, list: UserId -> ListReply) returns (first: bool, second: bool)
    ensures first && !second
  {
    var store := new CardProvider();
    first := store.SessionEffect(Some(user), list);
    second := store.SessionEffect(Some(user), list);
  }

  /** Signing out and in again fetches anew, and the sign-out leaves an empty cache in between. */
  method SignOutResetsFetch(user: User, list: UserId -> ListReply) returns (first: bool, cleared: bool, again: bool)
    ensures first && cleared && again
  {
    var store := new CardProvider();
    first := store.SessionEffect(Some(user), list);
    var _ := store.SessionEffect(None, list);
    cleared := store.cards == [] && store.LatestCard().None?;
    again := store.SessionEffect(Some(user), list);
  }

  /** A successful save makes the stored row the latest card and raises the count by exactly one. */
  method SaveShowsLatest(user: User, d: Draft, insert: NewRow -> RowReply, list: UserId -> ListReply)
    returns (latest: Option<Card>, count: nat, before: nat)
    requires insert(InsertRequest(user.id, d)).Stored?
    ensures latest == Some(insert(InsertRequest(user.id, d)).row)
    ensures count == before + 1
  {
    var store := new CardProvider();
    var _ := store.SessionEffect(Some(user), list);
    before := store.CardCount();
    var _ := store.SaveCard(Some(user), d, insert);
    latest := store.LatestCard();
    count := store.CardCount();
  }
}
