/** The shared layout's line under the page: how many more cards the visitor may save. */
module Layout {
  import opened Wrappers
  import opened Auth
  import opened CardStore

  datatype CardsMessage = RegisterToSaveCards | MaxCardsReached | CanSaveMore(count: int)

  /** `cards?.length || 0`: a missing list counts as empty. */
  function CountOf(cards: Option<seq<Card>>): nat
  {
    if cards.Some? then |cards.value| else 0
  }

  /** The memoised `message`. */
  function Message(user: Option<User>, cards: Option<seq<Card>>): (m: CardsMessage)
    ensures user.None? <==> m == RegisterToSaveCards
    ensures m == MaxCardsReached <==> user.Some? && CountOf(cards) >= MAX_CARDS
    ensures m.CanSaveMore? ==> m.count == MAX_CARDS - CountOf(cards) && 1 <= m.count <= MAX_CARDS
  {
    if user.None? then RegisterToSaveCards
    else
      var remaining := MAX_CARDS - CountOf(cards);
      if remaining <= 0 then MaxCardsReached else CanSaveMore(remaining)
  }

  /** A signed-in user without a card list is told they can save all ten. */
  lemma MissingListCountsAsEmpty(user: User)
    ensures Message(Some(user), None) == CanSaveMore(MAX_CARDS)
    ensures Message(Some(user), None) == Message(Some(user), Some([]))
  {
  }
}
