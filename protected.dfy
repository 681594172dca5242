/** `ProtectedWrapper`: what a protected route shows for the current authentication state. */
module Protected {
  import opened Wrappers
  import opened Auth

  datatype GateView = LoadingAuthentication | VerificationScreen | Children

  /** Loading first, then a present unconfirmed user, and the children for everyone else. */
  function Gate(loading: bool, user: Option<User>): (v: GateView)
    ensures loading ==> v == LoadingAuthentication
    ensures v == VerificationScreen <==> !loading && user.Some? && !IsConfirmed(user)
    ensures v == Children <==> !loading && (user.None? || IsConfirmed(user))
  {
    if loading then LoadingAuthentication
    else if user.Some? && !IsConfirmed(user) then VerificationScreen
    else Children
  }

  /** Two users with the same presence and confirmation are gated alike: nothing else of the user matters. */
  lemma GateDependsOnlyOnFlags(loading: bool, u: Option<User>, w: Option<User>)
    requires u.Some? == w.Some? && IsConfirmed(u) == IsConfirmed(w)
    ensures Gate(loading, u) == Gate(loading, w)
  {
  }
}
