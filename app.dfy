/**
 * `AppContent`: the top-level phase (landing slider, animation, email
 * verification, main routes), the `landingCompleted` flag and the per-user
 * welcome notice, driven by the landing handler, its delayed step and the two
 * effects on the authentication state.
 */
module AppShell {
  import opened Wrappers
  import opened Auth
  import opened QrSession
  import opened Protected

  /** The four values `phase` ever takes. */
  datatype Phase = Landing | Lottie | EmailVerification | MainRoutes

  /** Local storage: `getItem` is the value under a key, absent keys are null. */
  type Storage = map<string, string>

  const LANDING_KEY := "landingCompleted"

  /** The key remembering that `id` has seen the welcome notice. */
  function ToastKey(id: UserId): string
  {
    "toast-shown-" + id
  }

  /** `getItem(key)` is truthy: present and non-empty. */
  predicate Stored(st: Storage, key: string)
  {
    key in st && st[key] != ""
  }

  /** The lazy initial phase. */
  function InitialPhase(st: Storage): (p: Phase)
    ensures p == MainRoutes <==> Stored(st, LANDING_KEY)
    ensures p == Landing <==> !Stored(st, LANDING_KEY)
  {
    if Stored(st, LANDING_KEY) then MainRoutes else Landing
  }

  /** The phase the delayed landing step picks for the user it captured. */
  function AdvancePhase(captured: Option<User>): (p: Phase)
    ensures p == EmailVerification <==> IsUnconfirmed(captured)
    ensures p == MainRoutes <==> !IsUnconfirmed(captured)
  {
    if captured.Some? && !IsConfirmed(captured) then EmailVerification else MainRoutes
  }

  /** The effect on `[loading, user, isConfirmed]`: a settled present user forces a phase; otherwise it stays. */
  function AuthEffectPhase(p: Phase, loading: bool, user: Option<User>): (r: Phase)
    ensures loading || user.None? ==> r == p
    ensures !loading && IsUnconfirmed(user) ==> r == EmailVerification
    ensures !loading && IsConfirmed(user) ==> r == MainRoutes
  {
    if !loading && user.Some? && !IsConfirmed(user) then EmailVerification
    else if !loading && user.Some? && IsConfirmed(user) then MainRoutes
    else p
  }

  /** For a settled present user the effect sends to the verification screen exactly the users the protected routes stop. */
  lemma AuthEffectAgreesWithGate(p: Phase, user: Option<User>)
    requires user.Some?
    ensures AuthEffectPhase(p, false, user) == EmailVerification <==> Gate(false, user) == VerificationScreen
    ensures AuthEffectPhase(p, false, user) == MainRoutes <==> Gate(false, user) == Children
  {
  }

  /** For a settled present user the effect and the delayed step agree. */
  lemma AuthEffectAgreesWithAdvance(p: Phase, user: Option<User>)
    requires user.Some?
    ensures AuthEffectPhase(p, false, user) == AdvancePhase(user)
  {
  }

  datatype SavedCardsRoute = SavedCardsPage | RedirectHome

  /** The `/saved-cards` route element. */
  function SavedCardsElement(user: Option<User>): (r: SavedCardsRoute)
    ensures r == SavedCardsPage <==> IsConfirmed(user)
    ensures r == RedirectHome <==> user.None? || IsUnconfirmed(user)
  {
    if user.Some? && IsConfirmed(user) then SavedCardsPage else RedirectHome
  }

  /** The phase, the storage the shell uses, `toastShownRef`, and the two scheduled timeouts. */
  class AppContent {
    var phase: Phase
    var storage: Storage
    var toastShown: bool
    /** The landing step waiting on its timer, with the user its closure captured. */
    var pendingAdvance: Option<Option<User>>
    /** The welcome notice waiting on its timer, for this user id. */
    var pendingWelcome: Option<UserId>
    /** How many welcome notices have been shown. */
    ghost var welcomes: nat
    const session: GlobalProvider

    /** At most one welcome notice is ever scheduled or shown, and only after the ref was set. */
    ghost predicate Valid()
      reads this
    {
      welcomes + (if pendingWelcome.Some? then 1 else 0) <= (if toastShown then 1 else 0)
    }

    constructor (st: Storage, session: GlobalProvider)
      ensures phase == InitialPhase(st) && storage == st && this.session == session
      ensures !toastShown && pendingAdvance.None? && pendingWelcome.None? && welcomes == 0
      ensures Valid()
    {
      phase := InitialPhase(st);
      storage := st;
      toastShown := false;
      pendingAdvance := None;
      pendingWelcome := None;
      welcomes := 0;
      this.session := session;
    }

    /** While authentication is loading nothing is rendered; afterwards the current phase. */
    function Rendered(loading: bool): (r: Option<Phase>)
      reads this
      ensures r.None? <==> loading
      ensures r.Some? ==> r.value == phase
    {
      if loading then None else Some(phase)
    }

    /** `handleLandingComplete`: stores the flag, shows the animation at once and schedules the next step. */
    method HandleLandingComplete(captured: Option<User>)
      requires Valid()
      modifies this
      ensures Valid()
      ensures storage == old(storage)[LANDING_KEY := "true"] && Stored(storage, LANDING_KEY)
      ensures phase == Lottie && pendingAdvance == Some(captured)
      ensures toastShown == old(toastShown) && pendingWelcome == old(pendingWelcome) && welcomes == old(welcomes)
    {
      storage := storage[LANDING_KEY := "true"];
      phase := Lottie;
      pendingAdvance := Some(captured);
    }

    /** The landing timer fires: the form is shown and the phase follows the captured user. */
    method FireAdvance()
      requires Valid() && pendingAdvance.Some?
      modifies this, session
      ensures Valid()
      ensures phase == AdvancePhase(old(pendingAdvance).value) && pendingAdvance.None?
      ensures session.State() == old(session.State()).(formVisible := true) && session.stored == old(session.stored)
      ensures storage == old(storage) && toastShown == old(toastShown)
      ensures pendingWelcome == old(pendingWelcome) && welcomes == old(welcomes)
    {
      session.SetFormVisible(true);
      phase := AdvancePhase(pendingAdvance.value);
      pendingAdvance := None;
    }

    /** The effect on the authentication state. */
    method AuthEffect(loading: bool, user: Option<User>)
      requires Valid()
      modifies this
      ensures Valid()
      ensures phase == AuthEffectPhase(old(phase), loading, user)
      ensures storage == old(storage) && toastShown == old(toastShown) && pendingAdvance == old(pendingAdvance)
      ensures pendingWelcome == old(pendingWelcome) && welcomes == old(welcomes)
    {
      phase := AuthEffectPhase(phase, loading, user);
    }

    /**
     * The welcome effect: for the first settled confirmed user of this mount it sets the ref and,
     * unless that user's key is stored, schedules the notice.
     */
    method WelcomeEffect(loading: bool, user: Option<User>) returns (scheduled: bool)
      requires Valid()
      modifies this
      ensures Valid()
      ensures scheduled <==> && !loading && IsConfirmed(user) && !old(toastShown)
                             && !Stored(storage, ToastKey(user.value.id))
      ensures scheduled ==> pendingWelcome == Some(user.value.id)
      ensures !scheduled ==> pendingWelcome == old(pendingWelcome)
      ensures toastShown == (old(toastShown) || (!loading && IsConfirmed(user)))
      ensures phase == old(phase) && storage == old(storage) && welcomes == old(welcomes)
      ensures pendingAdvance == old(pendingAdvance)
    {
      scheduled := false;
      if !loading && IsConfirmed(user) && !toastShown {
        toastShown := true;
        if !Stored(storage, ToastKey(user.value.id)) {
          pendingWelcome := Some(user.value.id);
          scheduled := true;
        }
      }
    }

    /** The welcome timer fires: the notice is shown and the user's key is stored. */
    method FireWelcome()
      requires Valid() && pendingWelcome.Some?
      modifies this
      ensures Valid()
      ensures storage == old(storage)[ToastKey(old(pendingWelcome).value) := "true"]
      ensures welcomes == old(welcomes) + 1 && pendingWelcome.None?
      ensures phase == old(phase) && toastShown == old(toastShown) && pendingAdvance == old(pendingAdvance)
    {
      storage := storage[ToastKey(pendingWelcome.value) := "true"];
      welcomes := welcomes + 1;
      pendingWelcome := None;
    }
  }

  /** A first visit shows the slider; after it the flag is stored, so the next mount starts on the main routes. */
  method LandingRunsOnce(st: Storage, captured: Option<User>)
    returns (first: Phase, during: Phase, after: Phase, nextMount: Phase)
    requires !Stored(st, LANDING_KEY)
    ensures first == Landing && during == Lottie
    ensures after == AdvancePhase(captured) && nextMount == MainRoutes
  {
    var session := new GlobalProvider(None);
    var app := new AppContent(st, session);
    first := app.phase;
    app.HandleLandingComplete(captured);
    during := app.phase;
    app.FireAdvance();
    after := app.phase;
    var again := new AppContent(app.storage, session);
    nextMount := again.phase;
  }

  /** However often the effect re-runs, a mount schedules the welcome notice at most once. */
  method WelcomeAtMostOnce(st: Storage, user: User)
    returns (first: bool, second: bool, keyStored: bool)
    requires IsConfirmed(Some(user))
    ensures first <==> !Stored(st, ToastKey(user.id))
    ensures !second
    ensures keyStored
  {
    var session := new GlobalProvider(None);
    var app := new AppContent(st, session);
    first := app.WelcomeEffect(false, Some(user));
    if first {
      app.FireWelcome();
    }
    second := app.WelcomeEffect(false, Some(user));
    keyStored := Stored(app.storage, ToastKey(user.id));
  }
}
