/**
 * `GlobalProvider`: the QR code currently shown (url, name, password, security),
 * whether the generator form is visible, the last save error, and the snapshot
 * kept under the local-storage key `wifiQrState`. The snapshot has no password
 * field, so a password never reaches storage and never survives a reload.
 */
module QrSession {
  import opened Wrappers
  import opened Text
  import opened Auth

  const STORAGE_KEY := "wifiQrState"
  const NOT_LOGGED_IN := "You must be logged in to save QR cards"
  const NOT_CONFIRMED := "Your email must be confirmed to save QR cards"

  /** The six state fields of the provider. */
  datatype QrState = QrState(qrUrl: Option<string>, networkName: string, networkPassword: string,
                             networkSecurity: string, formVisible: bool, error: string)

  /** The parsed snapshot; a field missing from the stored JSON (or null) is None. */
  datatype Snapshot = Snapshot(qrUrl: Option<string>, networkName: Option<string>,
                               networkSecurity: Option<string>, formVisible: Option<bool>)

  /** The state a reset leaves: nothing shown, form visible, no error. */
  const BLANK := QrState(None, "", "", "", true, "")

  /** The snapshot written for a state: every field but the password and the error. */
  function SnapshotOf(s: QrState): Snapshot
  {
    Snapshot(s.qrUrl, Some(s.networkName), Some(s.networkSecurity), Some(s.formVisible))
  }

  /** The initial state read from storage: falsy fields fall back to defaults, the password is always empty. */
  function Restore(saved: Option<Snapshot>): (s: QrState)
    ensures s.networkPassword == "" && s.error == ""
    ensures saved.None? ==> s == BLANK
    ensures saved.Some? ==> s.formVisible == saved.value.formVisible.GetOr(true)
    ensures saved.Some? ==> s.networkName == OrEmpty(saved.value.networkName)
    ensures saved.Some? ==> s.networkSecurity == OrEmpty(saved.value.networkSecurity)
    ensures saved.Some? && Truthy(saved.value.qrUrl) ==> s.qrUrl == saved.value.qrUrl
    ensures saved.Some? && !Truthy(saved.value.qrUrl) ==> s.qrUrl.None?
  {
    match saved
    case None => BLANK
    case Some(v) =>
      QrState(if Truthy(v.qrUrl) then v.qrUrl else None, OrEmpty(v.networkName), "",
              OrEmpty(v.networkSecurity), v.formVisible.GetOr(true), "")
  }

  /** The snapshot does not depend on the password (nor on the error). */
  lemma SnapshotOmitsPassword(s: QrState, password: string, error: string)
    ensures SnapshotOf(s.(networkPassword := password, error := error)) == SnapshotOf(s)
  {
  }

  /** Reloading from a written snapshot restores everything but the password and the error. */
  lemma RestoreAfterSnapshot(s: QrState)
    requires s.qrUrl != Some("")
    ensures Restore(Some(SnapshotOf(s))) == s.(networkPassword := "", error := "")
  {
  }

  /** The provider's state and the value stored under `STORAGE_KEY` (None once removed). */
  class GlobalProvider {
    var qrUrl: Option<string>
    var networkName: string
    var networkPassword: string
    var networkSecurity: string
    var formVisible: bool
    var error: string
    var stored: Option<Snapshot>

    function State(): QrState
      reads this
    {
      QrState(qrUrl, networkName, networkPassword, networkSecurity, formVisible, error)
    }

    /** Mount: the state comes from the saved snapshot, if any. */
    constructor (saved: Option<Snapshot>)
      ensures State() == Restore(saved) && stored == saved
    {
      var s := Restore(saved);
      qrUrl, networkName, networkPassword := s.qrUrl, s.networkName, s.networkPassword;
      networkSecurity, formVisible, error := s.networkSecurity, s.formVisible, s.error;
      stored := saved;
    }

    /**
     * `saveQR`: a missing user and an unconfirmed user are refused with two distinct errors and
     * nothing else changes; otherwise the code is shown, the form hidden and the snapshot written.
     */
    method SaveQR(user: Option<User>, url: string, name: string, password: string, security: string)
      returns (ok: bool)
      modifies this
      ensures ok <==> IsConfirmed(user)
      ensures user.None? ==> State() == old(State()).(error := NOT_LOGGED_IN) && stored == old(stored)
      ensures IsUnconfirmed(user) ==> State() == old(State()).(error := NOT_CONFIRMED) && stored == old(stored)
      ensures ok ==> State() == QrState(Some(url), name, password, security, false, "")
      ensures ok ==> stored == Some(SnapshotOf(State()))
    {
      if user.None? {
        error := NOT_LOGGED_IN;
        return false;
      }
      if !IsConfirmed(user) {
        error := NOT_CONFIRMED;
        return false;
      }
      qrUrl, networkName, networkPassword, networkSecurity := Some(url), name, password, security;
      formVisible, error := false, "";
      stored := Some(Snapshot(Some(url), Some(name), Some(security), Some(false)));
      ok := true;
    }

    /** `resetQR`: the blank state with the form visible, and the storage key removed. */
    method ResetQR()
      modifies this
      ensures State() == BLANK && stored.None?
    {
      qrUrl, networkName, networkPassword, networkSecurity := None, "", "", "";
      formVisible, error := true, "";
      stored := None;
    }

    /** `setFormVisible` */
    method SetFormVisible(v: bool)
      modifies this
      ensures State() == old(State()).(formVisible := v) && stored == old(stored)
    {
      formVisible := v;
    }

    /**
     * The persistence effect, run after a render in which url, name, security or visibility changed:
     * it writes the snapshot of the current state (so a reset that changed something is followed by a
     * snapshot of the blank state).
     */
    method PersistEffect()
      modifies this
      ensures State() == old(State()) && stored == Some(SnapshotOf(State()))
    {
      stored := Some(SnapshotOf(State()));
    }
  }

  /** Resetting twice leaves the same state and storage as resetting once. */
  method ResetIsIdempotent(saved: Option<Snapshot>) returns (once: QrState, twice: QrState, storedTwice: Option<Snapshot>)
    ensures once == twice == BLANK && storedTwice.None?
  {
    var g := new GlobalProvider(saved);
    g.ResetQR();
    once := g.State();
    g.ResetQR();
    twice := g.State();
    storedTwice := g.stored;
  }

  /** A saved password is shown in this session but is gone after a reload from storage. */
  method PasswordDoesNotSurviveReload(user: User, url: string, name: string, password: string, security: string)
    returns (shown: string, reloaded: string)
    requires IsConfirmed(Some(user))
    ensures shown == password && reloaded == ""
  {
    var g := new GlobalProvider(None);
    var _ := g.SaveQR(Some(user), url, name, password, security);
    shown := g.networkPassword;
    var h := new GlobalProvider(g.stored);
    reloaded := h.networkPassword;
  }
}
