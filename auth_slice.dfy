/**
 * The session store: `{isAuthenticated, user, role, status, error}`, the
 * session-restore thunk with its failure classifier, the logout thunk, and
 * the reducer cases that update the store.
 *
 * The reducer is given twice, as one concept: `Step` is the pure reducer
 * (a Redux reducer maps a state and an action to the next state) used to
 * reason about sequences of actions, and `AuthStore` is the store whose
 * methods assign its fields in place, each proved to agree with `Step`.
 */
module AuthSlice {
  import opened Js

  const ADMIN := "ADMIN"
  const CLIENT := "CLIENT"
  const UNAUTHENTICATED := "UNAUTHENTICATED"
  const UNKNOWN_ERROR := "UNKNOWN_ERROR"
  const LOGOUT_FAILED := "LOGOUT_FAILED"
  const SESSION_ERROR_FALLBACK := "Erreur lors de la récupération de la session"

  /** The profile returned by the backend; the views read only its username. */
  datatype Profile = Profile(id: int, username: Option<string>)

  datatype AuthState = AuthState(
    isAuthenticated: bool,
    user: Option<Profile>,
    role: Option<string>,
    status: Status,
    error: Option<string>)

  const InitialState := AuthState(false, None, None, Idle, None)

  /** The payload of a fulfilled session restore. */
  datatype SessionPayload = SessionPayload(user: Option<Profile>, role: string)

  /** Maps the HTTP status of a failed profile request to the rejection
      value of the session restore. */
  function ClassifySessionFailure(httpStatus: Option<int>): (reason: string)
    ensures reason == UNAUTHENTICATED <==> httpStatus == Some(401) || httpStatus == Some(403)
    ensures reason != UNAUTHENTICATED ==> reason == UNKNOWN_ERROR
  {
    if httpStatus == Some(401) || httpStatus == Some(403) then UNAUTHENTICATED else UNKNOWN_ERROR
  }

  /** The session-restore thunk, given the outcome of the profile request
      (whose body may be null). */
  function FetchSession(profile: Outcome<Option<Profile>>): (r: Settled<SessionPayload>)
    ensures profile.Ok? <==> r.Fulfilled?
    ensures r.Fulfilled? ==> r.payload == SessionPayload(profile.value, CLIENT)
    ensures r.Rejected? ==>
      r.reason.Some? && (r.reason.value == UNAUTHENTICATED <==> profile.error.status in {Some(401), Some(403)})
    ensures r.Rejected? ==> r.reason == Some(ClassifySessionFailure(profile.error.status))
  {
    match profile
    case Ok(body) => Fulfilled(SessionPayload(body, CLIENT))
    case Err(e) => Rejected(Some(ClassifySessionFailure(e.status)))
  }

  /** The logout thunk, given the outcome of the logout request. */
  function PerformLogout(response: Outcome<()>): (r: Settled<()>)
    ensures r.Fulfilled? <==> response.Ok?
    ensures r.Rejected? ==> r.reason == Some(LOGOUT_FAILED)
  {
    if response.Ok? then Fulfilled(()) else Rejected(Some(LOGOUT_FAILED))
  }

  /** Every action the store reacts to, and the logout actions it ignores. */
  datatype AuthAction =
    | SetAuthenticated(user: Option<Profile>, role: Option<string>)
    | ClearAuth
    | SessionPending
    | SessionFulfilled(session: SessionPayload)
    | SessionRejected(reason: Option<string>)
    | LogoutPending
    | LogoutFulfilled
    | LogoutRejected

  /** The action dispatched when the session restore settles. */
  function SessionSettled(r: Settled<SessionPayload>): AuthAction
  {
    match r
    case Fulfilled(p) => SessionFulfilled(p)
    case Rejected(reason) => SessionRejected(reason)
  }

  /** The action dispatched when the logout settles. */
  function LogoutSettled(r: Settled<()>): AuthAction
  {
    if r.Fulfilled? then LogoutFulfilled else LogoutRejected
  }

  /** `user || null` on an optional profile: a profile object is always truthy. */
  function OrNull<T>(x: Option<T>): Option<T> { x }

  /** `role || null`: an empty role string is stored as null. */
  function RoleOrNull(role: Option<string>): (r: Option<string>)
    ensures r.Some? <==> Truthy(role)
    ensures r.Some? ==> r == role
  {
    if Truthy(role) then role else None
  }

  /** The reducer: clear and a fulfilled logout reset the store, the other
      logout actions change nothing, a pending restore only starts loading,
      a fulfilled restore authenticates, a rejected one fails (logging out
      on UNAUTHENTICATED), and `setAuthenticated` never touches the status. */
  function Step(s: AuthState, a: AuthAction): (r: AuthState)
    ensures a.ClearAuth? || a.LogoutFulfilled? ==> r == InitialState
    ensures a.LogoutPending? || a.LogoutRejected? ==> r == s
    ensures a.SessionPending? ==>
      r.status == Loading && r.error == None
      && r.isAuthenticated == s.isAuthenticated && r.user == s.user && r.role == s.role
    ensures a.SessionFulfilled? ==>
      r == AuthState(true, a.session.user, Some(a.session.role), Succeeded, None)
    ensures a.SessionRejected? ==> r.status == Failed
    ensures a.SessionRejected? && a.reason == Some(UNAUTHENTICATED) ==>
      !r.isAuthenticated && r.user == None && r.role == None && r.error == s.error
    ensures a.SessionRejected? && a.reason != Some(UNAUTHENTICATED) ==>
      r.error.Some? && r.error.value != ""
      && r.isAuthenticated == s.isAuthenticated && r.user == s.user && r.role == s.role
    ensures a.SetAuthenticated? ==>
      r.isAuthenticated && r.error == None && r.status == s.status
      && r.user == a.user && (r.role.Some? <==> Truthy(a.role)) && (r.role.Some? ==> r.role == a.role)
  {
    match a
    case SetAuthenticated(user, role) =>
      s.(isAuthenticated := true, user := OrNull(user), role := RoleOrNull(role), error := None)
    case ClearAuth => InitialState
    case SessionPending => s.(status := Loading, error := None)
    case SessionFulfilled(p) =>
      s.(status := Succeeded, isAuthenticated := true, user := p.user, role := Some(p.role), error := None)
    case SessionRejected(reason) =>
      if reason == Some(UNAUTHENTICATED) then
        s.(status := Failed, isAuthenticated := false, user := None, role := None)
      else
        s.(status := Failed, error := Some(Or(reason, SESSION_ERROR_FALLBACK)))
    case LogoutPending => s
    case LogoutFulfilled => InitialState
    case LogoutRejected => s
  }

  /** The state after dispatching the actions of `trace` in order. */
  function Run(s: AuthState, trace: seq<AuthAction>): AuthState
    decreases |trace|
  {
    if trace == [] then s else Run(Step(s, trace[0]), trace[1..])
  }

  /** Dispatching two actions is applying the reducer twice. */
  lemma RunTwo(s: AuthState, a: AuthAction, b: AuthAction)
    ensures Run(s, [a, b]) == Step(Step(s, a), b)
  {
    assert [a, b][1..] == [b];
    assert [b][1..] == [];
    calc {
      Run(s, [a, b]);
      Run(Step(s, a), [b]);
      Run(Step(Step(s, a), b), []);
    }
  }

  /** The part of the intended session invariant that the code keeps on the
      session-restore path: an authenticated session is a client session
      with a profile. */
  predicate ClientSession(s: AuthState)
  {
    s.isAuthenticated ==> s.role == Some(CLIENT) && s.user.Some?
  }

  /** The stronger session invariant one would expect: an authenticated
      session has a role, a user and status succeeded. */
  predicate IntendedSessionInvariant(s: AuthState)
  {
    s.isAuthenticated ==> s.role.Some? && s.user.Some? && s.status == Succeeded
  }

  /** An action the restore/clear/logout path can dispatch: anything but
      `setAuthenticated`, with a restored session carrying a profile and the
      role the thunk always gives. */
  predicate RestorePathAction(a: AuthAction)
  {
    !a.SetAuthenticated? && (a.SessionFulfilled? ==> a.session.role == CLIENT && a.session.user.Some?)
  }

  /** One step of the restore/clear/logout path keeps `ClientSession`. */
  lemma StepKeepsClientSession(s: AuthState, a: AuthAction)
    requires ClientSession(s) && RestorePathAction(a)
    ensures ClientSession(Step(s, a))
  {
  }

  /** Any sequence of restore/clear/logout actions keeps `ClientSession`;
      in particular it holds in every state reachable from the initial one. */
  lemma {:induction false} RunKeepsClientSession(s: AuthState, trace: seq<AuthAction>)
    requires ClientSession(s)
    requires forall i :: 0 <= i < |trace| ==> RestorePathAction(trace[i])
    ensures ClientSession(Run(s, trace))
    decreases |trace|
  {
    if trace != [] {
      StepKeepsClientSession(s, trace[0]);
      assert forall i :: 0 <= i < |trace[1..]| ==> trace[1..][i] == trace[i + 1];
      RunKeepsClientSession(Step(s, trace[0]), trace[1..]);
    }
  }

  /** A restore whose profile request answers with a null body fulfils
      without a user, so the session is authenticated with no profile. */
  lemma NullProfileRestoreHasNoUser()
    ensures var s := Run(InitialState, [SessionPending, SessionSettled(FetchSession(Ok(None)))]);
      s.isAuthenticated && s.user == None && s.role == Some(CLIENT) && s.status == Succeeded
      && !ClientSession(s) && !IntendedSessionInvariant(s)
  {
    RunTwo(InitialState, SessionPending, SessionSettled(FetchSession(Ok(None))));
  }

  /** `setAuthenticated` without a role authenticates a session with no role. */
  lemma SetAuthenticatedWithoutRole(p: Profile)
    ensures var s := Step(InitialState, SetAuthenticated(Some(p), Some("")));
      s.isAuthenticated && s.role == None && s.status == Idle
      && !IntendedSessionInvariant(s)
  {
  }

  /** A second session restore started on an authenticated session leaves it
      authenticated while loading, and an unknown failure then leaves it
      authenticated with status failed. */
  lemma RestartedRestoreStaysAuthenticated(p: Profile)
    ensures var restored := Run(InitialState, [SessionPending, SessionFulfilled(SessionPayload(Some(p), CLIENT))]);
      var reloading := Step(restored, SessionPending);
      var failed := Step(reloading, SessionRejected(Some(UNKNOWN_ERROR)));
      IntendedSessionInvariant(restored)
      && reloading.isAuthenticated && reloading.status == Loading && !IntendedSessionInvariant(reloading)
      && failed.isAuthenticated && failed.status == Failed && failed.error == Some(UNKNOWN_ERROR)
  {
    RunTwo(InitialState, SessionPending, SessionFulfilled(SessionPayload(Some(p), CLIENT)));
  }

  /** A restore that starts and is refused with 401 or 403, from any state,
      ends logged out, failed and without an error message. */
  lemma UnauthorizedRestoreLogsOut(s: AuthState, e: ApiError)
    requires e.status == Some(401) || e.status == Some(403)
    ensures Run(s, [SessionPending, SessionSettled(FetchSession(Err(e)))])
         == AuthState(false, None, None, Failed, None)
  {
    RunTwo(s, SessionPending, SessionSettled(FetchSession(Err(e))));
  }

  /** A restore that starts and fails in any other way, from any state, ends
      failed with an error message and the identity fields untouched. */
  lemma OtherRestoreFailureKeepsIdentity(s: AuthState, e: ApiError)
    requires e.status != Some(401) && e.status != Some(403)
    ensures var r := Run(s, [SessionPending, SessionSettled(FetchSession(Err(e)))]);
      r == s.(status := Failed, error := Some(UNKNOWN_ERROR))
  {
    RunTwo(s, SessionPending, SessionSettled(FetchSession(Err(e))));
  }

  /** The store, whose reducer cases assign its fields in place. */
  class AuthStore {
    var isAuthenticated: bool
    var user: Option<Profile>
    var role: Option<string>
    var status: Status
    var error: Option<string>

    function State(): AuthState
      reads this
    {
      AuthState(isAuthenticated, user, role, status, error)
    }

    constructor ()
      ensures State() == InitialState
    {
      isAuthenticated, user, role, status, error := false, None, None, Idle, None;
    }

    method SetAuthenticatedCase(newUser: Option<Profile>, newRole: Option<string>)
      modifies this
      ensures isAuthenticated && error == None
      ensures user == newUser && role == RoleOrNull(newRole)
      ensures status == old(status)
      ensures State() == Step(old(State()), SetAuthenticated(newUser, newRole))
    {
      isAuthenticated := true;
      user := OrNull(newUser);
      role := RoleOrNull(newRole);
      error := None;
    }

    method ClearAuthCase()
      modifies this
      ensures State() == InitialState == Step(old(State()), ClearAuth)
    {
      isAuthenticated := false;
      user := None;
      role := None;
      status := Idle;
      error := None;
    }

    method SessionPendingCase()
      modifies this
      ensures status == Loading && error == None
      ensures isAuthenticated == old(isAuthenticated) && user == old(user) && role == old(role)
      ensures State() == Step(old(State()), SessionPending)
    {
      status := Loading;
      error := None;
    }

    method SessionFulfilledCase(p: SessionPayload)
      modifies this
      ensures State() == AuthState(true, p.user, Some(p.role), Succeeded, None)
      ensures State() == Step(old(State()), SessionFulfilled(p))
    {
      status := Succeeded;
      isAuthenticated := true;
      user := p.user;
      role := Some(p.role);
      error := None;
    }

    method SessionRejectedCase(reason: Option<string>)
      modifies this
      ensures status == Failed
      ensures reason == Some(UNAUTHENTICATED) ==>
        !isAuthenticated && user == None && role == None && error == old(error)
      ensures reason != Some(UNAUTHENTICATED) ==>
        error.Some? && error.value != ""
        && isAuthenticated == old(isAuthenticated) && user == old(user) && role == old(role)
      ensures State() == Step(old(State()), SessionRejected(reason))
    {
      status := Failed;
      if reason == Some(UNAUTHENTICATED) {
        isAuthenticated := false;
        user := None;
        role := None;
      } else {
        error := Some(Or(reason, SESSION_ERROR_FALLBACK));
      }
    }

    method LogoutFulfilledCase()
      modifies this
      ensures State() == InitialState == Step(old(State()), LogoutFulfilled)
    {
      isAuthenticated := false;
      user := None;
      role := None;
      status := Idle;
      error := None;
    }

    /** Dispatches one action: the case the slice declares for it, or
        nothing for the logout actions it has no case for. */
    method Dispatch(a: AuthAction)
      modifies this
      ensures State() == Step(old(State()), a)
    {
      match a
      case SetAuthenticated(u, r) => SetAuthenticatedCase(u, r);
      case ClearAuth => ClearAuthCase();
      case SessionPending => SessionPendingCase();
      case SessionFulfilled(p) => SessionFulfilledCase(p);
      case SessionRejected(reason) => SessionRejectedCase(reason);
      case LogoutPending =>
      case LogoutFulfilled => LogoutFulfilledCase();
      case LogoutRejected =>
    }
  }
}
