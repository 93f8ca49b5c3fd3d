/**
 * The authentication provider as an object whose five slots its operations update
 * in place. Each awaited request is replaced by the reply it received; every
 * method is proved to produce the state and result of its step in SessionSpec,
 * and to pass through that step's states one slot write at a time, in order.
 */
module AuthSession {
  import opened Values
  import opened Profiles
  import opened Http
  import opened Credentials
  import opened SessionSpec

  class Session {
    /** The persisted `token` entry of local storage. */
    var store: Option<string>
    /** The in-memory token. */
    var token: Option<string>
    /** The current user profile. */
    var currentUser: Option<Profile>
    /** The client's default Authorization header; `None` once the key is deleted. */
    var header: Option<string>
    /** True until the first validation step has finished. */
    var loading: bool
    /** The state after every slot write so far, oldest first. */
    ghost var history: seq<State>

    /** The five slots as a value. */
    function Snapshot(): State
      reads this
    {
      State(store, token, currentUser, header, loading)
    }

    /** Mounting the provider with the token persisted in storage, then its first render. */
    constructor (persisted: Option<string>)
      ensures Snapshot() == Initial(persisted)
      ensures history == [Initial(persisted)]
    {
      store := persisted;
      token := persisted;
      currentUser := None;
      loading := true;
      header := Some(AuthorizationHeader(persisted));
      history := [State(persisted, persisted, None, Some(AuthorizationHeader(persisted)), true)];
    }

    /** A render of the provider: the header follows the token. */
    method Render()
      modifies this
      ensures Snapshot() == RenderStep(old(Snapshot()))
      ensures history == old(history) + RenderWrites(old(Snapshot()))
    {
      header := Some(AuthorizationHeader(token));
      history := history + [Snapshot()];
    }

    /**
     * The validation step. `requested` tells whether the identity check was sent;
     * `reply` is its answer and is ignored when nothing was sent.
     */
    method LoadUser(reply: Reply<Option<Profile>>) returns (requested: bool)
      modifies this
      ensures requested == RequestsIdentity(old(Snapshot()))
      ensures Snapshot() == LoadUserStep(old(Snapshot()), reply)
      ensures history == old(history) + LoadUserWrites(old(Snapshot()), reply)
    {
      requested := IsAuthenticated(token);
      if requested {
        match reply
        case Ok(data) =>
          currentUser := data;
          history := history + [Snapshot()];
        case Err(_) =>
          store := None;
          history := history + [Snapshot()];
          token := None;
          history := history + [Snapshot()];
      }
      loading := false;
      history := history + [Snapshot()];
    }

    /** The shared body of login and registration. */
    method SignIn(reply: Reply<SignInPayload>, fallback: string) returns (r: AuthResult)
      modifies this
      ensures Snapshot() == SignInStep(old(Snapshot()), reply, fallback).state
      ensures r == SignInStep(old(Snapshot()), reply, fallback).result
      ensures history == old(history) + SignInWrites(old(Snapshot()), reply)
    {
      match reply
      case Ok(p) =>
        store := Some(AsString(p.token));
        history := history + [Snapshot()];
        token := p.token;
        history := history + [Snapshot()];
        currentUser := p.data;
        history := history + [Snapshot()];
        header := Some(BearerHeader(AsString(p.token)));
        history := history + [Snapshot()];
        r := Success;
      case Err(e) =>
        r := Failure(ErrorMessage(e, fallback));
    }

    /** Login: storage, then token, then user, then header; nothing on failure. */
    method Login(reply: Reply<SignInPayload>) returns (r: AuthResult)
      modifies this
      ensures Snapshot() == SignInStep(old(Snapshot()), reply, LoginFallback).state
      ensures r == SignInStep(old(Snapshot()), reply, LoginFallback).result
      ensures history == old(history) + SignInWrites(old(Snapshot()), reply)
    {
      r := SignIn(reply, LoginFallback);
    }

    /** Registration: as login, with its own fallback message. */
    method Register(reply: Reply<SignInPayload>) returns (r: AuthResult)
      modifies this
      ensures Snapshot() == SignInStep(old(Snapshot()), reply, RegisterFallback).state
      ensures r == SignInStep(old(Snapshot()), reply, RegisterFallback).result
      ensures history == old(history) + SignInWrites(old(Snapshot()), reply)
    {
      r := SignIn(reply, RegisterFallback);
    }

    /** Logout: remove the stored token, clear token and user, delete the header key. */
    method Logout()
      modifies this
      ensures Snapshot() == LogoutStep(old(Snapshot()))
      ensures history == old(history) + LogoutWrites(old(Snapshot()))
    {
      store := None;
      history := history + [Snapshot()];
      token := None;
      history := history + [Snapshot()];
      currentUser := None;
      history := history + [Snapshot()];
      header := None;
      history := history + [Snapshot()];
    }

    /** Profile update: the response data is merged into the current user. */
    method UpdateProfile(reply: Reply<Option<Profile>>) returns (r: AuthResult)
      modifies this
      ensures Snapshot() == UpdateProfileStep(old(Snapshot()), reply).state
      ensures r == UpdateProfileStep(old(Snapshot()), reply).result
      ensures history == old(history) + UpdateProfileWrites(old(Snapshot()), reply)
    {
      match reply
      case Ok(data) =>
        currentUser := Some(MergeProfile(currentUser, data));
        history := history + [Snapshot()];
        r := Success;
      case Err(e) =>
        r := Failure(ErrorMessage(e, UpdateProfileFallback));
    }

    /** Password change: reports the outcome and writes no slot (it modifies nothing). */
    method ChangePassword(reply: Reply<()>) returns (r: AuthResult)
      ensures r.Success? <==> reply.Ok?
      ensures reply.Err? ==> r == Failure(ErrorMessage(reply.error, ChangePasswordFallback))
    {
      match reply
      case Ok(_) =>
        r := Success;
      case Err(e) =>
        r := Failure(ErrorMessage(e, ChangePasswordFallback));
    }
  }

  /** Two logouts in a row leave the same state as one. */
  method LogoutTwice(s: Session)
    modifies s
    ensures s.Snapshot() == LogoutStep(old(s.Snapshot()))
  {
    s.Logout();
    ghost var once := s.Snapshot();
    s.Logout();
    LogoutIdempotent(old(s.Snapshot()));
    assert s.Snapshot() == LogoutStep(once);
  }

  /** A failed login followed by a failed password change leaves every slot as it was. */
  method FailedLoginIsNoOp(s: Session, e: HttpError) returns (login: AuthResult, change: AuthResult)
    modifies s
    ensures s.Snapshot() == old(s.Snapshot()) && s.history == old(s.history)
    ensures login == Failure(ErrorMessage(e, LoginFallback))
    ensures change == Failure(ErrorMessage(e, ChangePasswordFallback))
  {
    login := s.Login(Err(e));
    change := s.ChangePassword(Err(e));
  }
}
