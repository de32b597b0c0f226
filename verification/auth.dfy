/**
  The session state of src/context/AuthContext.tsx: the boolean `user` together with the one
  persisted key `isAuthenticated`, whose stored value (or absence) is `stored`. The awaited
  login call is an input: the result `fetchApiData('login', payload)` settles with.
*/
module Auth {

  import opened Wrappers
  import opened Json
  import Api

  /** The single storage key; the model keeps only its value. */
  const StorageKey: string := "isAuthenticated"
  const StoredTrue: string := "true"

  /** The one credential pair accepted by the local check. */
  const DemoUsername: string := "trial"
  const DemoPassword: string := "assignment123"

  /** Fixed login fields the remote service requires. */
  const DemoEmail: string := "trial@example.com"
  const DemoPhone: string := "1234567890"
  const DemoInputCode: int := 0

  /** The message of every error `signIn` throws. */
  const InvalidCredentials: string := "Invalid credentials"

  datatype Session = Session(user: bool, stored: Option<string>)

  /** The initial state: `user` is read from storage, which is left as it is. */
  function Init(stored: Option<string>): (s: Session)
    ensures s.stored == stored
    ensures s.user <==> stored == Some(StoredTrue)
  {
    Session(stored == Some(StoredTrue), stored)
  }

  /** The flag agrees with its persisted mirror. */
  predicate Consistent(s: Session)
  {
    s.user <==> s.stored == Some(StoredTrue)
  }

  /** A state survives a restart exactly when it is consistent: re-reading storage gives it back. */
  lemma RestartRoundTrip(s: Session)
    ensures Consistent(s) <==> Init(s.stored) == s
    ensures Consistent(Init(s.stored))
  {
  }

  /** The body of the login request: the caller's username and password plus fixed fields. */
  function LoginPayload(username: string, password: string): (v: Value)
    ensures v.Obj?
    ensures v.fields.Keys == {"username", "email", "password", "phone_number", "input_code"}
  {
    Obj(map[
      "username" := Str(username),
      "email" := Str(DemoEmail),
      "password" := Str(password),
      "phone_number" := Str(DemoPhone),
      "input_code" := Num(DemoInputCode)])
  }

  /** Only `username` and `password` depend on the caller: two payloads agree exactly when
      the credentials do, and the other three fields are the same for every caller. */
  lemma PayloadDependsOnlyOnCredentials(u1: string, p1: string, u2: string, p2: string)
    ensures LoginPayload(u1, p1) == LoginPayload(u2, p2) <==> u1 == u2 && p1 == p2
    ensures LoginPayload(u1, p1).fields["username"] == Str(u1)
    ensures LoginPayload(u1, p1).fields["password"] == Str(p1)
    ensures forall k :: k in {"email", "phone_number", "input_code"} ==>
              LoginPayload(u1, p1).fields[k] == LoginPayload(u2, p2).fields[k]
  {
  }

  /** How `signIn` settled, the state afterwards, and the data passed to
      `fetchApiData('login', …)` if the login call was made. */
  datatype SignInResult = SignInResult(session: Session, outcome: Outcome<string>, loginData: Option<Value>)

  /** `signIn(username, password)`, given the result the login call settles with. */
  function SignIn(s: Session, username: string, password: string, login: Result<Value, Api.ApiError>): (r: SignInResult)
    ensures r.loginData.Some? <==> username == DemoUsername && password == DemoPassword
    ensures r.loginData.Some? ==> r.loginData.value == LoginPayload(username, password)
    ensures r.outcome.Pass? <==> r.loginData.Some? && login.Ok?
    ensures r.outcome.Pass? ==> r.session == Session(true, Some(StoredTrue))
    ensures r.outcome.Fail? ==> r.outcome.error == InvalidCredentials && r.session == s
  {
    if username == DemoUsername && password == DemoPassword then
      var payload := LoginPayload(username, password);
      match login
      case Ok(_) => SignInResult(Session(true, Some(StoredTrue)), Pass, Some(payload))
      case Err(_) => SignInResult(s, Fail(InvalidCredentials), Some(payload))
    else
      SignInResult(s, Fail(InvalidCredentials), None)
  }

  /** The login call `signIn` makes is a POST of the payload to the login path. */
  lemma SignInPostsPayload(s: Session, username: string, password: string, login: Result<Value, Api.ApiError>)
    requires SignIn(s, username, password, login).loginData.Some?
    ensures Api.Route(Api.LoginEndpoint, SignIn(s, username, password, login).loginData)
            == Api.Request(Api.Post, "/api/v1/login", Some(LoginPayload(DemoUsername, DemoPassword)))
  {
  }

  /** `signOut`: clear the flag and remove the key. */
  function SignOut(s: Session): (t: Session)
    ensures !t.user && t.stored == None
  {
    Session(false, None)
  }

  /** Signing out twice is signing out once, and a restart after it stays signed out. */
  lemma SignOutIdempotent(s: Session)
    ensures SignOut(SignOut(s)) == SignOut(s)
    ensures !Init(SignOut(s).stored).user
  {
  }

  /** A restart after a successful sign-in comes back signed in. */
  lemma RestartAfterSignIn(s: Session, username: string, password: string, login: Result<Value, Api.ApiError>)
    requires SignIn(s, username, password, login).outcome.Pass?
    ensures Init(SignIn(s, username, password, login).session.stored).user
  {
  }

  /** Sign-in through the retrying client: the accepted pair with n retryable login failures
      before a success signs in when n <= 3, and otherwise fails with the usual message,
      leaving the session as it was. */
  lemma SignInThroughRetries(s: Session, net: Api.Transport, lib: Api.LibraryCheck, n: nat)
    requires forall k :: 0 <= k < n ==> Api.Retryable(net(k), lib)
    requires net(n).Ok?
    ensures var login := Api.FetchApiData(Api.LoginEndpoint, Some(LoginPayload(DemoUsername, DemoPassword)), net, lib).result;
            var r := SignIn(s, DemoUsername, DemoPassword, login);
            && (r.outcome.Pass? <==> n <= Api.Retries)
            && (n > Api.Retries ==> r.outcome == Fail(InvalidCredentials) && r.session == s)
  {
  }

  /* ---------------- Sessions over time ---------------- */

  /** A user action on the session. */
  datatype Action =
    | SignInAction(username: string, password: string, login: Result<Value, Api.ApiError>)
    | SignOutAction

  function Step(s: Session, a: Action): Session
  {
    match a
    case SignInAction(u, p, login) => SignIn(s, u, p, login).session
    case SignOutAction => SignOut(s)
  }

  /** The state after performing `actions` in order. */
  function Replay(s: Session, actions: seq<Action>): Session
  {
    if actions == [] then s else Step(Replay(s, actions[..|actions| - 1]), actions[|actions| - 1])
  }

  /** The verdict of the latest action that decides the session: a sign-out (false) or a
      sign-in with the accepted pair whose login call succeeded (true). Rejected sign-ins
      decide nothing. */
  function LastDecisive(actions: seq<Action>): Option<bool>
  {
    if actions == [] then None
    else
      match actions[|actions| - 1]
      case SignOutAction => Some(false)
      case SignInAction(u, p, login) =>
        if u == DemoUsername && p == DemoPassword && login.Ok? then Some(true)
        else LastDecisive(actions[..|actions| - 1])
  }

  /** Signed in exactly when the latest deciding action was a successful sign-in, or, when
      no action decided anything, when storage said so at start-up; and the flag always
      agrees with storage, so a restart at any point restores the same session. */
  lemma {:induction false} ReplayInvariant(stored: Option<string>, actions: seq<Action>)
    ensures Replay(Init(stored), actions).user
            <==> LastDecisive(actions) == Some(true) || (LastDecisive(actions) == None && stored == Some(StoredTrue))
    ensures Consistent(Replay(Init(stored), actions))
    ensures Init(Replay(Init(stored), actions).stored) == Replay(Init(stored), actions)
  {
    if actions != [] {
      ReplayInvariant(stored, actions[..|actions| - 1]);
    }
  }
}
