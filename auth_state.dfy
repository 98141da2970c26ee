/** The authentication session as a value: the store's record, the browser
    storage it mirrors its token into, the derived flags, and each operation
    as a transition from one session to the next. The class in AuthStore
    runs these transitions in place; here they are stated and reasoned about. */
module AuthState {
  import opened Wrappers
  import opened AuthTypes

  /** The storage key under which the bearer token is persisted. */
  const TokenKey: string := "pkkmb_token"

  /** The store's record together with the browser storage it writes to. */
  datatype Session = Session(
    token: Option<string>,
    user: Option<AuthUser>,
    initialized: bool,
    storage: map<string, string>)

  /** What `localStorage.getItem` returns for the token key. */
  function Persisted(storage: map<string, string>): Option<string>
  {
    if TokenKey in storage then Some(storage[TokenKey]) else None
  }

  /** JavaScript truthiness of the token: both `null` and `""` mean "no token". */
  predicate HasToken(token: Option<string>)
  {
    token.Some? && token.value != ""
  }

  /** `Boolean(state.token && state.user)`. */
  predicate IsLoggedIn(s: Session)
  {
    HasToken(s.token) && s.user.Some?
  }

  /** `state.user?.role === 'admin'`. */
  predicate IsAdmin(s: Session)
  {
    s.user.Some? && s.user.value.role == Admin
  }

  /** `state.user?.role === 'student'`. */
  predicate IsStudent(s: Session)
  {
    s.user.Some? && s.user.value.role == Student
  }

  /** Storage outside the token key is the same in both maps. */
  predicate OtherKeysUnchanged(before: map<string, string>, after: map<string, string>)
  {
    before - {TokenKey} == after - {TokenKey}
  }

  /** The whole-object invariant: the persisted token is the in-memory token,
      and a user is only ever held together with a token. */
  predicate Consistent(s: Session)
  {
    Persisted(s.storage) == s.token && (s.user.Some? ==> s.token.Some?)
  }

  /** The record created when the module is loaded, from whatever storage holds. */
  function Initial(storage: map<string, string>): (s: Session)
    ensures Consistent(s)
    ensures s.token == Persisted(storage) && s.user == None && !s.initialized
    ensures s.storage == storage
    ensures !IsLoggedIn(s) && !IsAdmin(s) && !IsStudent(s)
  {
    Session(Persisted(storage), None, false, storage)
  }

  /** `setAuth`: adopt the response's token and user and persist the token. */
  function SetAuth(s: Session, payload: AuthResponse): (r: Session)
    ensures Consistent(r)
    ensures r.token == Some(payload.token) && r.user == Some(payload.user)
    ensures Persisted(r.storage) == Some(payload.token)
    ensures OtherKeysUnchanged(s.storage, r.storage)
    ensures r.initialized == s.initialized
    ensures IsLoggedIn(r) <==> payload.token != ""
    ensures IsAdmin(r) <==> payload.user.role == Admin
    ensures IsStudent(r) <==> payload.user.role == Student
  {
    var storage := s.storage[TokenKey := payload.token];
    assert storage - {TokenKey} == s.storage - {TokenKey};
    Session(Some(payload.token), Some(payload.user), s.initialized, storage)
  }

  /** `clearAuth`: drop token and user and remove the persisted token. */
  function ClearAuth(s: Session): (r: Session)
    ensures Consistent(r)
    ensures r.token == None && r.user == None && Persisted(r.storage) == None
    ensures OtherKeysUnchanged(s.storage, r.storage)
    ensures r.initialized == s.initialized
    ensures !IsLoggedIn(r) && !IsAdmin(r) && !IsStudent(r)
  {
    var storage := s.storage - {TokenKey};
    assert storage - {TokenKey} == s.storage - {TokenKey};
    Session(None, None, s.initialized, storage)
  }

  /** The request the backend sees: `GET /api/auth/me` with a bearer token,
      `POST /api/auth/login` and `POST /api/auth/register` with a JSON body. */
  datatype Request =
    | Me(bearer: string)
    | Login(email: string, password: string)
    | Register(fullName: string, email: string, password: string)

  /** The request `init` sends from a session: none without a token. */
  function InitRequest(s: Session): (req: Option<Request>)
    ensures req.Some? <==> HasToken(s.token)
    ensures req.Some? ==> req.value.Me? && Some(req.value.bearer) == s.token
  {
    if HasToken(s.token) then Some(Me(s.token.value)) else None
  }

  /** `init`: restore the session from the stored token. `me` is what the
      request sent by InitRequest produced; without a token it is never consulted. */
  function Init(s: Session, me: Outcome<AuthUser>): (r: Session)
    ensures r.initialized
    ensures !HasToken(s.token) ==> r == s.(initialized := true)
    ensures HasToken(s.token) && me.Ok? ==> r == s.(user := Some(me.value), initialized := true)
    ensures HasToken(s.token) && me.Err? ==> r == ClearAuth(s).(initialized := true)
    ensures Consistent(s) ==> Consistent(r)
    ensures IsLoggedIn(r) <==> HasToken(s.token) && me.Ok?
  {
    if !HasToken(s.token) then
      s.(initialized := true)
    else
      match me
      case Ok(u) => s.(user := Some(u), initialized := true)
      case Err(_) => ClearAuth(s).(initialized := true)
  }

  /** What `login` and `registerStudent` do once their request has answered:
      on success `setAuth` and hand back the response's user; on failure the
      error propagates before anything is changed. */
  function Authenticate(s: Session, reply: Outcome<AuthResponse>): (r: (Session, Outcome<AuthUser>))
    ensures reply.Err? ==> r.0 == s && r.1 == Err(reply.message)
    ensures reply.Ok? ==> r.0 == SetAuth(s, reply.value) && r.1 == Ok(reply.value.user)
    ensures r.1.Ok? ==> r.0.user == Some(r.1.value) && Persisted(r.0.storage) == r.0.token
    ensures Consistent(s) ==> Consistent(r.0)
    ensures r.0.initialized == s.initialized
  {
    match reply
    case Ok(payload) => (SetAuth(s, payload), Ok(payload.user))
    case Err(message) => (s, Err(message))
  }

  /** The role flags never hold together, and neither holds without a user. */
  lemma RoleFlagsExclusive(s: Session)
    ensures !(IsAdmin(s) && IsStudent(s))
    ensures s.user.None? ==> !IsAdmin(s) && !IsStudent(s) && !IsLoggedIn(s)
    ensures s.user.Some? ==> IsAdmin(s) || IsStudent(s)
  {
  }

  /** In a consistent session, being logged in means the token is persisted. */
  lemma LoggedInIsPersisted(s: Session)
    requires Consistent(s)
    ensures IsLoggedIn(s) ==> HasToken(Persisted(s.storage))
  {
  }

  /** The operations the store exports, each with the network outcome it meets. */
  datatype Op =
    | ClearAuthOp
    | InitOp(me: Outcome<AuthUser>)
    | LoginOp(email: string, password: string, reply: Outcome<AuthResponse>)
    | RegisterStudentOp(fullName: string, email: string, password: string, reply: Outcome<AuthResponse>)

  /** One exported operation applied to a session. */
  function Step(s: Session, op: Op): Session
  {
    match op
    case ClearAuthOp => ClearAuth(s)
    case InitOp(me) => Init(s, me)
    case LoginOp(_, _, reply) => Authenticate(s, reply).0
    case RegisterStudentOp(_, _, _, reply) => Authenticate(s, reply).0
  }

  /** A sequence of operations applied one after another. */
  function Run(s: Session, ops: seq<Op>): Session
    decreases |ops|
  {
    if ops == [] then s else Run(Step(s, ops[0]), ops[1..])
  }

  /** Running two sequences in turn is running their concatenation. */
  lemma {:induction false} RunAppend(s: Session, a: seq<Op>, b: seq<Op>)
    ensures Run(s, a + b) == Run(Run(s, a), b)
    decreases |a|
  {
    if a == [] {
      assert a + b == b;
    } else {
      assert (a + b)[1..] == a[1..] + b;
      RunAppend(Step(s, a[0]), a[1..], b);
    }
  }

  /** Every operation keeps storage and the in-memory token in step, and never
      holds a user without a token. */
  lemma {:induction false} RunPreservesConsistent(s: Session, ops: seq<Op>)
    requires Consistent(s)
    ensures Consistent(Run(s, ops))
    decreases |ops|
  {
    if ops != [] {
      RunPreservesConsistent(Step(s, ops[0]), ops[1..]);
    }
  }

  /** Every state the store can reach from start-up is consistent. */
  lemma ReachableConsistent(storage: map<string, string>, ops: seq<Op>)
    ensures Consistent(Run(Initial(storage), ops))
  {
    RunPreservesConsistent(Initial(storage), ops);
  }

  /** No operation resets `initialized` to false. */
  lemma {:induction false} RunKeepsInitialized(s: Session, ops: seq<Op>)
    requires s.initialized
    ensures Run(s, ops).initialized
    decreases |ops|
  {
    if ops != [] {
      RunKeepsInitialized(Step(s, ops[0]), ops[1..]);
    }
  }

  /** Once `init` has run, whatever it met, the store stays initialized. */
  lemma InitializedAfterInit(s: Session, ops: seq<Op>, i: nat)
    requires i < |ops| && ops[i].InitOp?
    ensures Run(s, ops).initialized
  {
    var before, rest := ops[..i], ops[i + 1..];
    assert ops == before + ([ops[i]] + rest);
    RunAppend(s, before, [ops[i]] + rest);
    var mid := Run(s, before);
    assert ([ops[i]] + rest)[1..] == rest;
    assert Run(mid, [ops[i]] + rest) == Run(Step(mid, ops[i]), rest);
    RunKeepsInitialized(Step(mid, ops[i]), rest);
  }

  /** Failed logins and registrations, however many, leave the session
      exactly as it was. */
  lemma {:induction false} FailedSignInLeavesSession(s: Session, ops: seq<Op>)
    requires forall k :: 0 <= k < |ops| ==> (ops[k].LoginOp? || ops[k].RegisterStudentOp?) && ops[k].reply.Err?
    ensures Run(s, ops) == s
    decreases |ops|
  {
    if ops != [] {
      FailedSignInLeavesSession(Authenticate(s, ops[0].reply).0, ops[1..]);
    }
  }
}
