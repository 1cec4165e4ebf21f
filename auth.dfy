/**
 * The client-side auth session: a fixed credential table, and the fields `isAuthenticated`
 * and `userRole` that `login` and `logout` update.
 */
module Auth {
  import opened Common

  datatype Credential = Credential(username: string, password: string, role: Role)

  /** The two accounts the client accepts. */
  const ValidUsers: seq<Credential> := [
    Credential("director", "1234", Director),
    Credential("finance", "1234", Finance)
  ]

  /** The test `login` applies to each entry: lowercased name and exact password. */
  predicate Matches(c: Credential, username: string, password: string)
  {
    c.username == ToLower(username) && c.password == password
  }

  /** The first entry of `users` that matches, as `Array.prototype.find` returns it. */
  function Lookup(users: seq<Credential>, username: string, password: string): (r: Option<Credential>)
    ensures r.None? <==> forall i :: 0 <= i < |users| ==> !Matches(users[i], username, password)
    ensures r.Some? ==> exists i :: && 0 <= i < |users| && users[i] == r.value
                                    && Matches(users[i], username, password)
                                    && forall j :: 0 <= j < i ==> !Matches(users[j], username, password)
  {
    if users == [] then None
    else if Matches(users[0], username, password) then Some(users[0])
    else
      var r := Lookup(users[1..], username, password);
      assert r.Some? ==> exists i :: && 0 <= i < |users[1..]| && users[1..][i] == r.value
                                     && Matches(users[1..][i], username, password)
                                     && forall j :: 0 <= j < i ==> !Matches(users[1..][j], username, password);
      r
  }

  /** The session as a value: the two fields of the store. */
  datatype Session = Session(isAuthenticated: bool, userRole: Option<Role>) {
    /** A consistent session: authenticated exactly when a role is held. */
    predicate Valid()
    {
      isAuthenticated <==> userRole.Some?
    }

    /** `canApprove`: the session may approve as `t` when it holds exactly that role. */
    predicate CanApprove(t: Role)
    {
      userRole == Some(t)
    }
  }

  const Initial: Session := Session(false, None)

  /** `login` on a session: a match sets both fields, anything else leaves the session alone. */
  function LoginStep(s: Session, username: string, password: string): (Session, bool)
  {
    match Lookup(ValidUsers, username, password)
    case Some(user) => (Session(true, Some(user.role)), true)
    case None => (s, false)
  }

  /** `logout` on a session. */
  function LogoutStep(s: Session): Session
  {
    Session(false, None)
  }

  /** One call a client makes on the auth store. */
  datatype AuthOp = LoginOp(username: string, password: string) | LogoutOp

  /** The session after one call. */
  function Step(s: Session, op: AuthOp): Session
  {
    match op
    case LoginOp(u, p) => LoginStep(s, u, p).0
    case LogoutOp => LogoutStep(s)
  }

  /** The session after a sequence of calls, made one after another. */
  function Run(s: Session, ops: seq<AuthOp>): Session
    decreases ops
  {
    if ops == [] then s else Run(Step(s, ops[0]), ops[1..])
  }

  // ----- Properties of the session machine -----

  /** Login succeeds exactly for the two names, in any letter case, with password "1234". */
  lemma LoginAcceptsExactly(s: Session, username: string, password: string)
    ensures LoginStep(s, username, password).1 <==>
              (ToLower(username) == "director" || ToLower(username) == "finance") && password == "1234"
  {
    assert ValidUsers[0] == Credential("director", "1234", Director);
    assert ValidUsers[1] == Credential("finance", "1234", Finance);
  }

  /** A successful login authenticates with the matched role, whose name is the lowercased user name. */
  lemma LoginSetsRole(s: Session, username: string, password: string)
    requires LoginStep(s, username, password).1
    ensures var s' := LoginStep(s, username, password).0;
      s'.isAuthenticated && s'.userRole.Some? && RoleName(s'.userRole.value) == ToLower(username)
  {
  }

  /** A failed login changes nothing, so an existing session survives it. */
  lemma FailedLoginKeepsSession(s: Session, username: string, password: string)
    requires !LoginStep(s, username, password).1
    ensures LoginStep(s, username, password).0 == s
  {
  }

  /** Logging out gives the initial session, and doing it again changes nothing. */
  lemma LogoutIdempotent(s: Session)
    ensures LogoutStep(s) == Initial
    ensures LogoutStep(LogoutStep(s)) == LogoutStep(s)
  {
  }

  /** A logged-out session may approve nothing. */
  lemma LoggedOutCannotApprove(s: Session, t: Role)
    ensures !LogoutStep(s).CanApprove(t)
  {
  }

  /** Each call keeps a consistent session consistent. */
  lemma StepKeepsValid(s: Session, op: AuthOp)
    requires s.Valid()
    ensures Step(s, op).Valid()
  {
  }

  /** From a consistent session, any sequence of calls ends in a consistent session. */
  lemma {:induction false} RunKeepsValid(s: Session, ops: seq<AuthOp>)
    requires s.Valid()
    ensures Run(s, ops).Valid()
    decreases ops
  {
    if ops != [] {
      StepKeepsValid(s, ops[0]);
      RunKeepsValid(Step(s, ops[0]), ops[1..]);
    }
  }

  /** Every reachable session satisfies `isAuthenticated <==> userRole != null`. */
  lemma ReachableSessionsValid(ops: seq<AuthOp>)
    ensures Run(Initial, ops).Valid()
  {
    RunKeepsValid(Initial, ops);
  }

  /** The auth store of `auth-store.ts`. */
  class AuthStore {
    var isAuthenticated: bool
    var userRole: Option<Role>

    function State(): Session
      reads this
    {
      Session(isAuthenticated, userRole)
    }

    constructor ()
      ensures State() == Initial
    {
      isAuthenticated := false;
      userRole := None;
    }

    /** The linear search `login` runs over the credential table. */
    static method FindUser(username: string, password: string) returns (user: Option<Credential>)
      ensures user == Lookup(ValidUsers, username, password)
    {
      var lowered := ToLower(username);
      var i := 0;
      while i < |ValidUsers|
        invariant 0 <= i <= |ValidUsers|
        invariant Lookup(ValidUsers, username, password) == Lookup(ValidUsers[i..], username, password)
      {
        var u := ValidUsers[i];
        if u.username == lowered && u.password == password {
          return Some(u);
        }
        assert ValidUsers[i..][1..] == ValidUsers[i + 1..];
        i := i + 1;
      }
      return None;
    }

    method Login(username: string, password: string) returns (ok: bool)
      modifies this
      ensures (State(), ok) == LoginStep(old(State()), username, password)
      ensures old(State()).Valid() ==> State().Valid()
    {
      var user := FindUser(username, password);
      if user.Some? {
        isAuthenticated, userRole := true, Some(user.value.role);
        return true;
      }
      return false;
    }

    method Logout()
      modifies this
      ensures State() == LogoutStep(old(State()))
      ensures State().Valid()
    {
      isAuthenticated, userRole := false, None;
    }

    /** Reads the current role; changes nothing. */
    method CanApprove(approvalType: Role) returns (b: bool)
      ensures b <==> State().CanApprove(approvalType)
      ensures userRole.None? ==> !b
    {
      b := userRole == Some(approvalType);
    }
  }
}
