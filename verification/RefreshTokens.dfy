/** Refresh-token rotation: login, refresh and logout over hashed token records. */
module RefreshTokens {
  import opened Wrappers

  datatype User = User(email: string, password: string, active: bool)

  /** A stored token. chain numbers the login it descends from; the table itself has no such column. */
  datatype Record = Record(user: nat, hash: string, expiresAt: int, revoked: bool, chain: nat)

  /** The two tables, the raw tokens generated so far, and the raw tokens exchanged for a new pair, in order. */
  datatype Auth = Auth(
    users: map<nat, User>,
    records: map<nat, Record>,
    nextId: nat,
    nextChain: nat,
    issued: set<string>,
    exchanged: seq<string>)

  datatype Error =
    | InvalidCredentials
    | Deactivated
    | InvalidOrRevoked
    | Expired
    | UserMissingOrInactive

  datatype Response = Granted(user: nat, refreshToken: string) | Refused(error: Error) | Done

  /** Library functions the service calls: token hashing, password checking, lower-casing, token lifetime. */
  datatype Env = Env(
    hash: string -> string,
    verify: (string, string) -> bool,
    lower: string -> string,
    lifetime: nat)

  ghost predicate CollisionFree(env: Env) {
    forall a, b :: env.hash(a) == env.hash(b) ==> a == b
  }

  datatype Operation =
    | Login(email: string, password: string, now: int, generated: string)
    | Refresh(token: string, now: int, later: int, generated: string)
    | Logout(token: string)
    | SetActive(user: nat, active: bool)
    | Prune(now: int)

  /** A generated token is one never generated before. */
  predicate Enabled(s: Auth, op: Operation) {
    match op
    case Login(_, _, _, g) => g !in s.issued
    case Refresh(_, _, _, g) => g !in s.issued
    case _ => true
  }

  ghost predicate UserOf(s: Auth, email: string, u: nat) {
    u in s.users && s.users[u].email == email
  }

  /** get_user_by_email and get_by_hash: the columns are unique, so at most one row matches. */
  ghost function FindUser(s: Auth, email: string): (u: Option<nat>)
    ensures u.Some? ==> UserOf(s, email, u.value)
    ensures u.None? ==> forall v :: !UserOf(s, email, v)
  {
    if exists v :: UserOf(s, email, v) then
      var v :| UserOf(s, email, v);
      Some(v)
    else None
  }

  predicate HasHash(s: Auth, hash: string, r: nat) {
    r in s.records && s.records[r].hash == hash
  }

  ghost function FindRecord(s: Auth, hash: string): (r: Option<nat>)
    ensures r.Some? ==> HasHash(s, hash, r.value)
    ensures r.None? ==> forall q :: !HasHash(s, hash, q)
  {
    if exists q :: HasHash(s, hash, q) then
      var q :| HasHash(s, hash, q);
      Some(q)
    else None
  }

  function Created(env: Env, s: Auth, user: nat, generated: string, now: int, chain: nat): Auth {
    s.(records := s.records[s.nextId := Record(user, env.hash(generated), now + env.lifetime, false, chain)],
       nextId := s.nextId + 1,
       issued := s.issued + {generated})
  }

  function Revoked(s: Auth, r: nat): Auth
    requires r in s.records
  {
    s.(records := s.records[r := s.records[r].(revoked := true)])
  }

  /** The service lowers the address, and the repository lowers it again. */
  ghost function DoLogin(env: Env, s: Auth, email: string, password: string, now: int, generated: string): (Auth, Response)
  {
    match FindUser(s, env.lower(env.lower(email)))
    case None => (s, Refused(InvalidCredentials))
    case Some(u) =>
      if !env.verify(password, s.users[u].password) then (s, Refused(InvalidCredentials))
      else if !s.users[u].active then (s, Refused(Deactivated))
      else (Created(env, s, u, generated, now, s.nextChain).(nextChain := s.nextChain + 1), Granted(u, generated))
  }

  ghost function DoRefresh(env: Env, s: Auth, token: string, now: int, later: int, generated: string): (Auth, Response)
  {
    match FindRecord(s, env.hash(token))
    case None => (s, Refused(InvalidOrRevoked))
    case Some(r) =>
      var record := s.records[r];
      if record.revoked then (s, Refused(InvalidOrRevoked))
      else if now >= record.expiresAt then (s, Refused(Expired))
      else if record.user !in s.users || !s.users[record.user].active then (s, Refused(UserMissingOrInactive))
      else (Created(env, Revoked(s, r), record.user, generated, later, record.chain)
              .(exchanged := s.exchanged + [token]),
            Granted(record.user, generated))
  }

  ghost function DoLogout(env: Env, s: Auth, token: string): Auth
  {
    match FindRecord(s, env.hash(token))
    case None => s
    case Some(r) => if s.records[r].revoked then s else Revoked(s, r)
  }

  ghost function Do(env: Env, s: Auth, op: Operation): (Auth, Response)
  {
    match op
    case Login(e, p, now, g) => DoLogin(env, s, e, p, now, g)
    case Refresh(t, now, later, g) => DoRefresh(env, s, t, now, later, g)
    case Logout(t) => (DoLogout(env, s, t), Done)
    case SetActive(u, a) => (if u in s.users then s.(users := s.users[u := s.users[u].(active := a)]) else s, Done)
    case Prune(now) => (s.(records := map r | r in s.records && s.records[r].expiresAt >= now :: s.records[r]), Done)
  }

  // ------------------------------------------------------------ invariant

  predicate Live(s: Auth, r: nat) { r in s.records && !s.records[r].revoked }

  /** A token that was generated and has no unrevoked record. */
  ghost predicate Spent(env: Env, s: Auth, token: string) {
    && token in s.issued
    && forall r :: Live(s, r) ==> s.records[r].hash != env.hash(token)
  }

  ghost predicate HashesKnown(env: Env, s: Auth) {
    && (forall r :: r in s.records ==> r < s.nextId && s.records[r].chain < s.nextChain)
    && (forall r :: r in s.records ==> exists t :: t in s.issued && s.records[r].hash == env.hash(t))
    && (forall r, q :: r in s.records && q in s.records && s.records[r].hash == s.records[q].hash ==> r == q)
  }

  ghost predicate OneLivePerChain(s: Auth) {
    forall r, q :: Live(s, r) && Live(s, q) && s.records[r].chain == s.records[q].chain ==> r == q
  }

  ghost predicate ExchangedOnce(env: Env, s: Auth) {
    && (forall i :: 0 <= i < |s.exchanged| ==> Spent(env, s, s.exchanged[i]))
    && (forall i, j :: 0 <= i < j < |s.exchanged| ==> s.exchanged[i] != s.exchanged[j])
  }

  ghost predicate Inv(env: Env, s: Auth) {
    HashesKnown(env, s) && OneLivePerChain(s) && ExchangedOnce(env, s)
  }

  /** A token yields a new pair exactly when its record is present, unrevoked and unexpired and its user active. */
  ghost predicate Exchangeable(env: Env, s: Auth, token: string, now: int) {
    exists r :: HasHash(s, env.hash(token), r) && !s.records[r].revoked && now < s.records[r].expiresAt
                && s.records[r].user in s.users && s.users[s.records[r].user].active
  }

  lemma RefreshGrantsIffExchangeable(env: Env, s: Auth, token: string, now: int, later: int, generated: string)
    requires Inv(env, s)
    ensures DoRefresh(env, s, token, now, later, generated).1.Granted? <==> Exchangeable(env, s, token, now)
    ensures !Exchangeable(env, s, token, now) ==> DoRefresh(env, s, token, now, later, generated).0 == s
  {
  }

  /** One user's address, as it is looked up. */
  ghost predicate UniqueAddress(env: Env, s: Auth, email: string) {
    forall v, w :: UserOf(s, env.lower(env.lower(email)), v) && UserOf(s, env.lower(env.lower(email)), w) ==> v == w
  }

  /** The address belongs to an active user and the password verifies against that user's hash. */
  ghost predicate MayLogIn(env: Env, s: Auth, email: string, password: string, u: nat) {
    && u in s.users && s.users[u].email == env.lower(env.lower(email))
    && env.verify(password, s.users[u].password) && s.users[u].active
  }

  /** The one new record: unrevoked, for this user, under the generated token's hash, good until then. */
  predicate AddsOneRecord(s: Auth, t: Auth, record: Record) {
    t.records == s.records[s.nextId := record] && t.nextId == s.nextId + 1 && !record.revoked
  }

  /** A login is granted exactly to an active user whose password verifies, under the lower-cased address; it then adds one
      live record for that user, in a new chain. A refused login changes nothing, and says that the account is deactivated
      exactly when only that is wrong. */
  lemma LoginGrantsIff(env: Env, s: Auth, email: string, password: string, now: int, generated: string)
    requires UniqueAddress(env, s, email)
    ensures var (t, response) := DoLogin(env, s, email, password, now, generated);
            && (response.Granted? <==> exists u :: MayLogIn(env, s, email, password, u))
            && (forall u :: MayLogIn(env, s, email, password, u) ==>
                  && response == Granted(u, generated)
                  && AddsOneRecord(s, t, Record(u, env.hash(generated), now + env.lifetime, false, s.nextChain))
                  && t.nextChain == s.nextChain + 1 && t.issued == s.issued + {generated}
                  && t.users == s.users && t.exchanged == s.exchanged)
            && (!response.Granted? ==> t == s)
            && (response == Refused(Deactivated) <==>
                  exists u :: u in s.users && s.users[u].email == env.lower(env.lower(email))
                              && env.verify(password, s.users[u].password) && !s.users[u].active)
            && (!response.Granted? ==> response in {Refused(Deactivated), Refused(InvalidCredentials)})
  {
    var found := FindUser(s, env.lower(env.lower(email)));
    if found.None? {
      forall u | u in s.users ensures s.users[u].email != env.lower(env.lower(email)) {
        assert !UserOf(s, env.lower(env.lower(email)), u);
      }
    } else {
      forall u | u in s.users && s.users[u].email == env.lower(env.lower(email)) ensures u == found.value {
        assert UserOf(s, env.lower(env.lower(email)), u);
      }
      var user := s.users[found.value];
      assert MayLogIn(env, s, email, password, found.value) <==> env.verify(password, user.password) && user.active;
    }
  }

  /** A granted refresh revokes the record it consumed and adds one live record in its place: for the same user, in the same
      chain, under the generated token's hash. */
  lemma RefreshEffect(env: Env, s: Auth, token: string, now: int, later: int, generated: string, r: nat)
    requires Inv(env, s) && HasHash(s, env.hash(token), r)
    ensures var (t, response) := DoRefresh(env, s, token, now, later, generated);
            var record := s.records[r];
            && (response.Granted? ==>
                  && response == Granted(record.user, generated) && !record.revoked && now < record.expiresAt
                  && t.records == s.records[r := record.(revoked := true)]
                                           [s.nextId := Record(record.user, env.hash(generated), later + env.lifetime, false, record.chain)]
                  && t.nextId == s.nextId + 1 && t.nextChain == s.nextChain && t.users == s.users
                  && t.issued == s.issued + {generated} && t.exchanged == s.exchanged + [token])
            && (response == Refused(InvalidOrRevoked) <==> record.revoked)
            && (response == Refused(Expired) <==> !record.revoked && now >= record.expiresAt)
  {
    assert FindRecord(s, env.hash(token)).Some?;
  }

  /** A logout revokes the token's record and touches nothing else; without such a record it does nothing. */
  lemma LogoutEffect(env: Env, s: Auth, token: string)
    requires Inv(env, s)
    ensures var t := DoLogout(env, s, token);
            && t == s.(records := t.records) && t.records.Keys == s.records.Keys
            && forall r :: r in s.records ==>
                 t.records[r] == if s.records[r].hash == env.hash(token) then s.records[r].(revoked := true) else s.records[r]
  {
    forall r | r in s.records && s.records[r].hash == env.hash(token)
      ensures FindRecord(s, env.hash(token)) == Some(r)
    {
      assert HasHash(s, env.hash(token), r);
    }
  }

  /** Pruning removes exactly the expired records. */
  lemma PruneEffect(env: Env, s: Auth, now: int, r: nat)
    ensures var t := Do(env, s, Prune(now)).0;
            && t == s.(records := t.records)
            && (r in t.records <==> r in s.records && !(s.records[r].expiresAt < now))
            && (r in t.records ==> t.records[r] == s.records[r])
  {
  }

  /** Setting the active flag of a user changes that flag alone. */
  lemma SetActiveEffect(env: Env, s: Auth, u: nat, active: bool, v: nat)
    ensures var t := Do(env, s, SetActive(u, active)).0;
            && t == s.(users := t.users) && (v in t.users <==> v in s.users)
            && (v in s.users ==> t.users[v] == if v == u then s.users[v].(active := active) else s.users[v])
  {
  }

  lemma CreatedKeepsHashes(env: Env, s: Auth, user: nat, generated: string, now: int, chain: nat)
    requires CollisionFree(env) && HashesKnown(env, s) && generated !in s.issued && chain < s.nextChain + 1
    ensures HashesKnown(env, Created(env, s, user, generated, now, chain).(nextChain := s.nextChain + 1))
    ensures chain < s.nextChain ==> HashesKnown(env, Created(env, s, user, generated, now, chain))
    ensures forall r :: r in s.records ==> s.records[r].hash != env.hash(generated)
  {
  }

  lemma LoginKeepsInv(env: Env, s: Auth, email: string, password: string, now: int, generated: string)
    requires CollisionFree(env) && Inv(env, s) && generated !in s.issued
    ensures Inv(env, DoLogin(env, s, email, password, now, generated).0)
  {
    var t := DoLogin(env, s, email, password, now, generated).0;
    if t != s {
      var u := FindUser(s, env.lower(env.lower(email))).value;
      CreatedKeepsHashes(env, s, u, generated, now, s.nextChain);
      forall i | 0 <= i < |t.exchanged| ensures Spent(env, t, t.exchanged[i]) {
        assert Spent(env, s, s.exchanged[i]);
        assert s.exchanged[i] != generated;
      }
      forall r | Live(t, r) ensures r == s.nextId || Live(s, r) {}
    }
  }

  lemma RevokedKeepsInv(env: Env, s: Auth, r: nat)
    requires Inv(env, s) && r in s.records
    ensures Inv(env, Revoked(s, r))
  {
    var t := Revoked(s, r);
    forall q | Live(t, q) ensures Live(s, q) && q != r && t.records[q] == s.records[q] {}
    forall i | 0 <= i < |t.exchanged| ensures Spent(env, t, t.exchanged[i]) {
      assert Spent(env, s, s.exchanged[i]);
    }
    forall q | q in t.records ensures exists k :: k in t.issued && t.records[q].hash == env.hash(k) {
      var k :| k in s.issued && s.records[q].hash == env.hash(k);
    }
  }

  lemma RefreshKeepsInv(env: Env, s: Auth, token: string, now: int, later: int, generated: string)
    requires CollisionFree(env) && Inv(env, s) && generated !in s.issued
    ensures Inv(env, DoRefresh(env, s, token, now, later, generated).0)
  {
    var t := DoRefresh(env, s, token, now, later, generated).0;
    if t != s {
      var r := FindRecord(s, env.hash(token)).value;
      var record := s.records[r];
      var m := Revoked(s, r);
      RevokedKeepsInv(env, s, r);
      CreatedKeepsHashes(env, m, record.user, generated, later, record.chain);
      RefreshShape(env, s, r, token, now, later, generated);
      ChainHandedOver(s, r, t);
      TokenSpent(env, s, r, token, generated, t);
    }
  }

  lemma RefreshShape(env: Env, s: Auth, r: nat, token: string, now: int, later: int, generated: string)
    requires FindRecord(s, env.hash(token)) == Some(r) && HashesKnown(env, s)
    requires DoRefresh(env, s, token, now, later, generated).0 != s
    ensures Live(s, r)
    ensures var t := DoRefresh(env, s, token, now, later, generated).0;
            && t == Created(env, Revoked(s, r), s.records[r].user, generated, later, s.records[r].chain)
                      .(exchanged := s.exchanged + [token])
            && t.records.Keys == s.records.Keys + {s.nextId} && r != s.nextId
            && (forall q :: q in s.records && q != r ==> t.records[q] == s.records[q])
            && t.records[r].revoked
            && t.records[s.nextId] == Record(s.records[r].user, env.hash(generated), later + env.lifetime,
                                             false, s.records[r].chain)
  {
  }

  /** The consumed record was its chain's only live one, so the new record takes its place. */
  lemma ChainHandedOver(s: Auth, r: nat, t: Auth)
    requires OneLivePerChain(s) && Live(s, r)
    requires t.records.Keys == s.records.Keys + {s.nextId}
    requires forall q :: q in s.records && q != r ==> t.records[q] == s.records[q]
    requires t.records[r].revoked && t.records[s.nextId].chain == s.records[r].chain
    ensures OneLivePerChain(t)
  {
    forall p, q | Live(t, p) && Live(t, q) && t.records[p].chain == t.records[q].chain ensures p == q {
      assert p != s.nextId ==> Live(s, p) && p != r;
      assert q != s.nextId ==> Live(s, q) && q != r;
    }
  }

  lemma TokenSpent(env: Env, s: Auth, r: nat, token: string, generated: string, t: Auth)
    requires CollisionFree(env) && Inv(env, s) && Live(s, r) && s.records[r].hash == env.hash(token)
    requires generated !in s.issued && t.issued == s.issued + {generated}
    requires t.exchanged == s.exchanged + [token]
    requires t.records.Keys == s.records.Keys + {s.nextId}
    requires forall q :: q in s.records && q != r ==> t.records[q] == s.records[q]
    requires t.records[r].revoked && t.records[s.nextId].hash == env.hash(generated)
    ensures ExchangedOnce(env, t)
  {
    var k :| k in s.issued && s.records[r].hash == env.hash(k);
    assert k == token;
    forall q | Live(t, q) ensures t.records[q].hash != env.hash(token) {
      if q != s.nextId { assert Live(s, q) && q != r; }
    }
    forall i | 0 <= i < |s.exchanged| ensures Spent(env, t, s.exchanged[i]) && s.exchanged[i] != token {
      assert Spent(env, s, s.exchanged[i]);
      forall q | Live(t, q) ensures t.records[q].hash != env.hash(s.exchanged[i]) {
        if q != s.nextId { assert Live(s, q); }
      }
    }
  }

  lemma PruneKeepsInv(env: Env, s: Auth, now: int)
    requires Inv(env, s)
    ensures Inv(env, Do(env, s, Prune(now)).0)
  {
    var t := Do(env, s, Prune(now)).0;
    forall q | Live(t, q) ensures Live(s, q) {}
    forall i | 0 <= i < |t.exchanged| ensures Spent(env, t, t.exchanged[i]) {
      assert Spent(env, s, s.exchanged[i]);
    }
  }

  lemma OperationKeepsInv(env: Env, s: Auth, op: Operation)
    requires CollisionFree(env) && Inv(env, s) && Enabled(s, op)
    ensures Inv(env, Do(env, s, op).0)
  {
    match op
    case Login(e, p, now, g) => LoginKeepsInv(env, s, e, p, now, g);
    case Refresh(t, now, later, g) => RefreshKeepsInv(env, s, t, now, later, g);
    case Logout(t) =>
      if FindRecord(s, env.hash(t)).Some? { RevokedKeepsInv(env, s, FindRecord(s, env.hash(t)).value); }
    case SetActive(u, a) =>
      forall i | 0 <= i < |s.exchanged| ensures Spent(env, Do(env, s, op).0, s.exchanged[i]) {
        assert Spent(env, s, s.exchanged[i]);
      }
    case Prune(now) => PruneKeepsInv(env, s, now);
  }

  // ------------------------------------------------------------ runs

  ghost predicate Valid(env: Env, s: Auth, ops: seq<Operation>)
    decreases |ops|
  {
    ops == [] || (Enabled(s, ops[0]) && Valid(env, Do(env, s, ops[0]).0, ops[1..]))
  }

  ghost function Run(env: Env, s: Auth, ops: seq<Operation>): Auth
    decreases |ops|
  {
    if ops == [] then s else Run(env, Do(env, s, ops[0]).0, ops[1..])
  }

  function Initial(users: map<nat, User>): Auth {
    Auth(users, map[], 0, 0, {}, [])
  }

  lemma {:induction false} RunKeepsInv(env: Env, s: Auth, ops: seq<Operation>)
    requires CollisionFree(env) && Inv(env, s) && Valid(env, s, ops)
    ensures Inv(env, Run(env, s, ops))
    decreases |ops|
  {
    if ops != [] {
      OperationKeepsInv(env, s, ops[0]);
      RunKeepsInv(env, Do(env, s, ops[0]).0, ops[1..]);
    }
  }

  /** In every run each login chain has at most one unrevoked record, and no raw token is exchanged twice. */
  lemma RotationIsSafe(env: Env, users: map<nat, User>, ops: seq<Operation>)
    requires CollisionFree(env) && Valid(env, Initial(users), ops)
    ensures var s := Run(env, Initial(users), ops);
            && (forall r, q :: Live(s, r) && Live(s, q) && s.records[r].chain == s.records[q].chain ==> r == q)
            && (forall i, j :: 0 <= i < j < |s.exchanged| ==> s.exchanged[i] != s.exchanged[j])
  {
    RunKeepsInv(env, Initial(users), ops);
  }

  function GeneratedBy(op: Operation): Option<string> {
    match op
    case Login(_, _, _, g) => Some(g)
    case Refresh(_, _, _, g) => Some(g)
    case _ => None
  }

  /** An operation revives no record and adds at most one, for the token it generated. */
  lemma RecordsAfter(env: Env, s: Auth, op: Operation, q: nat)
    requires HashesKnown(env, s) && q in Do(env, s, op).0.records
    ensures var t := Do(env, s, op).0;
            || (q in s.records && t.records[q].hash == s.records[q].hash && (Live(t, q) ==> Live(s, q)))
            || (GeneratedBy(op).Some? && t.records[q].hash == env.hash(GeneratedBy(op).value))
  {
  }

  lemma SpentStaysSpent(env: Env, s: Auth, op: Operation, token: string)
    requires CollisionFree(env) && Inv(env, s) && Enabled(s, op) && Spent(env, s, token)
    ensures Spent(env, Do(env, s, op).0, token)
  {
    var t := Do(env, s, op).0;
    forall q | Live(t, q) ensures t.records[q].hash != env.hash(token) {
      RecordsAfter(env, s, op, q);
    }
  }

  /** Once spent, by exchange or by logout, a token is refused for the rest of the run. */
  lemma {:induction false} SpentForever(env: Env, s: Auth, ops: seq<Operation>, token: string,
                                        now: int, later: int, generated: string)
    requires CollisionFree(env) && Inv(env, s) && Valid(env, s, ops) && Spent(env, s, token)
    ensures var t := Run(env, s, ops);
            DoRefresh(env, t, token, now, later, generated) == (t, Refused(InvalidOrRevoked))
    decreases |ops|
  {
    if ops == [] {
      var found := FindRecord(s, env.hash(token));
      if found.Some? { assert !Live(s, found.value); }
    } else {
      OperationKeepsInv(env, s, ops[0]);
      SpentStaysSpent(env, s, ops[0], token);
      SpentForever(env, Do(env, s, ops[0]).0, ops[1..], token, now, later, generated);
    }
  }

  /** Logging out spends the token, and so does exchanging it. */
  lemma LogoutSpends(env: Env, s: Auth, token: string)
    requires Inv(env, s) && token in s.issued
    ensures Spent(env, DoLogout(env, s, token), token)
  {
    var t := DoLogout(env, s, token);
    forall q | Live(t, q) ensures t.records[q].hash != env.hash(token) {
      assert Live(s, q);
      if s.records[q].hash == env.hash(token) { assert HasHash(s, env.hash(token), q); }
    }
  }

  lemma ExchangeSpends(env: Env, s: Auth, token: string, now: int, later: int, generated: string)
    requires CollisionFree(env) && Inv(env, s) && generated !in s.issued
    requires DoRefresh(env, s, token, now, later, generated).1.Granted?
    ensures Spent(env, DoRefresh(env, s, token, now, later, generated).0, token)
  {
    RefreshKeepsInv(env, s, token, now, later, generated);
    var t := DoRefresh(env, s, token, now, later, generated).0;
    assert t.exchanged[|s.exchanged|] == token;
  }

  // ------------------------------------------------------------ the service

  class AuthService {
    const env: Env
    var state: Auth

    constructor (env: Env, users: map<nat, User>)
      ensures this.env == env && state == Initial(users)
    {
      this.env := env;
      state := Initial(users);
    }

    /** The repository lowers the address it is given. */
    method UserByEmail(email: string) returns (u: Option<nat>)
      requires forall v, w :: UserOf(state, env.lower(email), v) && UserOf(state, env.lower(email), w) ==> v == w
      ensures u == FindUser(state, env.lower(email))
    {
      if v :| v in state.users && state.users[v].email == env.lower(email) {
        assert UserOf(state, env.lower(email), v);
        u := Some(v);
      } else {
        u := None;
      }
    }

    method RecordByHash(hash: string) returns (r: Option<nat>)
      requires forall p, q :: HasHash(state, hash, p) && HasHash(state, hash, q) ==> p == q
      ensures r == FindRecord(state, hash)
    {
      if q :| q in state.records && state.records[q].hash == hash {
        assert HasHash(state, hash, q);
        r := Some(q);
      } else {
        r := None;
      }
    }

    method LogIn(email: string, password: string, now: int, generated: string) returns (result: Response)
      requires UniqueAddress(env, state, email)
      modifies this
      ensures (state, result) == DoLogin(env, old(state), email, password, now, generated)
      ensures result.Granted? <==> exists u :: MayLogIn(env, old(state), email, password, u)
      ensures result.Granted? ==>
                && MayLogIn(env, old(state), email, password, result.user) && result.refreshToken == generated
                && AddsOneRecord(old(state), state, Record(result.user, env.hash(generated), now + env.lifetime, false,
                                                           old(state).nextChain))
      ensures !result.Granted? ==> state == old(state)
    {
      LoginGrantsIff(env, state, email, password, now, generated);
      var found := UserByEmail(env.lower(email));
      if found.None? || !env.verify(password, state.users[found.value].password) {
        return Refused(InvalidCredentials);
      }
      var u := found.value;
      if !state.users[u].active {
        return Refused(Deactivated);
      }
      state := Created(env, state, u, generated, now, state.nextChain);
      state := state.(nextChain := state.nextChain + 1);
      return Granted(u, generated);
    }

    method RefreshPair(token: string, now: int, later: int, generated: string) returns (result: Response)
      requires Inv(env, state)
      modifies this
      ensures (state, result) == DoRefresh(env, old(state), token, now, later, generated)
      ensures result.Granted? <==> Exchangeable(env, old(state), token, now)
    {
      RefreshGrantsIffExchangeable(env, state, token, now, later, generated);
      var found := RecordByHash(env.hash(token));
      if found.None? || state.records[found.value].revoked {
        return Refused(InvalidOrRevoked);
      }
      var record := state.records[found.value];
      if now >= record.expiresAt {
        return Refused(Expired);
      }
      if record.user !in state.users || !state.users[record.user].active {
        return Refused(UserMissingOrInactive);
      }
      state := Revoked(state, found.value);
      state := Created(env, state, record.user, generated, later, record.chain);
      state := state.(exchanged := state.exchanged + [token]);
      return Granted(record.user, generated);
    }

    method RevokeToken(token: string)
      requires Inv(env, state)
      modifies this
      ensures state == DoLogout(env, old(state), token)
    {
      var found := RecordByHash(env.hash(token));
      if found.Some? && !state.records[found.value].revoked {
        state := Revoked(state, found.value);
      }
    }
  }
}
