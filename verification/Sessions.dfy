/** Login sessions: rows in the database, with a cache in front that may lose entries. */
module Sessions {
  import opened Options

  type Token = string
  type UserId = string
  type Time = int

  const SECOND: int := 1_000_000
  const DAY: int := 86_400 * SECOND
  const SESSION_TTL: int := 30 * DAY
  const RETENTION: int := 90 * DAY

  datatype Session = Session(user: UserId, role: string, csrf: string, mfa: bool, expires: Time)

  datatype Row = Row(user: UserId, created: Time, expires: Time, revoked: bool)

  datatype User = User(active: bool, role: string)

  /** The cache and the two tables. Tokens stand for their hashes, which are injective. */
  datatype Db = Db(cache: map<Token, Session>, rows: map<Token, Row>, users: map<UserId, User>)

  /** What a client sends. `unsafe` is a method other than GET, HEAD and OPTIONS; `cacheUp` says
      whether the cache answers reads during the request and `writes` whether it takes writes. */
  datatype Request = Request(
    token: Option<Token>, csrf: Option<string>, header: string, unsafe: bool, cacheUp: bool, writes: bool)

  datatype Outcome =
    | Unauthorized
    | Blocked
    | Mismatch
    | Served(session: Session)

  predicate Live(db: Db, k: Token, now: Time)
  {
    && k in db.rows && !db.rows[k].revoked && db.rows[k].expires > now
    && db.rows[k].user in db.users && db.users[db.rows[k].user].active
  }

  /** `readSession`: the cached session while it lasts, else one rebuilt from the row. */
  function ReadSession(db: Db, r: Request, now: Time): (Db, Option<Session>)
  {
    if r.token.None? || !r.cacheUp then (db, None)
    else
      var k := r.token.value;
      if k in db.cache && now < db.cache[k].expires then (db, Some(db.cache[k]))
      else
        var db' := if r.writes then db.(cache := db.cache - {k}) else db;
        if r.csrf.None? || r.csrf.value == "" || !Live(db', k, now) || !r.writes then (db', None)
        else
          var row := db'.rows[k];
          var s := Session(row.user, db'.users[row.user].role, r.csrf.value, false, row.expires);
          (db'.(cache := db'.cache[k := s]), Some(s))
  }

  /** `requireSession`. */
  function Require(db: Db, r: Request, now: Time): (Db, Outcome)
  {
    var (db', found) := ReadSession(db, r, now);
    if found.None? then (db', Unauthorized)
    else
      var s := found.value;
      if s.user !in db'.users || !db'.users[s.user].active then (db', Blocked)
      else if r.unsafe && r.header != s.csrf then (db', Mismatch)
      else (db', Served(s))
  }

  function Issue(db: Db, k: Token, csrf: string, user: UserId, role: string, mfa: bool, now: Time): Db
  {
    var expires := now + SESSION_TTL;
    db.(cache := db.cache[k := Session(user, role, csrf, mfa, expires)],
        rows := db.rows[k := Row(user, now, expires, false)])
  }

  /** A login whose row could not be inserted and whose cache entry could not be taken back. */
  function Orphan(db: Db, k: Token, csrf: string, user: UserId, role: string, mfa: bool, now: Time): Db
  {
    db.(cache := db.cache[k := Session(user, role, csrf, mfa, now + SESSION_TTL)])
  }

  /** Logging out answers the same whether or not the cache dropped the entry and the row
      was revoked. */
  function Logout(db: Db, k: Token, dropped: bool, revoked: bool): Db
  {
    db.(cache := if dropped then db.cache - {k} else db.cache,
        rows := if revoked && k in db.rows then db.rows[k := db.rows[k].(revoked := true)] else db.rows)
  }

  /** The second factor: the session in the cache gains it if the code is right and the
      session has a role. */
  function VerifyMfa(db: Db, r: Request, codeOk: bool, now: Time): Db
  {
    var (db', out) := Require(db, r, now);
    if out.Served? && out.session.role != "" && codeOk && r.token.Some? && r.writes
    then db'.(cache := db'.cache[r.token.value := out.session.(mfa := true)])
    else db'
  }

  predicate Kept(row: Row, now: Time)
  {
    row.created >= now - RETENTION
  }

  function Retain(db: Db, now: Time): Db
  {
    db.(rows := map k | k in db.rows && Kept(db.rows[k], now) :: db.rows[k])
  }

  // ---- Objects ------------------------------------------------------------

  class SessionStore {
    var cache: map<Token, Session>
    var rows: map<Token, Row>
    var users: map<UserId, User>

    function Value(): Db
      reads this
    {
      Db(cache, rows, users)
    }

    constructor ()
      ensures Value() == Db(map[], map[], map[])
    {
      cache, rows, users := map[], map[], map[];
    }

    method Read(r: Request, now: Time) returns (found: Option<Session>)
      modifies this
      ensures (Value(), found) == ReadSession(old(Value()), r, now)
    {
      if r.token.None? || !r.cacheUp {
        return None;
      }
      var k := r.token.value;
      if k in cache {
        if now < cache[k].expires {
          return Some(cache[k]);
        }
        if r.writes {
          cache := cache - {k};
        }
      }
      assert r.writes ==> cache == old(cache) - {k};
      if r.csrf.None? || r.csrf.value == "" {
        return None;
      }
      if k !in rows || rows[k].revoked || rows[k].expires <= now || rows[k].user !in users || !users[rows[k].user].active {
        return None;
      }
      var s := Session(rows[k].user, users[rows[k].user].role, r.csrf.value, false, rows[k].expires);
      if !r.writes {
        return None;
      }
      cache := cache[k := s];
      return Some(s);
    }

    method RequireSession(r: Request, now: Time) returns (out: Outcome)
      modifies this
      ensures (Value(), out) == Require(old(Value()), r, now)
    {
      var found := Read(r, now);
      if found.None? {
        return Unauthorized;
      }
      var s := found.value;
      if s.user !in users || !users[s.user].active {
        return Blocked;
      }
      if r.unsafe && r.header != s.csrf {
        return Mismatch;
      }
      return Served(s);
    }

    /** The cache entry is taken back when the row cannot be inserted; `undone` says whether
        that succeeded. */
    method IssueSession(k: Token, csrf: string, user: UserId, role: string, mfa: bool, now: Time,
                        inserted: bool, undone: bool)
      requires k !in cache
      modifies this
      ensures Value() == if inserted then Issue(old(Value()), k, csrf, user, role, mfa, now)
                         else if undone then old(Value())
                         else Orphan(old(Value()), k, csrf, user, role, mfa, now)
    {
      var s := Session(user, role, csrf, mfa, now + SESSION_TTL);
      cache := cache[k := s];
      if !inserted {
        if undone {
          cache := cache - {k};
        }
        return;
      }
      rows := rows[k := Row(user, now, s.expires, false)];
    }

    /** Neither failure is reported. */
    method LogoutSession(token: Option<Token>, dropped: bool, revoked: bool)
      modifies this
      ensures Value() == if token.Some? then Logout(old(Value()), token.value, dropped, revoked) else old(Value())
    {
      if token.Some? {
        var k := token.value;
        if dropped {
          cache := cache - {k};
        }
        if revoked && k in rows && !rows[k].revoked {
          rows := rows[k := rows[k].(revoked := true)];
        }
        assert revoked && k in rows ==> rows == old(rows)[k := old(rows)[k].(revoked := true)];
      }
    }

    method VerifyCode(r: Request, codeOk: bool, now: Time) returns (verified: bool)
      modifies this
      ensures Value() == VerifyMfa(old(Value()), r, codeOk, now)
      ensures verified ==> r.token.Some? && r.token.value in cache && cache[r.token.value].mfa
    {
      var out := RequireSession(r, now);
      if !out.Served? || out.session.role == "" || !codeOk || r.token.None? || !r.writes {
        return false;
      }
      cache := cache[r.token.value := out.session.(mfa := true)];
      return true;
    }
  }

  // ---- Runs ---------------------------------------------------------------

  /** What was issued with a token. */
  datatype Grant = Grant(user: UserId, csrf: string, at: Time)

  /** The tables with, for reasoning, every grant so far (`issued`), the tokens whose row was
      revoked or never inserted (`gone`), and the tokens for which a right code was given since
      their cache entry was last lost (`confirmed`). */
  datatype State = State(db: Db, issued: map<Token, Grant>, gone: set<Token>, confirmed: set<Token>, clock: Time)

  const START := State(Db(map[], map[], map[]), map[], {}, {}, 0)

  datatype Action =
    | DoIssue(k: Token, csrf: string, user: UserId, role: string, mfa: bool, inserted: bool, undone: bool, t: Time)
    | DoRequest(r: Request, t: Time)
    | DoVerify(r: Request, codeOk: bool, t: Time)
    | DoLogout(k: Token, dropped: bool, revoked: bool, t: Time)
    | Lose(lost: set<Token>, t: Time)
    | SetUser(user: UserId, value: User, t: Time)
    | DoRetain(t: Time)

  function Step(s: State, a: Action): State
  {
    if a.t < s.clock then s
    else
      var n := s.(clock := a.t);
      match a
      case DoIssue(k, csrf, user, role, mfa, inserted, undone, t) =>
        if inserted then StepIssue(n, k, csrf, user, role, mfa)
        else if undone then n
        else StepOrphan(n, k, csrf, user, role, mfa)
      case DoRequest(r, t) => n.(db := Require(n.db, r, t).0)
      case DoVerify(r, codeOk, t) => StepVerify(n, r, codeOk)
      case DoLogout(k, dropped, revoked, t) => StepLogout(n, k, dropped, revoked)
      case Lose(lost, t) => n.(db := n.db.(cache := n.db.cache - lost), confirmed := n.confirmed - lost)
      case SetUser(user, value, t) => n.(db := n.db.(users := n.db.users[user := value]))
      case DoRetain(t) => n.(db := Retain(n.db, t))
  }

  /** Tokens are fresh random values and never empty; the user exists. */
  function StepIssue(n: State, k: Token, csrf: string, user: UserId, role: string, mfa: bool): State
  {
    if k in n.issued || csrf == "" || user !in n.db.users then n
    else n.(db := Issue(n.db, k, csrf, user, role, mfa, n.clock),
            issued := n.issued[k := Grant(user, csrf, n.clock)],
            confirmed := if mfa then n.confirmed + {k} else n.confirmed)
  }

  function StepOrphan(n: State, k: Token, csrf: string, user: UserId, role: string, mfa: bool): State
  {
    if k in n.issued || csrf == "" || user !in n.db.users then n
    else n.(db := Orphan(n.db, k, csrf, user, role, mfa, n.clock),
            issued := n.issued[k := Grant(user, csrf, n.clock)],
            gone := n.gone + {k},
            confirmed := if mfa then n.confirmed + {k} else n.confirmed)
  }

  function StepLogout(n: State, k: Token, dropped: bool, revoked: bool): State
  {
    if k !in n.issued then n
    else n.(db := Logout(n.db, k, dropped, revoked), gone := if revoked then n.gone + {k} else n.gone)
  }

  function StepVerify(n: State, r: Request, codeOk: bool): State
  {
    n.(db := VerifyMfa(n.db, r, codeOk, n.clock),
       confirmed := if codeOk && r.token.Some? then n.confirmed + {r.token.value} else n.confirmed)
  }

  function Run(s: State, run: seq<Action>): State
    decreases |run|
  {
    if run == [] then s else Run(Step(s, run[0]), run[1..])
  }

  // ---- What is always true ------------------------------------------------

  ghost predicate RowOk(s: State, k: Token)
    requires k in s.db.rows
  {
    && k in s.issued
    && s.db.rows[k] == Row(s.issued[k].user, s.issued[k].at, s.issued[k].at + SESSION_TTL, k in s.gone)
  }

  ghost predicate EntryOk(s: State, k: Token)
    requires k in s.db.cache
  {
    && k in s.issued
    && s.db.cache[k].user == s.issued[k].user
    && s.db.cache[k].expires == s.issued[k].at + SESSION_TTL
    && (s.db.cache[k].mfa ==> k in s.confirmed)
  }

  /** A token that is not gone and has not expired has its row. */
  ghost predicate GrantOk(s: State, k: Token)
    requires k in s.issued
  {
    && s.issued[k].at <= s.clock
    && s.issued[k].csrf != ""
    && s.issued[k].user in s.db.users
    && (k !in s.gone && s.clock < s.issued[k].at + SESSION_TTL ==> k in s.db.rows)
  }

  ghost predicate Inv(s: State)
  {
    && s.gone <= s.issued.Keys
    && (forall k :: k in s.db.rows ==> RowOk(s, k))
    && (forall k :: k in s.db.cache ==> EntryOk(s, k))
    && (forall k :: k in s.issued ==> GrantOk(s, k))
  }

  lemma ClockOk(s: State, t: Time)
    requires Inv(s) && s.clock <= t
    ensures Inv(s.(clock := t))
  {
    var n := s.(clock := t);
    forall k | k in n.db.rows ensures RowOk(n, k) { assert RowOk(s, k); }
    forall k | k in n.db.cache ensures EntryOk(n, k) { assert EntryOk(s, k); }
    forall k | k in n.issued ensures GrantOk(n, k) { assert GrantOk(s, k); }
  }

  /** Only the cache changed, and every new entry is right. */
  lemma CacheOk(s: State, n: State)
    requires Inv(s) && n.issued == s.issued && n.gone == s.gone && n.clock == s.clock
    requires n.db.rows == s.db.rows && n.db.users == s.db.users
    requires forall k :: k in n.db.cache ==> EntryOk(n, k)
    ensures Inv(n)
  {
    forall k | k in n.db.rows ensures RowOk(n, k) { assert RowOk(s, k); }
    forall k | k in n.issued ensures GrantOk(n, k) { assert GrantOk(s, k); }
  }

  lemma ReadOk(s: State, r: Request)
    requires Inv(s)
    ensures var (db, found) := ReadSession(s.db, r, s.clock);
            && Inv(s.(db := db))
            && db.users == s.db.users
            && (found.Some? ==> r.token.Some? && r.token.value in db.cache && db.cache[r.token.value] == found.value)
  {
    var (db, found) := ReadSession(s.db, r, s.clock);
    var n := s.(db := db);
    forall k | k in n.db.cache ensures EntryOk(n, k) {
      if k in s.db.cache && s.db.cache[k] == n.db.cache[k] {
        assert EntryOk(s, k);
      } else {
        assert RowOk(s, k);
      }
    }
    CacheOk(s, n);
  }

  lemma VerifyOk(s: State, r: Request, codeOk: bool)
    requires Inv(s)
    ensures Inv(StepVerify(s, r, codeOk))
  {
    ReadOk(s, r);
    var m := s.(db := Require(s.db, r, s.clock).0);
    var n := StepVerify(s, r, codeOk);
    forall k | k in n.db.cache ensures EntryOk(n, k) {
      assert EntryOk(m, k);
    }
    CacheOk(m, n);
  }

  lemma IssueOk(s: State, k: Token, csrf: string, user: UserId, role: string, mfa: bool)
    requires Inv(s)
    ensures Inv(StepIssue(s, k, csrf, user, role, mfa))
  {
    var n := StepIssue(s, k, csrf, user, role, mfa);
    if n != s {
      forall j | j in n.db.rows ensures RowOk(n, j) { assert j != k ==> RowOk(s, j); }
      forall j | j in n.db.cache ensures EntryOk(n, j) { assert j != k ==> EntryOk(s, j); }
      forall j | j in n.issued ensures GrantOk(n, j) { assert j != k ==> GrantOk(s, j); }
    }
  }

  lemma OrphanOk(s: State, k: Token, csrf: string, user: UserId, role: string, mfa: bool)
    requires Inv(s)
    ensures Inv(StepOrphan(s, k, csrf, user, role, mfa))
  {
    var n := StepOrphan(s, k, csrf, user, role, mfa);
    if n != s {
      forall j | j in n.db.rows ensures RowOk(n, j) { assert RowOk(s, j); }
      forall j | j in n.db.cache ensures EntryOk(n, j) { assert j != k ==> EntryOk(s, j); }
      forall j | j in n.issued ensures GrantOk(n, j) { assert j != k ==> GrantOk(s, j); }
    }
  }

  lemma LogoutOk(s: State, k: Token, dropped: bool, revoked: bool)
    requires Inv(s)
    ensures Inv(StepLogout(s, k, dropped, revoked))
  {
    var n := StepLogout(s, k, dropped, revoked);
    if n != s {
      forall j | j in n.db.rows ensures RowOk(n, j) { assert RowOk(s, j); }
      forall j | j in n.db.cache ensures EntryOk(n, j) { assert EntryOk(s, j); }
      forall j | j in n.issued ensures GrantOk(n, j) { assert GrantOk(s, j); }
    }
  }

  lemma LoseOk(s: State, lost: set<Token>)
    requires Inv(s)
    ensures Inv(s.(db := s.db.(cache := s.db.cache - lost), confirmed := s.confirmed - lost))
  {
    var n := s.(db := s.db.(cache := s.db.cache - lost), confirmed := s.confirmed - lost);
    forall k | k in n.db.cache ensures EntryOk(n, k) { assert EntryOk(s, k); }
    CacheOk(s, n);
  }

  lemma UserOk(s: State, user: UserId, value: User)
    requires Inv(s)
    ensures Inv(s.(db := s.db.(users := s.db.users[user := value])))
  {
    var n := s.(db := s.db.(users := s.db.users[user := value]));
    forall k | k in n.db.rows ensures RowOk(n, k) { assert RowOk(s, k); }
    forall k | k in n.db.cache ensures EntryOk(n, k) { assert EntryOk(s, k); }
    forall k | k in n.issued ensures GrantOk(n, k) { assert GrantOk(s, k); }
  }

  lemma RetainOk(s: State)
    requires Inv(s)
    ensures Inv(s.(db := Retain(s.db, s.clock)))
  {
    var n := s.(db := Retain(s.db, s.clock));
    forall k | k in n.db.rows ensures RowOk(n, k) { assert RowOk(s, k); }
    forall k | k in n.db.cache ensures EntryOk(n, k) { assert EntryOk(s, k); }
    forall k | k in n.issued ensures GrantOk(n, k) {
      assert GrantOk(s, k);
      assert k in s.db.rows ==> RowOk(s, k);
    }
  }

  lemma StepOk(s: State, a: Action)
    requires Inv(s)
    ensures Inv(Step(s, a))
  {
    if a.t >= s.clock {
      ClockOk(s, a.t);
      var n := s.(clock := a.t);
      match a
      case DoIssue(k, csrf, user, role, mfa, _, _, _) =>
        IssueOk(n, k, csrf, user, role, mfa);
        OrphanOk(n, k, csrf, user, role, mfa);
      case DoRequest(r, _) => ReadOk(n, r);
      case DoVerify(r, codeOk, _) => VerifyOk(n, r, codeOk);
      case DoLogout(k, dropped, revoked, _) => LogoutOk(n, k, dropped, revoked);
      case Lose(lost, _) => LoseOk(n, lost);
      case SetUser(user, value, _) => UserOk(n, user, value);
      case DoRetain(_) => RetainOk(n);
    }
  }

  lemma {:induction false} RunOk(s: State, run: seq<Action>)
    requires Inv(s)
    ensures Inv(Run(s, run))
    decreases |run|
  {
    if run != [] {
      StepOk(s, run[0]);
      RunOk(Step(s, run[0]), run[1..]);
    }
  }

  // ---- Main results -------------------------------------------------------

  /** The token was issued and is not past its 30 days. */
  ghost predicate InTime(s: State, k: Token, t: Time)
  {
    k in s.issued && t < s.issued[k].at + SESSION_TTL
  }

  /** Its row is valid, too. */
  ghost predicate Standing(s: State, k: Token, t: Time)
  {
    InTime(s, k, t) && k !in s.gone
  }

  /** Its row is not valid, but the cache still has an entry. */
  ghost predicate Lingering(s: State, k: Token, t: Time)
  {
    InTime(s, k, t) && k in s.gone && k in s.db.cache
  }

  /** Whoever is served holds a standing or lingering token of an active user and is that user,
      whatever cookies were sent and whatever the cache lost. The second factor is only there if
      it was confirmed since the cache entry was last lost. */
  lemma ServedSound(run: seq<Action>, r: Request, t: Time)
    requires t >= Run(START, run).clock
    ensures var s := Run(START, run);
            var out := Require(s.db, r, t).1;
            out.Served? ==>
              && r.token.Some? && (Standing(s, r.token.value, t) || Lingering(s, r.token.value, t))
              && out.session.user == s.issued[r.token.value].user
              && out.session.expires == s.issued[r.token.value].at + SESSION_TTL
              && s.db.users[out.session.user].active
              && (out.session.mfa ==> r.token.value in s.confirmed)
  {
    RunOk(START, run);
    var s := Run(START, run);
    ClockOk(s, t);
    ServedIn(s.(clock := t), r);
  }

  lemma ServedIn(s: State, r: Request)
    requires Inv(s)
    ensures var out := Require(s.db, r, s.clock).1;
            out.Served? ==>
              && r.token.Some? && (Standing(s, r.token.value, s.clock) || Lingering(s, r.token.value, s.clock))
              && out.session.user == s.issued[r.token.value].user
              && out.session.expires == s.issued[r.token.value].at + SESSION_TTL
              && out.session.user in s.db.users && s.db.users[out.session.user].active
              && (out.session.mfa ==> r.token.value in s.confirmed)
  {
    ReadOk(s, r);
    if r.token.Some? {
      var k := r.token.value;
      assert k in s.db.cache ==> EntryOk(s, k);
      assert k in s.db.rows ==> RowOk(s, k);
    }
  }

  lemma {:induction false} RunConcat(s: State, a: seq<Action>, b: seq<Action>)
    ensures Run(s, a + b) == Run(Run(s, a), b)
    decreases |a|
  {
    if a == [] {
      assert a + b == b;
    } else {
      assert (a + b)[1..] == a[1..] + b;
      RunConcat(Step(s, a[0]), a[1..], b);
    }
  }

  // ---- Logging out --------------------------------------------------------

  /** No row and no entry: nothing brings such a token back. */
  ghost predicate Dead(s: State, k: Token)
  {
    k in s.gone && k !in s.db.cache
  }

  lemma DeadRead(s: State, k: Token, r: Request)
    requires Inv(s) && Dead(s, k)
    ensures Dead(s.(db := ReadSession(s.db, r, s.clock).0), k)
    ensures r.token == Some(k) ==> ReadSession(s.db, r, s.clock).1.None?
  {
    assert k in s.db.rows ==> RowOk(s, k);
  }

  lemma DeadVerify(s: State, k: Token, r: Request, codeOk: bool)
    requires Inv(s) && Dead(s, k)
    ensures Dead(StepVerify(s, r, codeOk), k)
  {
    DeadRead(s, k, r);
  }

  lemma DeadStep(s: State, a: Action, k: Token)
    requires Inv(s) && Dead(s, k)
    ensures Dead(Step(s, a), k)
  {
    if a.t >= s.clock {
      ClockOk(s, a.t);
      var n := s.(clock := a.t);
      match a
      case DoRequest(r, _) => DeadRead(n, k, r);
      case DoVerify(r, codeOk, _) => DeadVerify(n, k, r, codeOk);
      case _ =>
    }
  }

  lemma {:induction false} DeadStays(s: State, run: seq<Action>, k: Token)
    requires Inv(s) && Dead(s, k)
    ensures Inv(Run(s, run)) && Dead(Run(s, run), k)
    decreases |run|
  {
    if run != [] {
      StepOk(s, run[0]);
      DeadStep(s, run[0], k);
      DeadStays(Step(s, run[0]), run[1..], k);
    }
  }

  /** After `after` the token is served again. */
  ghost predicate Returns(s: State, k: Token, after: seq<Action>, r: Request, t: Time)
  {
    r.token == Some(k) && t >= Run(s, after).clock && Require(Run(s, after).db, r, t).1.Served?
  }

  lemma NoReturn(s: State, k: Token, after: seq<Action>, r: Request, t: Time)
    requires Inv(s) && Dead(s, k)
    ensures !Returns(s, k, after, r, t)
  {
    if r.token == Some(k) && t >= Run(s, after).clock {
      DeadStays(s, after, k);
      var e := Run(s, after);
      ClockOk(e, t);
      DeadRead(e.(clock := t), k, r);
    }
  }

  /** A token that is in time and has a row or an entry can be served: at worst its user has
      to be unblocked first. */
  lemma CanReturn(s: State, k: Token)
    requires Inv(s) && InTime(s, k, s.clock) && (k !in s.gone || k in s.db.cache)
    ensures exists after, r, t :: Returns(s, k, after, r, t)
  {
    var user := s.issued[k].user;
    var unblock := SetUser(user, User(true, ""), s.clock);
    var r := Request(Some(k), Some("c"), "", false, true, true);
    assert k in s.db.cache ==> EntryOk(s, k);
    assert GrantOk(s, k);
    assert k in s.db.rows ==> RowOk(s, k);
    var e := Step(s, unblock);
    assert Run(s, [unblock]) == e by {
      assert [unblock][1..] == [];
    }
    assert e.db == s.db.(users := s.db.users[user := User(true, "")]);
    assert Require(e.db, r, s.clock).1.Served?;
    assert Returns(s, k, [unblock], r, s.clock);
  }

  /** When a logout works: a token that is in time can be served again after it, in some
      continuation, exactly if its valid row was not revoked or its entry was not dropped. */
  lemma LogoutExact(before: seq<Action>, k: Token, dropped: bool, revoked: bool, t: Time)
    requires t >= Run(START, before).clock && InTime(Run(START, before), k, t)
    ensures var s := Run(START, before);
            (exists after, r, t' :: Returns(Step(s, DoLogout(k, dropped, revoked, t)), k, after, r, t'))
            <==> (k !in s.gone && !revoked) || (k in s.db.cache && !dropped)
  {
    RunOk(START, before);
    var s := Run(START, before);
    var e := Step(s, DoLogout(k, dropped, revoked, t));
    StepOk(s, DoLogout(k, dropped, revoked, t));
    if (k !in s.gone && !revoked) || (k in s.db.cache && !dropped) {
      CanReturn(e, k);
    } else {
      forall after, r, t' ensures !Returns(e, k, after, r, t') {
        NoReturn(e, k, after, r, t');
      }
    }
  }

  /** A token whose logout dropped the entry and revoked the row is never served again. */
  lemma LoggedOut(before: seq<Action>, k: Token, t0: Time, after: seq<Action>, r: Request, t: Time)
    requires t0 >= Run(START, before).clock && k in Run(START, before).issued && r.token == Some(k)
    requires t >= Run(START, before + [DoLogout(k, true, true, t0)] + after).clock
    ensures !Require(Run(START, before + [DoLogout(k, true, true, t0)] + after).db, r, t).1.Served?
  {
    var logout := DoLogout(k, true, true, t0);
    RunConcat(START, before + [logout], after);
    RunConcat(START, before, [logout]);
    var s := Run(START, before);
    assert Run(s, [logout]) == Step(s, logout) by {
      assert [logout][1..] == [];
    }
    RunOk(START, before);
    StepOk(s, logout);
    NoReturn(Step(s, logout), k, after, r, t);
  }

  /** Two logouts that were answered like any other and did not log out: in one the cache kept
      the entry, in the other the row stayed valid. In the first, losing the entry changes the
      answer. */
  lemma LogoutFails(user: Action, login: Action, keep: Action, leave: Action, r: Request)
    requires user == SetUser("u", User(true, ""), 1)
    requires login == DoIssue("k", "c", "u", "", false, true, true, 1)
    requires keep == DoLogout("k", false, true, 2) && leave == DoLogout("k", true, false, 2)
    requires r == Request(Some("k"), Some("c"), "", false, true, true)
    ensures Require(Run(START, [user, login, keep]).db, r, 3).1.Served?
    ensures Require(Step(Run(START, [user, login, keep]), Lose({"k"}, 3)).db, r, 3).1 == Unauthorized
    ensures Require(Run(START, [user, login, leave]).db, r, 3).1.Served?
  {
    ThreeSteps(START, user, login, keep);
    ThreeSteps(START, user, login, leave);
    var s := Step(Step(START, user), login);
    assert s.db.rows == map["k" := Row("u", 1, 1 + SESSION_TTL, false)];
    assert s.db.cache == map["k" := Session("u", "", "c", false, 1 + SESSION_TTL)];
  }

  lemma ThreeSteps(s: State, a: Action, b: Action, c: Action)
    ensures Run(s, [a, b, c]) == Step(Step(Step(s, a), b), c)
  {
    assert [a, b, c][1..] == [b, c] && [b, c][1..] == [c] && [c][1..] == [];
    assert Run(s, [a, b, c]) == Run(Step(s, a), [b, c]);
    assert Run(Step(s, a), [b, c]) == Run(Step(Step(s, a), b), [c]);
  }

  // ---- The cache ----------------------------------------------------------

  /** Does the request carry the CSRF cookie that came with its token? */
  ghost predicate OwnCookie(s: State, r: Request)
  {
    r.token.Some? && r.token.value in s.issued ==> r.csrf == Some(s.issued[r.token.value].csrf)
  }

  ghost predicate HonestStep(s: State, a: Action)
  {
    (a.DoRequest? || a.DoVerify?) ==> OwnCookie(s, a.r)
  }

  ghost predicate Honest(s: State, run: seq<Action>)
    decreases |run|
  {
    run == [] || (HonestStep(s, run[0]) && Honest(Step(s, run[0]), run[1..]))
  }

  ghost predicate CsrfOk(s: State)
  {
    forall k :: k in s.db.cache && k in s.issued ==> s.db.cache[k].csrf == s.issued[k].csrf
  }

  lemma ReadCsrf(s: State, r: Request, t: Time)
    requires Inv(s) && CsrfOk(s) && OwnCookie(s, r)
    ensures CsrfOk(s.(db := ReadSession(s.db, r, t).0))
  {
    var n := s.(db := ReadSession(s.db, r, t).0);
    forall k | k in n.db.cache && k in n.issued
      ensures n.db.cache[k].csrf == n.issued[k].csrf
    {
      assert (k in s.db.cache && s.db.cache[k] == n.db.cache[k]) || r.token == Some(k);
    }
  }

  lemma VerifyCsrf(s: State, r: Request, codeOk: bool)
    requires Inv(s) && CsrfOk(s) && OwnCookie(s, r)
    ensures CsrfOk(StepVerify(s, r, codeOk))
  {
    ReadOk(s, r);
    ReadCsrf(s, r, s.clock);
  }

  lemma StepCsrf(s: State, a: Action)
    requires Inv(s) && CsrfOk(s) && HonestStep(s, a)
    ensures CsrfOk(Step(s, a))
  {
    if a.t >= s.clock {
      ClockOk(s, a.t);
      var n := s.(clock := a.t);
      match a
      case DoRequest(r, t) => ReadCsrf(n, r, t);
      case DoVerify(r, codeOk, _) => VerifyCsrf(n, r, codeOk);
      case _ =>
    }
  }

  lemma {:induction false} RunCsrf(s: State, run: seq<Action>)
    requires Inv(s) && CsrfOk(s) && Honest(s, run)
    ensures CsrfOk(Run(s, run))
    decreases |run|
  {
    if run != [] {
      StepCsrf(s, run[0]);
      StepOk(s, run[0]);
      RunCsrf(Step(s, run[0]), run[1..]);
    }
  }

  /** What a client can tell: HTTP 401, HTTP 403, or served as this user with this expiry
      and this CSRF token. */
  datatype Verdict = Code401 | Code403 | As(user: UserId, expires: Time, csrf: string)

  function View(out: Outcome): Verdict
  {
    match out
    case Unauthorized => Code401
    case Blocked => Code401
    case Mismatch => Code403
    case Served(s) => As(s.user, s.expires, s.csrf)
  }

  /** The verdict from the history of grants and logouts alone, without cache and rows. */
  ghost function Expected(s: State, r: Request, t: Time): Verdict
    requires Inv(s)
  {
    if r.token.None? || !Standing(s, r.token.value, t) then Code401
    else
      var g := s.issued[r.token.value];
      assert GrantOk(s, r.token.value);
      if !s.db.users[g.user].active then Code401
      else if r.unsafe && r.header != g.csrf then Code403
      else As(g.user, g.at + SESSION_TTL, g.csrf)
  }

  /** An active user's token for which the cache matters: it is standing and the cache does not
      answer, or has no entry for it and takes none; or it is not standing and has one. */
  ghost predicate CacheMatters(s: State, r: Request, t: Time)
  {
    && r.token.Some? && InTime(s, r.token.value, t)
    && s.issued[r.token.value].user in s.db.users && s.db.users[s.issued[r.token.value].user].active
    && if r.token.value !in s.gone then !r.cacheUp || (r.token.value !in s.db.cache && !r.writes)
       else r.cacheUp && r.token.value in s.db.cache
  }

  /** No write to the cache failed where the source goes on regardless. */
  ghost predicate WritesHeld(run: seq<Action>)
  {
    forall i :: 0 <= i < |run| ==> Held(run[i])
  }

  ghost predicate Held(a: Action)
  {
    (a.DoLogout? ==> a.dropped) && (a.DoIssue? ==> a.inserted || a.undone)
  }

  /** The cache is transparent: while clients send the cookies they were given, a verdict
      follows from what was issued and revoked exactly if the cache does not matter for it,
      which is so for every request that the cache serves in a run where writes to the cache
      did not fail, whatever it lost and the retention worker removed. */
  lemma CacheTransparent(run: seq<Action>, r: Request, t: Time)
    requires Honest(START, run)
    requires t >= Run(START, run).clock && OwnCookie(Run(START, run), r)
    ensures Inv(Run(START, run))
    ensures var s := Run(START, run);
            View(Require(s.db, r, t).1) == Expected(s, r, t) <==> !CacheMatters(s, r, t)
    ensures WritesHeld(run) && r.cacheUp && r.writes ==> !CacheMatters(Run(START, run), r, t)
  {
    RunOk(START, run);
    RunCsrf(START, run);
    VerdictIn(Run(START, run), r, t);
    if WritesHeld(run) {
      GoneNotCached(START, run);
      var s := Run(START, run);
      assert r.token.Some? && r.token.value in s.gone ==> Dead(s, r.token.value);
    }
  }

  lemma VerdictIn(s: State, r: Request, t: Time)
    requires Inv(s) && CsrfOk(s) && t >= s.clock && OwnCookie(s, r)
    ensures View(Require(s.db, r, t).1) == Expected(s, r, t) <==> !CacheMatters(s, r, t)
  {
    if r.token.Some? {
      var k := r.token.value;
      assert k in s.db.cache ==> EntryOk(s, k);
      assert k in s.db.rows ==> RowOk(s, k);
      assert k in s.issued ==> GrantOk(s, k);
    }
  }

  /** Every gone token is dead. */
  ghost predicate AllDead(s: State)
  {
    forall k :: k in s.gone ==> Dead(s, k)
  }

  lemma GoneStep(s: State, a: Action)
    requires Inv(s) && AllDead(s) && Held(a)
    ensures AllDead(Step(s, a))
  {
    var s' := Step(s, a);
    forall k | k in s'.gone
      ensures Dead(s', k)
    {
      if k in s.gone {
        DeadStep(s, a, k);
      }
    }
  }

  lemma {:induction false} GoneNotCached(s: State, run: seq<Action>)
    requires Inv(s) && AllDead(s) && WritesHeld(run)
    ensures AllDead(Run(s, run))
    decreases |run|
  {
    if run != [] {
      assert Held(run[0]);
      assert forall i :: 0 <= i < |run[1..]| ==> run[1..][i] == run[i + 1];
      StepOk(s, run[0]);
      GoneStep(s, run[0]);
      GoneNotCached(Step(s, run[0]), run[1..]);
    }
  }

  /** Without the cookie it can differ: losing a live cache entry leaves the session that is
      read the same, up to role and second factor, exactly if the CSRF cookie sent is the one
      in the entry, the row is valid, the user is active and the cache takes the new entry. */
  lemma LossExact(run: seq<Action>, r: Request, t: Time)
    requires t >= Run(START, run).clock && r.token.Some? && r.cacheUp
    requires var db := Run(START, run).db; r.token.value in db.cache && t < db.cache[r.token.value].expires
    ensures var db := Run(START, run).db;
            var k := r.token.value;
            var kept := ReadSession(db, r, t).1;
            var lost := ReadSession(db.(cache := db.cache - {k}), r, t).1;
            && kept == Some(db.cache[k])
            && ((lost.Some? && lost.value == kept.value.(role := lost.value.role, mfa := false))
                <==> (r.csrf == Some(db.cache[k].csrf) && r.csrf.value != "" && r.writes
                      && k in db.rows && !db.rows[k].revoked
                      && db.cache[k].user in db.users && db.users[db.cache[k].user].active))
  {
    RunOk(START, run);
    var s := Run(START, run);
    var k := r.token.value;
    assert EntryOk(s, k);
    assert GrantOk(s, k);
    assert k in s.db.rows ==> RowOk(s, k);
    var db' := s.db.(cache := s.db.cache - {k});
    assert db'.cache - {k} == db'.cache;
  }

  /** The retention worker never changes what a request gets. */
  lemma RetentionHarmless(run: seq<Action>, r: Request, now: Time, t: Time)
    requires Run(START, run).clock <= now <= t
    ensures var db := Run(START, run).db;
            Require(Retain(db, now), r, t).1 == Require(db, r, t).1
  {
    RunOk(START, run);
    var s := Run(START, run);
    if r.token.Some? {
      var k := r.token.value;
      assert k in s.db.rows ==> RowOk(s, k);
    }
  }

  ghost predicate Reconfirms(a: Action, k: Token)
  {
    a.DoVerify? && a.codeOk && a.r.token == Some(k)
  }

  lemma {:induction false} NotConfirmed(s: State, run: seq<Action>, k: Token)
    requires k in s.issued && k !in s.confirmed
    requires forall i :: 0 <= i < |run| ==> !Reconfirms(run[i], k)
    ensures k !in Run(s, run).confirmed
    decreases |run|
  {
    if run != [] {
      assert !Reconfirms(run[0], k);
      assert forall i :: 0 <= i < |run[1..]| ==> run[1..][i] == run[i + 1];
      NotConfirmed(Step(s, run[0]), run[1..], k);
    }
  }

  /** After its cache entry was lost a session has no second factor until a right code is
      given for it again. */
  lemma MfaNotRestored(before: seq<Action>, lost: set<Token>, t0: Time, after: seq<Action>, k: Token, r: Request, t: Time)
    requires k in lost && k in Run(START, before).issued && t0 >= Run(START, before).clock
    requires forall i :: 0 <= i < |after| ==> !Reconfirms(after[i], k)
    requires r.token == Some(k)
    requires t >= Run(START, before + [Lose(lost, t0)] + after).clock
    ensures var out := Require(Run(START, before + [Lose(lost, t0)] + after).db, r, t).1;
            out.Served? ==> !out.session.mfa
  {
    var mid := before + [Lose(lost, t0)];
    RunConcat(START, before, [Lose(lost, t0)]);
    RunConcat(START, mid, after);
    LoseOnce(Run(START, before), lost, t0);
    NotConfirmed(Run(START, mid), after, k);
    ServedSound(mid + after, r, t);
  }

  lemma LoseOnce(s: State, lost: set<Token>, t0: Time)
    requires t0 >= s.clock
    ensures var n := Run(s, [Lose(lost, t0)]); n.issued == s.issued && n.confirmed == s.confirmed - lost
  {
    assert Run(s, [Lose(lost, t0)]) == Run(Step(s, Lose(lost, t0)), []);
  }

  // ---- Written out --------------------------------------------------------

  /** A login is good for 30 days, in the cache and in the table, and changes nothing else. */
  lemma IssueExact(db: Db, k: Token, csrf: string, user: UserId, role: string, mfa: bool, now: Time)
    ensures Issue(db, k, csrf, user, role, mfa, now)
            == Db(db.cache[k := Session(user, role, csrf, mfa, now + 2_592_000_000_000)],
                  db.rows[k := Row(user, now, now + 2_592_000_000_000, false)], db.users)
    ensures Orphan(db, k, csrf, user, role, mfa, now)
            == Db(db.cache[k := Session(user, role, csrf, mfa, now + 2_592_000_000_000)], db.rows, db.users)
  {
  }

  /** The row of the token is valid: not revoked, in time and of an active user. */
  ghost predicate ValidRow(db: Db, k: Token, now: Time)
  {
    k in db.rows && !db.rows[k].revoked && now < db.rows[k].expires
      && db.rows[k].user in db.users && db.users[db.rows[k].user].active
  }

  /** Reading a session: the entry while it lasts; else, given a cookie and a valid row, a new
      entry with the row's user and end, the user's present role, the cookie as CSRF token and no
      second factor; else nothing, and an entry that has run out is dropped. */
  lemma ReadExact(db: Db, r: Request, k: Token, now: Time)
    requires r.token == Some(k) && r.cacheUp && r.writes
    ensures ReadSession(db, r, now)
            == if k in db.cache && now < db.cache[k].expires then (db, Some(db.cache[k]))
               else if r.csrf.None? || r.csrf.value == "" || !ValidRow(db, k, now)
               then (db.(cache := db.cache - {k}), None)
               else
                 var row := db.rows[k];
                 var s := Session(row.user, db.users[row.user].role, r.csrf.value, false, row.expires);
                 (db.(cache := db.cache[k := s]), Some(s))
  {
    if k in db.rows && db.rows[k].user in db.users && r.csrf.Some? {
      var row := db.rows[k];
      var s := Session(row.user, db.users[row.user].role, r.csrf.value, false, row.expires);
      assert (db.cache - {k})[k := s] == db.cache[k := s];
    }
  }

  /** Without a token, or with a cache that does not answer, nothing is read; with one that takes
      no writes, only what it has. */
  lemma ReadFaults(db: Db, r: Request, now: Time)
    ensures r.token.None? || !r.cacheUp ==> ReadSession(db, r, now) == (db, None)
    ensures r.token.Some? && r.cacheUp && !r.writes ==>
              var k := r.token.value;
              ReadSession(db, r, now)
              == (db, if k in db.cache && now < db.cache[k].expires then Some(db.cache[k]) else None)
  {
  }

  /** After reading: 401 without a session, 401 for a user who is not active, 403 for an unsafe
      method without the session's CSRF token in the header. */
  lemma RequireExact(db: Db, r: Request, now: Time)
    ensures var (db', found) := ReadSession(db, r, now);
            && Require(db, r, now).0 == db'
            && Require(db, r, now).1
               == match found
                  case None => Unauthorized
                  case Some(s) =>
                    if !(s.user in db.users && db.users[s.user].active) then Blocked
                    else if r.unsafe && r.header != s.csrf then Mismatch
                    else Served(s)
  {
  }

  /** The second factor is set in the cache exactly for a served session with a role, a right
      code and a cache that takes it; nothing else of the session changes. */
  lemma VerifyExact(db: Db, r: Request, codeOk: bool, now: Time)
    ensures var (db', out) := Require(db, r, now);
            VerifyMfa(db, r, codeOk, now)
            == if r.token.Some? && out.Served? && out.session.role != "" && codeOk && r.writes
               then var s := out.session;
                    db'.(cache := db'.cache[r.token.value := Session(s.user, s.role, s.csrf, true, s.expires)])
               else db'
  {
  }

  /** Rows are deleted exactly after 90 days. */
  lemma RetainExact(db: Db, now: Time, k: Token)
    ensures var d := Retain(db, now);
            && d.cache == db.cache && d.users == db.users
            && (k in d.rows <==> k in db.rows && db.rows[k].created >= now - 7_776_000_000_000)
            && (k in d.rows ==> d.rows[k] == db.rows[k])
  {
  }

  /** Logging out touches the one entry and the one row, each if its statement succeeds. */
  lemma LogoutEffect(db: Db, k: Token, dropped: bool, revoked: bool)
    ensures var d := Logout(db, k, dropped, revoked);
            && d.users == db.users
            && d.cache.Keys == (if dropped then db.cache.Keys - {k} else db.cache.Keys)
            && (forall j :: j in d.cache ==> d.cache[j] == db.cache[j])
            && d.rows.Keys == db.rows.Keys
            && (forall j :: j in db.rows ==>
                  d.rows[j] == Row(db.rows[j].user, db.rows[j].created, db.rows[j].expires,
                                   db.rows[j].revoked || (j == k && revoked)))
  {
  }

  /** What each action of a run leaves in the tables. */
  lemma StepExact(s: State, a: Action)
    requires s.clock <= a.t
    ensures Step(s, a).clock == a.t
    ensures Step(s, a).db
            == match a
               case DoRequest(r, t) => Require(s.db, r, t).0
               case DoVerify(r, codeOk, t) => VerifyMfa(s.db, r, codeOk, t)
               case DoLogout(k, dropped, revoked, _) =>
                 if k in s.issued then Logout(s.db, k, dropped, revoked) else s.db
               case Lose(lost, _) => s.db.(cache := s.db.cache - lost)
               case SetUser(user, value, _) => s.db.(users := s.db.users[user := value])
               case DoRetain(t) => Retain(s.db, t)
               case DoIssue(k, csrf, user, role, mfa, inserted, undone, t) =>
                 if k in s.issued || csrf == "" || user !in s.db.users || (!inserted && undone) then s.db
                 else if inserted then Issue(s.db, k, csrf, user, role, mfa, t)
                 else Orphan(s.db, k, csrf, user, role, mfa, t)
  {
  }
}
