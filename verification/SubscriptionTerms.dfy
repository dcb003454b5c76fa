/** What money buys: the terms of every charge, written out in kopecks, bytes and days. */
module SubscriptionTerms {
  import opened Options
  import P = Proration
  import opened Subscriptions
  import R = SubscriptionRuns

  /** 30 days and 24 hours, in microseconds. */
  const MONTH: int := 2_592_000_000_000
  const ONE_DAY: int := 86_400_000_000

  /** The price list. */
  function ListPrice(p: Plan): int
  {
    match p
    case TRIAL => 0
    case LITE => 14_900
    case PLUS => 29_900
    case ULTRA => 49_900
  }

  function ListQuota(p: Plan): int
  {
    match p
    case TRIAL => 20_000_000_000
    case LITE => 150_000_000_000
    case PLUS => 600_000_000_000
    case ULTRA => 2_000_000_000_000
  }

  /** A user's ledger rows, in order. */
  function RowsOf(ledger: seq<Entry>, u: User): seq<Entry>
  {
    if ledger == [] then []
    else RowsOf(ledger[..|ledger| - 1], u) + if ledger[|ledger| - 1].user == u then [ledger[|ledger| - 1]] else []
  }

  lemma RowsPush(ledger: seq<Entry>, e: Entry, u: User)
    ensures RowsOf(ledger + [e], u) == RowsOf(ledger, u) + if e.user == u then [e] else []
  {
    assert (ledger + [e])[..|ledger|] == ledger;
  }

  // ---- The lifecycle pass -------------------------------------------------

  /** The account is renewed: an active paid plan has run out and the balance covers the plan
      that comes next. */
  predicate Covered(a: Account, t: Time)
  {
    && a.sub.plan != TRIAL && a.sub.status == Active && a.sub.ends.Some? && a.sub.ends.value <= t
    && a.balance >= ListPrice(NextPlan(a.sub))
  }

  function NextPlan(s: Sub): Plan
  {
    match s.pending
    case Some(p) => p
    case None => s.plan
  }

  /** Another month of the next plan, with its quota and no usage; if a month is not enough to
      reach t, the grace day starts at once. */
  function AnotherMonth(s: Sub, t: Time): Sub
    requires s.ends.Some?
  {
    var end := s.ends.value + MONTH;
    var p := NextPlan(s);
    if end > t then Sub(p, None, Active, s.ends, Some(end), None, ListQuota(p), 0)
    else Sub(p, None, Grace, s.ends, Some(end), Some(t + ONE_DAY), ListQuota(p), 0)
  }

  /** What time alone does: a trial that has run out expires, a paid plan gets a grace day, and
      is suspended after it. */
  function Older(s: Sub, t: Time): Sub
  {
    if s.status == Active && s.ends.Some? && s.ends.value <= t then
      Sub(s.plan, s.pending, if s.plan == TRIAL then Expired else Grace, s.started, s.ends,
          if s.plan == TRIAL then s.graceEnds else Some(t + ONE_DAY), s.quota, s.used)
    else if s.status == Grace && s.graceEnds.Some? && s.graceEnds.value <= t then
      Sub(s.plan, s.pending, Suspended, s.started, s.ends, s.graceEnds, s.quota, s.used)
    else s
  }

  /** The key names the user and the old period end, to the second. */
  ghost predicate KeyFor(key: Key, u: User, end: Time)
  {
    key.Renewal? && key.user == u && -1_000_000 <= 2 * (key.epoch * 1_000_000 - end) <= 1_000_000
  }

  ghost predicate RenewedTerms(a: Account, rows: seq<Entry>, a': Account, rows': seq<Entry>, u: User, t: Time)
    requires Covered(a, t)
  {
    var left := a.balance - ListPrice(NextPlan(a.sub));
    && a' == Account(left, AnotherMonth(a.sub, t))
    && |rows'| == |rows| + 1 && rows'[..|rows|] == rows
    && var e := rows'[|rows|];
       e == Entry(u, left - a.balance, left, e.key) && KeyFor(e.key, u, a.sub.ends.value)
  }

  lemma {:induction false} OthersUntouched(b: Bank, order: seq<User>, t: Time, u: User)
    requires u !in order && u in b.accounts
    ensures var d := RenewAll(b, order, t);
            u in d.accounts && d.accounts[u] == b.accounts[u] && RowsOf(d.ledger, u) == RowsOf(b.ledger, u)
    decreases |order|
  {
    if order != [] {
      var v := order[0];
      assert v != u;
      var c := RenewOne(b, v, t);
      if c.ledger != b.ledger {
        RowsPush(b.ledger, c.ledger[|b.ledger|], u);
        assert c.ledger == b.ledger + [c.ledger[|b.ledger|]];
      }
      OthersUntouched(c, order[1..], t, u);
    }
  }

  lemma {:induction false} RenewAllConcat(b: Bank, x: seq<User>, y: seq<User>, t: Time)
    ensures RenewAll(b, x + y, t) == RenewAll(RenewAll(b, x, t), y, t)
    decreases |x|
  {
    if x == [] {
      assert x + y == y;
    } else {
      assert (x + y)[1..] == x[1..] + y;
      RenewAllConcat(RenewOne(b, x[0], t), x[1..], y, t);
    }
  }

  /** One user in the middle of the pass. */
  lemma RenewedOnce(b: Bank, u: User, t: Time)
    requires R.Inv(b) && b.clock == t && u in b.accounts
    ensures var a, d := b.accounts[u], RenewOne(b, u, t);
            && u in d.accounts
            && (Covered(a, t) ==>
                  var e := Entry(u, -ListPrice(NextPlan(a.sub)), a.balance - ListPrice(NextPlan(a.sub)),
                                 Renewal(u, Epoch(a.sub.ends.value)));
                  && d.ledger == b.ledger + [e]
                  && d.accounts[u].balance == a.balance - ListPrice(NextPlan(a.sub))
                  && d.accounts[u].sub == Sub(NextPlan(a.sub), None, Active, a.sub.ends, Some(a.sub.ends.value + MONTH),
                                              None, ListQuota(NextPlan(a.sub)), 0))
            && (!Covered(a, t) ==> d == b)
  {
    var a := b.accounts[u];
    assert Covered(a, t) <==> Due(a, t);
    if Covered(a, t) {
      R.RenewalKeyFresh(b, u);
    }
  }

  lemma EpochNear(end: Time)
    ensures -1_000_000 <= 2 * (Epoch(end) * 1_000_000 - end) <= 1_000_000
  {
  }

  lemma AgesAs(b: Bank, t: Time, u: User)
    requires u in b.accounts
    ensures var d := AgeAll(b, t);
            u in d.accounts && d.accounts[u] == Account(b.accounts[u].balance, Older(b.accounts[u].sub, t))
            && d.ledger == b.ledger
  {
  }

  /** The renewals of the pass, for one user. */
  ghost predicate Renews(b: Bank, d: Bank, u: User, t: Time)
    requires u in b.accounts && u in d.accounts
  {
    var a := b.accounts[u];
    if Covered(a, t) then
      var left := a.balance - ListPrice(NextPlan(a.sub));
      && d.accounts[u] == Account(left, Sub(NextPlan(a.sub), None, Active, a.sub.ends, Some(a.sub.ends.value + MONTH),
                                            None, ListQuota(NextPlan(a.sub)), 0))
      && RowsOf(d.ledger, u)
         == RowsOf(b.ledger, u) + [Entry(u, left - a.balance, left, Renewal(u, Epoch(a.sub.ends.value)))]
    else d.accounts[u] == a && RowsOf(d.ledger, u) == RowsOf(b.ledger, u)
  }

  lemma RenewsOne(b: Bank, u: User, t: Time)
    requires R.Inv(b) && b.clock == t && u in b.accounts
    ensures u in RenewOne(b, u, t).accounts && Renews(b, RenewOne(b, u, t), u, t)
  {
    RenewedOnce(b, u, t);
    var d := RenewOne(b, u, t);
    if Covered(b.accounts[u], t) {
      RowsPush(b.ledger, d.ledger[|b.ledger|], u);
    }
  }

  /** The same account and ledger rows of u. */
  ghost predicate SameFor(b: Bank, d: Bank, u: User)
  {
    u in b.accounts && u in d.accounts && d.accounts[u] == b.accounts[u] && RowsOf(d.ledger, u) == RowsOf(b.ledger, u)
  }

  lemma BeforeTurn(b: Bank, x: seq<User>, u: User, t: Time)
    requires R.Inv(b) && b.clock == t && u in b.accounts && u !in x
    ensures var c := RenewAll(b, x, t); R.Inv(c) && c.clock == t && SameFor(b, c, u)
  {
    OthersUntouched(b, x, t, u);
    R.RenewAllOk(b, x);
    SameClock(b, x, t);
  }

  lemma RenewsVia(b: Bank, c: Bank, d: Bank, e: Bank, u: User, t: Time)
    requires SameFor(b, c, u) && u in d.accounts && Renews(c, d, u, t) && SameFor(d, e, u)
    ensures u in e.accounts && Renews(b, e, u, t)
  {
  }

  lemma Turn(c: Bank, u: User, y: seq<User>, t: Time)
    requires u in RenewOne(c, u, t).accounts && u !in y
    ensures SameFor(RenewOne(c, u, t), RenewAll(c, [u] + y, t), u)
  {
    assert ([u] + y)[1..] == y;
    OthersUntouched(RenewOne(c, u, t), y, t, u);
  }

  lemma RenewsAll(b: Bank, x: seq<User>, u: User, y: seq<User>, t: Time)
    requires R.Inv(b) && b.clock == t && u in b.accounts && u !in x && u !in y
    ensures var d := RenewAll(b, x + ([u] + y), t); u in d.accounts && Renews(b, d, u, t)
  {
    BeforeTurn(b, x, u, t);
    var c := RenewAll(b, x, t);
    RenewsOne(c, u, t);
    Turn(c, u, y, t);
    RenewAllConcat(b, x, [u] + y, t);
    RenewsVia(b, c, RenewOne(c, u, t), RenewAll(c, [u] + y, t), u, t);
  }

  /** The whole pass, for one user: renewed exactly if covered, and aged. */
  lemma PassFor(b: Bank, order: seq<User>, t: Time, u: User, i: nat)
    requires R.Inv(b) && b.clock == t && u in b.accounts
    requires i < |order| && order[i] == u && u !in order[..i] && u !in order[i + 1..]
    ensures var a, d := b.accounts[u], Lifecycle(b, order, t);
            && u in d.accounts
            && (Covered(a, t) ==> RenewedTerms(a, RowsOf(b.ledger, u), d.accounts[u], RowsOf(d.ledger, u), u, t))
            && (!Covered(a, t) ==>
                  d.accounts[u] == Account(a.balance, Older(a.sub, t)) && RowsOf(d.ledger, u) == RowsOf(b.ledger, u))
  {
    assert order == order[..i] + ([u] + order[i + 1..]);
    RenewsAll(b, order[..i], u, order[i + 1..], t);
    AgesAs(RenewAll(b, order, t), t, u);
    if Covered(b.accounts[u], t) {
      EpochNear(b.accounts[u].sub.ends.value);
    }
  }

  lemma {:induction false} SameClock(b: Bank, order: seq<User>, t: Time)
    ensures RenewAll(b, order, t).clock == b.clock
    decreases |order|
  {
    if order != [] {
      SameClock(RenewOne(b, order[0], t), order[1..], t);
    }
  }

  /** In every reachable state, and whatever order the rows are visited in: a covered user pays
      exactly the list price of the next plan, has that as the one new ledger row, and gets the
      plan, its quota and 30 more days; anyone else keeps balance, ledger, plan and quota and
      only grows older. */
  lemma PassTerms(run: seq<R.Action>, order: seq<User>, t: Time, u: User)
    requires R.Honest(run) && t >= R.Run(EMPTY, run).clock
    requires Visits(order, R.Run(EMPTY, run).accounts) && u in R.Run(EMPTY, run).accounts
    ensures var b := R.Run(EMPTY, run);
            var a, d := b.accounts[u], R.Step(b, R.Pass(order, t));
            && u in d.accounts
            && (Covered(a, t) ==> RenewedTerms(a, RowsOf(b.ledger, u), d.accounts[u], RowsOf(d.ledger, u), u, t))
            && (!Covered(a, t) ==>
                  d.accounts[u] == Account(a.balance, Older(a.sub, t)) && RowsOf(d.ledger, u) == RowsOf(b.ledger, u))
  {
    R.RunOk(EMPTY, run);
    PassStep(R.Run(EMPTY, run), order, t, u);
  }

  lemma PassStep(b: Bank, order: seq<User>, t: Time, u: User)
    requires R.Inv(b) && t >= b.clock && Visits(order, b.accounts) && u in b.accounts
    ensures var a, d := b.accounts[u], R.Step(b, R.Pass(order, t));
            && u in d.accounts
            && (Covered(a, t) ==> RenewedTerms(a, RowsOf(b.ledger, u), d.accounts[u], RowsOf(d.ledger, u), u, t))
            && (!Covered(a, t) ==>
                  d.accounts[u] == Account(a.balance, Older(a.sub, t)) && RowsOf(d.ledger, u) == RowsOf(b.ledger, u))
  {
    R.TickOk(b, t);
    var i := VisitedOnce(order, b.accounts, u);
    PassFor(b.(clock := t), order, t, u, i);
  }

  lemma VisitedOnce(order: seq<User>, accounts: map<User, Account>, u: User) returns (i: nat)
    requires Visits(order, accounts) && u in accounts
    ensures i < |order| && order[i] == u && u !in order[..i] && u !in order[i + 1..]
  {
    i :| 0 <= i < |order| && order[i] == u;
  }

  // ---- Plan changes -------------------------------------------------------

  /** The charge went through: balance, ledger row and subscription of u, and nothing else. */
  ghost predicate Charged(b: Bank, b': Bank, u: User, cost: int, key: Key, s: Sub)
    requires u in b.accounts
  {
    b' == b.(accounts := b.accounts[u := Account(b.accounts[u].balance - cost, s)],
             ledger := b.ledger + [Entry(u, -cost, b.accounts[u].balance - cost, key)])
  }

  ghost predicate Fresh(b: Bank, key: Key)
  {
    forall i :: 0 <= i < |b.ledger| ==> b.ledger[i].key != key
  }

  /** Asking for the plan one has, while active: a month and its quota more, at the list price,
      counted from the end of the period or from now if that is past. */
  lemma ExtendTerms(b: Bank, u: User, key: Key, t: Time)
    requires u in b.accounts && b.accounts[u].sub.status == Active && b.accounts[u].sub.plan != TRIAL
    ensures var a := b.accounts[u];
            var s := a.sub;
            var b' := ChangePlan(b, u, s.plan, key, t);
            var from := if s.ends.Some? && s.ends.value > t then s.ends.value else t;
            if a.balance >= ListPrice(s.plan) && Fresh(b, key)
            then Charged(b, b', u, ListPrice(s.plan), key,
                         Sub(s.plan, None, Active, s.started, Some(from + MONTH), None, s.quota + ListQuota(s.plan), s.used))
            else b' == b
  {
    FreshIs(b, key);
  }

  lemma FreshIs(b: Bank, key: Key)
    ensures Fresh(b, key) <==> !KeyUsed(b.ledger, key)
  {
  }

  /** Asking for a cheaper plan while active books nothing and notes the plan for the renewal. */
  lemma DowngradeTerms(b: Bank, u: User, next: Plan, key: Key, t: Time)
    requires u in b.accounts && b.accounts[u].sub.status == Active && next != TRIAL
    requires ListPrice(next) < ListPrice(b.accounts[u].sub.plan)
    ensures var a := b.accounts[u];
            var s := a.sub;
            ChangePlan(b, u, next, key, t)
            == b.(accounts := b.accounts[u := Account(a.balance,
                    Sub(s.plan, Some(next), s.status, s.started, s.ends, s.graceEnds, s.quota, s.used))])
  {
  }

  function TermsOf(p: Plan): P.Terms
  {
    P.Terms(ListPrice(p), ListQuota(p), MONTH)
  }

  /** A dearer plan inside an active paid period costs and grants the prorated share and keeps
      the period and the usage; a share of nothing is refused. */
  lemma UpgradeCharge(b: Bank, u: User, next: Plan, key: Key, t: Time)
    requires u in b.accounts && b.accounts[u].sub.status == Active && b.accounts[u].sub.plan != TRIAL
    requires b.accounts[u].sub.ends.Some? && ListPrice(next) > ListPrice(b.accounts[u].sub.plan)
    ensures var a := b.accounts[u];
            var s := a.sub;
            var b' := ChangePlan(b, u, next, key, t);
            var (cost, extra) := P.Prorate(TermsOf(s.plan), TermsOf(next), t, s.ends.value);
            if a.balance >= cost && cost != 0 && Fresh(b, key)
            then Charged(b, b', u, cost, key,
                         Sub(next, None, Active, Some(if s.started.Some? then s.started.value else t), s.ends, None,
                             s.quota + extra, s.used))
            else b' == b
  {
    FreshIs(b, key);
  }

  /** Any other purchase starts a month of the plan now, at its list price and with its quota;
      what was used counts on unless it was a trial. */
  lemma PurchaseTerms(b: Bank, u: User, next: Plan, key: Key, t: Time)
    requires u in b.accounts && next != TRIAL
    requires b.accounts[u].sub.status != Active || b.accounts[u].sub.plan == TRIAL
    ensures var a := b.accounts[u];
            var s := a.sub;
            var b' := ChangePlan(b, u, next, key, t);
            if a.balance >= ListPrice(next) && Fresh(b, key)
            then Charged(b, b', u, ListPrice(next), key,
                         Sub(next, None, Active, Some(t), Some(t + MONTH), None, ListQuota(next),
                             if s.plan == TRIAL then 0 else s.used))
            else b' == b
  {
    FreshIs(b, key);
  }

  /** There is no buying a trial, and no buying for someone unknown. */
  lemma NoPurchase(b: Bank, u: User, next: Plan, key: Key, t: Time)
    requires next == TRIAL || u !in b.accounts
    ensures ChangePlan(b, u, next, key, t) == b
  {
  }

  // ---- Wallet and trial ---------------------------------------------------

  /** A positive credit within 64 bits is booked under a new key; anything else is refused. */
  lemma CreditTerms(b: Bank, u: User, amount: int, key: Key)
    requires u in b.accounts
    ensures var a := b.accounts[u];
            var b' := CreditWallet(b, u, amount, key);
            if 0 < amount <= 0x7fff_ffff_ffff_ffff && -0x8000_0000_0000_0000 <= a.balance + amount <= 0x7fff_ffff_ffff_ffff
               && Fresh(b, key)
            then Charged(b, b', u, -amount, key, a.sub)
            else b' == b
  {
    FreshIs(b, key);
  }

  /** From a balance that is not negative, an adjustment is booked exactly if it is not zero and
      leaves one within 64 bits. */
  lemma AdjustTerms(b: Bank, u: User, amount: int, key: Key)
    requires u in b.accounts && 0 <= b.accounts[u].balance <= 0x7fff_ffff_ffff_ffff
    requires -0x8000_0000_0000_0000 <= amount <= 0x7fff_ffff_ffff_ffff
    ensures var a := b.accounts[u];
            var b' := AdjustWallet(b, u, amount, key);
            if amount != 0 && 0 <= a.balance + amount <= 0x7fff_ffff_ffff_ffff && Fresh(b, key)
            then Charged(b, b', u, -amount, key, a.sub)
            else b' == b
  {
    FreshIs(b, key);
    R.AdjustExact(b.accounts[u].balance, amount);
  }

  /** A new user has an empty wallet and a trial that has not started. */
  lemma RegisterTerms(b: Bank, u: User)
    ensures Register(b, u) == if u in b.accounts then b
                              else b.(accounts := b.accounts[u := Account(0, Sub(TRIAL, None, PendingTrial, None, None, None, 0, 0))])
  {
  }

  /** A pending trial starts with three days and 20 GB; nothing else starts. */
  lemma TrialTerms(b: Bank, u: User, reused: bool, t: Time)
    requires u in b.accounts
    ensures var a := b.accounts[u];
            var s := a.sub;
            ActivateTrial(b, u, reused, t)
            == if !reused && s.plan == TRIAL && s.status == PendingTrial
               then b.(accounts := b.accounts[u := Account(a.balance,
                      Sub(TRIAL, s.pending, Active, Some(t), Some(t + 3 * ONE_DAY), s.graceEnds, 20_000_000_000, s.used))])
               else b
  {
  }

  /** The seeded plans are the price list. */
  lemma CatalogueExact(p: Plan)
    ensures Catalogue(p) == P.Terms(ListPrice(p), ListQuota(p), if p == TRIAL then 3 * ONE_DAY else MONTH)
  {
  }

  /** Reported usage is added to the user's subscription and to nothing else. */
  lemma UsageTerms(b: Bank, u: User, bytes: int)
    requires u in b.accounts
    ensures var a := b.accounts[u];
            var s := a.sub;
            ReportUsage(b, u, bytes)
            == b.(accounts := b.accounts[u := Account(a.balance,
                    Sub(s.plan, s.pending, s.status, s.started, s.ends, s.graceEnds, s.quota, s.used + bytes))])
  {
  }
}
