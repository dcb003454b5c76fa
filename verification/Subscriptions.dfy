/** Wallets, the append-only ledger and the subscription state machine of the control
    plane. Every request and every lifecycle pass is one transaction. */
module Subscriptions {
  import opened Options
  import P = Proration

  type User = string
  type Time = P.Time

  const SECOND: int := P.SECOND
  const DAY: int := 86_400 * SECOND
  const PAID_PERIOD: int := 30 * DAY
  const TRIAL_PERIOD: int := 3 * DAY
  const GRACE_PERIOD: int := DAY

  datatype Plan = TRIAL | LITE | PLUS | ULTRA

  /** The seeded plans. */
  function Catalogue(p: Plan): P.Terms
  {
    match p
    case TRIAL => P.Terms(0, 20_000_000_000, 259_200 * SECOND)
    case LITE => P.Terms(14_900, 150_000_000_000, 2_592_000 * SECOND)
    case PLUS => P.Terms(29_900, 600_000_000_000, 2_592_000 * SECOND)
    case ULTRA => P.Terms(49_900, 2_000_000_000_000, 2_592_000 * SECOND)
  }

  function Price(p: Plan): int
  {
    Catalogue(p).price
  }

  datatype Status = PendingTrial | Active | Grace | Expired | Suspended

  datatype Sub = Sub(
    plan: Plan, pending: Option<Plan>, status: Status,
    started: Option<Time>, ends: Option<Time>, graceEnds: Option<Time>,
    quota: int, used: int)

  datatype Account = Account(balance: int, sub: Sub)

  /** Idempotency keys: of an automatic renewal, generated from a random id, or supplied
      by an administrator. An administrator may type the text of any key. */
  datatype Key = Renewal(user: User, epoch: int) | Generated(id: string) | Supplied(text: string)

  datatype Entry = Entry(user: User, amount: int, after: int, key: Key)

  /** `renewals` lists the period ends charged automatically; `graceBegan` when each
      user last entered grace. */
  datatype Bank = Bank(
    accounts: map<User, Account>,
    ledger: seq<Entry>,
    renewals: seq<(User, Time)>,
    graceBegan: map<User, Time>,
    clock: Time)

  const EMPTY := Bank(map[], [], [], map[], 0)

  // ---- Transactions -------------------------------------------------------

  predicate KeyUsed(ledger: seq<Entry>, key: Key)
  {
    exists i :: 0 <= i < |ledger| && ledger[i].key == key
  }

  /** Books an amount and stores the subscription; a zero amount or a used key violates a
      table constraint and rolls everything back. */
  function Book(b: Bank, u: User, amount: int, key: Key, sub: Sub): Bank
    requires u in b.accounts
  {
    if amount == 0 || KeyUsed(b.ledger, key) then b
    else
      var balance := b.accounts[u].balance + amount;
      b.(accounts := b.accounts[u := Account(balance, sub)], ledger := b.ledger + [Entry(u, amount, balance, key)])
  }

  function Extended(s: Sub, t: Time): Sub
  {
    var from := if s.ends.Some? && s.ends.value > t then s.ends.value else t;
    s.(pending := None, status := Active, ends := Some(from + Catalogue(s.plan).duration),
       graceEnds := None, quota := s.quota + Catalogue(s.plan).quota)
  }

  /** Cost and resulting subscription of a purchase that is neither an extension nor a
      scheduled downgrade. A running paid period is kept and prorated, even when it has lapsed. */
  function Purchase(s: Sub, next: Plan, t: Time): (int, Sub)
  {
    var used := if s.plan == TRIAL then 0 else s.used;
    if s.status == Active && s.ends.Some? && s.plan != TRIAL then
      var (cost, extra) := P.Prorate(Catalogue(s.plan), Catalogue(next), t, s.ends.value);
      var start := if s.started.Some? then s.started.value else t;
      (cost, Sub(next, None, Active, Some(start), s.ends, None, s.quota + extra, used))
    else
      (Price(next), Sub(next, None, Active, Some(t), Some(t + PAID_PERIOD), None, Catalogue(next).quota, used))
  }

  /** The same plan bought again while active. */
  function ExtendPlan(b: Bank, u: User, key: Key, t: Time): Bank
    requires u in b.accounts
  {
    var a := b.accounts[u];
    if a.balance < Price(a.sub.plan) then b else Book(b, u, -Price(a.sub.plan), key, Extended(a.sub, t))
  }

  /** A cheaper plan chosen while active takes effect at the next renewal. */
  function SchedulePlan(b: Bank, u: User, next: Plan): Bank
    requires u in b.accounts
  {
    var a := b.accounts[u];
    b.(accounts := b.accounts[u := a.(sub := a.sub.(pending := Some(next)))])
  }

  function BuyPlan(b: Bank, u: User, next: Plan, key: Key, t: Time): Bank
    requires u in b.accounts
  {
    var a := b.accounts[u];
    var (cost, sub) := Purchase(a.sub, next, t);
    if a.balance < cost then b else Book(b, u, -cost, key, sub)
  }

  function ChangePlan(b: Bank, u: User, next: Plan, key: Key, t: Time): Bank
  {
    if u !in b.accounts || next == TRIAL then b
    else
      var s := b.accounts[u].sub;
      if next == s.plan && s.status == Active then ExtendPlan(b, u, key, t)
      else if Price(next) < Price(s.plan) && s.status == Active then SchedulePlan(b, u, next)
      else BuyPlan(b, u, next, key, t)
  }

  predicate Int64(x: int)
  {
    -P.INT64_MAX - 1 <= x <= P.INT64_MAX
  }

  /** Two's-complement addition of 64-bit integers. */
  function Wrap(x: int): int
  {
    var m := 0x1_0000_0000_0000_0000;
    var r := x % m;
    if r > P.INT64_MAX then r - m else r
  }

  function CreditWallet(b: Bank, u: User, amount: int, key: Key): Bank
  {
    if u !in b.accounts || !Int64(amount) || amount <= 0 || !Int64(b.accounts[u].balance + amount) then b
    else Book(b, u, amount, key, b.accounts[u].sub)
  }

  function AdjustWallet(b: Bank, u: User, amount: int, key: Key): Bank
  {
    if u !in b.accounts || !Int64(amount) || amount == 0 then b
    else
      var updated := Wrap(b.accounts[u].balance + amount);
      if updated < 0 || KeyUsed(b.ledger, key) then b
      else b.(accounts := b.accounts[u := b.accounts[u].(balance := updated)],
              ledger := b.ledger + [Entry(u, amount, updated, key)])
  }

  function Register(b: Bank, u: User): Bank
  {
    if u in b.accounts then b
    else b.(accounts := b.accounts[u := Account(0, Sub(TRIAL, None, PendingTrial, None, None, None, 0, 0))])
  }

  /** First use of a device on a pending trial whose fingerprint is new. */
  function ActivateTrial(b: Bank, u: User, reused: bool, t: Time): Bank
  {
    if u !in b.accounts || reused then b
    else
      var a := b.accounts[u];
      if a.sub.plan != TRIAL || a.sub.status != PendingTrial then b
      else b.(accounts := b.accounts[u := a.(sub := a.sub.(status := Active, started := Some(t),
                                             ends := Some(t + TRIAL_PERIOD), quota := 20_000_000_000))])
  }

  function ReportUsage(b: Bank, u: User, bytes: int): Bank
  {
    if u !in b.accounts then b
    else
      var a := b.accounts[u];
      b.(accounts := b.accounts[u := a.(sub := a.sub.(used := a.sub.used + bytes))])
  }

  // ---- The lifecycle pass -------------------------------------------------

  function Target(s: Sub): Plan
  {
    if s.pending.Some? then s.pending.value else s.plan
  }

  predicate Due(a: Account, t: Time)
  {
    a.sub.plan != TRIAL && a.sub.status == Active && a.sub.ends.Some? && a.sub.ends.value <= t
      && a.balance >= Price(Target(a.sub))
  }

  /** extract(epoch ...)::bigint rounds to the nearest second. */
  function Epoch(t: Time): int
  {
    (t + SECOND / 2) / SECOND
  }

  function Renewed(s: Sub): Sub
    requires s.ends.Some?
  {
    Sub(Target(s), None, Active, s.ends, Some(s.ends.value + PAID_PERIOD), None, Catalogue(Target(s)).quota, 0)
  }

  /** The renewal of one user. The ledger row is dropped when its key exists. */
  function RenewOne(b: Bank, u: User, t: Time): Bank
  {
    if u !in b.accounts || !Due(b.accounts[u], t) then b
    else
      var a := b.accounts[u];
      var balance := a.balance - Price(Target(a.sub));
      var key := Renewal(u, Epoch(a.sub.ends.value));
      var row := if KeyUsed(b.ledger, key) then [] else [Entry(u, -Price(Target(a.sub)), balance, key)];
      b.(accounts := b.accounts[u := Account(balance, Renewed(a.sub))],
         ledger := b.ledger + row,
         renewals := b.renewals + [(u, a.sub.ends.value)])
  }

  function RenewAll(b: Bank, order: seq<User>, t: Time): Bank
    decreases |order|
  {
    if order == [] then b else RenewAll(RenewOne(b, order[0], t), order[1..], t)
  }

  predicate Lapsed(s: Sub, t: Time)
  {
    s.status == Active && s.ends.Some? && s.ends.value <= t
  }

  predicate EntersGrace(s: Sub, t: Time)
  {
    s.plan != TRIAL && Lapsed(s, t)
  }

  predicate GraceOver(s: Sub, t: Time)
  {
    s.status == Grace && s.graceEnds.Some? && s.graceEnds.value <= t
  }

  /** What the pass does to one subscription: expire, then grace, then suspend. */
  function Aged(s: Sub, t: Time): Sub
  {
    if s.plan == TRIAL && Lapsed(s, t) then s.(status := Expired)
    else if EntersGrace(s, t) then s.(status := Grace, graceEnds := Some(t + GRACE_PERIOD))
    else if GraceOver(s, t) then s.(status := Suspended)
    else s
  }

  function AgeAll(b: Bank, t: Time): Bank
  {
    b.(accounts := map u | u in b.accounts :: b.accounts[u].(sub := Aged(b.accounts[u].sub, t)),
       graceBegan := GraceBegan(b.accounts, b.graceBegan, t))
  }

  function GraceBegan(accounts: map<User, Account>, began: map<User, Time>, t: Time): map<User, Time>
  {
    map u | u in accounts && (u in began || EntersGrace(accounts[u].sub, t)) ::
      if EntersGrace(accounts[u].sub, t) || u !in began then t else began[u]
  }

  /** The rows of a set-wide update, in the order the database happens to visit them. */
  ghost predicate Visits(order: seq<User>, accounts: map<User, Account>)
  {
    && (forall u :: u in accounts ==> u in order)
    && (forall i, j :: 0 <= i < j < |order| ==> order[i] != order[j])
  }

  function Lifecycle(b: Bank, order: seq<User>, t: Time): Bank
  {
    AgeAll(RenewAll(b, order, t), t)
  }

  // ---- The control plane object ------------------------------------------

  class Billing {
    var accounts: map<User, Account>
    var ledger: seq<Entry>
    ghost var renewals: seq<(User, Time)>
    ghost var graceBegan: map<User, Time>
    ghost var clock: Time

    ghost function Value(): Bank
      reads this
    {
      Bank(accounts, ledger, renewals, graceBegan, clock)
    }

    constructor ()
      ensures Value() == EMPTY
    {
      accounts, ledger, renewals, graceBegan, clock := map[], [], [], map[], 0;
    }

    method InsertEntry(e: Entry) returns (ok: bool)
      modifies this`ledger
      ensures ok <==> e.amount != 0 && !KeyUsed(old(ledger), e.key)
      ensures ledger == if ok then old(ledger) + [e] else old(ledger)
    {
      if e.amount == 0 {
        return false;
      }
      var i := 0;
      while i < |ledger|
        invariant 0 <= i <= |ledger|
        invariant forall k :: 0 <= k < i ==> ledger[k].key != e.key
      {
        if ledger[i].key == e.key {
          return false;
        }
        i := i + 1;
      }
      ledger := ledger + [e];
      return true;
    }

    /** The balance and subscription updates of a plan change and their ledger row, or a rollback. */
    method Charge(u: User, cost: int, key: Key, sub: Sub) returns (ok: bool)
      requires u in accounts
      modifies this
      ensures Value() == Book(old(Value()), u, -cost, key, sub)
      ensures ok <==> cost != 0 && !KeyUsed(old(ledger), key)
    {
      var before := accounts;
      var newBalance := accounts[u].balance - cost;
      accounts := accounts[u := Account(newBalance, sub)];
      ok := InsertEntry(Entry(u, -cost, newBalance, key));
      if !ok {
        accounts := before;
      }
    }

    method ChangePlanRequest(u: User, next: Plan, key: Key, now: Time)
      modifies this
      ensures Value() == ChangePlan(old(Value()).(clock := now), u, next, key, now)
    {
      clock := now;
      if next == TRIAL || u !in accounts {
        return;
      }
      var s := accounts[u].sub;
      if next == s.plan && s.plan != TRIAL && s.status == Active {
        Extend(u, key, now);
      } else if Catalogue(next).price < Catalogue(s.plan).price && s.status == Active {
        accounts := accounts[u := Account(accounts[u].balance, s.(pending := Some(next)))];
      } else {
        Buy(u, next, key, now);
      }
    }

    method Extend(u: User, key: Key, now: Time)
      requires u in accounts
      modifies this
      ensures Value() == ExtendPlan(old(Value()), u, key, now)
    {
      var s := accounts[u].sub;
      var terms := Catalogue(s.plan);
      if accounts[u].balance < terms.price {
        return;
      }
      var periodEnd := now;
      if s.ends.Some? && s.ends.value > now {
        periodEnd := s.ends.value;
      }
      periodEnd := periodEnd + terms.duration;
      var _ := Charge(u, terms.price, key,
                      Sub(s.plan, None, Active, s.started, Some(periodEnd), None, s.quota + terms.quota, s.used));
    }

    method Buy(u: User, next: Plan, key: Key, now: Time)
      requires u in accounts
      modifies this
      ensures Value() == BuyPlan(old(Value()), u, next, key, now)
    {
      var cost, sub := Quote(accounts[u].sub, next, now);
      if accounts[u].balance < cost {
        return;
      }
      var _ := Charge(u, cost, key, sub);
    }

    static method Quote(s: Sub, next: Plan, now: Time) returns (cost: int, sub: Sub)
      ensures (cost, sub) == Purchase(s, next, now)
    {
      var quota := Catalogue(next).quota;
      cost := Catalogue(next).price;
      var periodStart, periodEnd := now, now + PAID_PERIOD;
      if s.status == Active && s.ends.Some? && s.plan != TRIAL {
        var prorated := P.Prorate(Catalogue(s.plan), Catalogue(next), now, s.ends.value);
        cost, quota := prorated.0, s.quota + prorated.1;
        if s.started.Some? {
          periodStart := s.started.value;
        }
        periodEnd := s.ends.value;
      }
      var used := if s.plan == TRIAL then 0 else s.used;
      sub := Sub(next, None, Active, Some(periodStart), Some(periodEnd), None, quota, used);
    }

    method AdjustWalletRequest(u: User, amount: int, key: Key, now: Time)
      modifies this
      ensures Value() == AdjustWallet(old(Value()).(clock := now), u, amount, key)
    {
      clock := now;
      if !Int64(amount) || amount == 0 || u !in accounts {
        return;
      }
      var updated := Wrap(accounts[u].balance + amount);
      if updated < 0 {
        return;
      }
      var before := accounts;
      accounts := accounts[u := Account(updated, accounts[u].sub)];
      var ok := InsertEntry(Entry(u, amount, updated, key));
      if !ok {
        accounts := before;
      }
    }

    method CreditWalletRequest(u: User, amount: int, key: Key, now: Time)
      modifies this
      ensures Value() == CreditWallet(old(Value()).(clock := now), u, amount, key)
    {
      clock := now;
      if !Int64(amount) || amount <= 0 || u !in accounts || !Int64(accounts[u].balance + amount) {
        return;
      }
      var before := accounts;
      var balance := accounts[u].balance + amount;
      accounts := accounts[u := Account(balance, accounts[u].sub)];
      var ok := InsertEntry(Entry(u, amount, balance, key));
      if !ok {
        accounts := before;
      }
    }

    /** First use of a device binds it and starts a pending trial. */
    method FirstUseRequest(u: User, reused: bool, now: Time)
      modifies this
      ensures Value() == ActivateTrial(old(Value()).(clock := now), u, reused, now)
    {
      clock := now;
      if u !in accounts {
        return;
      }
      var s := accounts[u].sub;
      if s.plan == TRIAL && s.status == PendingTrial {
        if reused {
          return;
        }
        accounts := accounts[u := Account(accounts[u].balance,
                             s.(status := Active, started := Some(now), ends := Some(now + TRIAL_PERIOD), quota := 20_000_000_000))];
      }
    }

    /** The WITH query: debit, renew and book each due user in the order visited. */
    method RenewDue(order: seq<User>, now: Time)
      modifies this
      ensures Value() == RenewAll(old(Value()), order, now)
    {
      var i := 0;
      assert order[0..] == order;
      while i < |order|
        invariant 0 <= i <= |order|
        invariant RenewAll(Value(), order[i..], now) == RenewAll(old(Value()), order, now)
      {
        assert order[i..][1..] == order[i + 1..];
        RenewUser(order[i], now);
        i := i + 1;
      }
    }

    method RenewUser(u: User, now: Time)
      modifies this
      ensures Value() == RenewOne(old(Value()), u, now)
    {
      if u !in accounts {
        return;
      }
      var a := accounts[u];
      var target := if a.sub.pending.Some? then a.sub.pending.value else a.sub.plan;
      var price, quota := Catalogue(target).price, Catalogue(target).quota;
      if a.sub.plan == TRIAL || a.sub.status != Active || a.sub.ends.None? || a.sub.ends.value > now || a.balance < price {
        return;
      }
      var end := a.sub.ends.value;
      accounts := accounts[u := Account(a.balance - price,
                           Sub(target, None, Active, Some(end), Some(end + PAID_PERIOD), None, quota, 0))];
      renewals := renewals + [(u, end)];
      var key := Renewal(u, Epoch(end));
      if !KeyUsed(ledger, key) {
        ledger := ledger + [Entry(u, -price, a.balance - price, key)];
      }
    }

    /** The three updates that follow the renewals. */
    method AgeSubscriptions(now: Time)
      modifies this
      ensures Value() == AgeAll(old(Value()), now)
    {
      graceBegan := GraceBegan(accounts, graceBegan, now);
      AllCompose(accounts, now);
      accounts := ExpireTrials(accounts, now);
      accounts := EnterGraceAll(accounts, now);
      accounts := SuspendAll(accounts, now);
    }

    method SubscriptionLifecycle(order: seq<User>, now: Time)
      modifies this
      ensures Value() == Lifecycle(old(Value()).(clock := now), order, now)
    {
      clock := now;
      RenewDue(order, now);
      AgeSubscriptions(now);
    }
  }

  // The three UPDATE statements, on one row and on the table.
  function ExpireTrial(a: Account, t: Time): Account
  {
    if a.sub.plan == TRIAL && Lapsed(a.sub, t) then a.(sub := a.sub.(status := Expired)) else a
  }

  function EnterGrace(a: Account, t: Time): Account
  {
    if EntersGrace(a.sub, t) then a.(sub := a.sub.(status := Grace, graceEnds := Some(t + GRACE_PERIOD))) else a
  }

  function Suspend(a: Account, t: Time): Account
  {
    if GraceOver(a.sub, t) then a.(sub := a.sub.(status := Suspended)) else a
  }

  function ExpireTrials(accounts: map<User, Account>, t: Time): map<User, Account>
  {
    map u | u in accounts :: ExpireTrial(accounts[u], t)
  }

  function EnterGraceAll(accounts: map<User, Account>, t: Time): map<User, Account>
  {
    map u | u in accounts :: EnterGrace(accounts[u], t)
  }

  function SuspendAll(accounts: map<User, Account>, t: Time): map<User, Account>
  {
    map u | u in accounts :: Suspend(accounts[u], t)
  }

  lemma AllCompose(accounts: map<User, Account>, t: Time)
    ensures SuspendAll(EnterGraceAll(ExpireTrials(accounts, t), t), t)
            == map u | u in accounts :: accounts[u].(sub := Aged(accounts[u].sub, t))
  {
    var expired := ExpireTrials(accounts, t);
    var grace := EnterGraceAll(expired, t);
    forall u | u in accounts
      ensures SuspendAll(grace, t)[u] == accounts[u].(sub := Aged(accounts[u].sub, t))
    {
      UpdatesCompose(accounts[u], t);
    }
  }

  /** Run one after the other, the updates do what Aged says: in particular a
      subscription that enters grace in a pass is not suspended by it. */
  lemma UpdatesCompose(a: Account, t: Time)
    ensures Suspend(EnterGrace(ExpireTrial(a, t), t), t) == a.(sub := Aged(a.sub, t))
  {
  }
}
