/** What every run of wallet, plan and lifecycle transactions keeps. */
module SubscriptionRuns {
  import opened Options
  import P = Proration
  import opened Subscriptions

  // ---- Runs ---------------------------------------------------------------

  datatype Action =
    | SignUp(u: User, t: Time)
    | Change(u: User, next: Plan, id: string, t: Time)
    | Credit(u: User, amount: int, key: Key, t: Time)
    | Adjust(u: User, amount: int, id: string, t: Time)
    | FirstUse(u: User, reused: bool, t: Time)
    | Usage(u: User, bytes: int, t: Time)
    | Pass(order: seq<User>, t: Time)

  function Apply(b: Bank, a: Action): Bank
  {
    match a
    case SignUp(u, _) => Register(b, u)
    case Change(u, next, id, t) => ChangePlan(b, u, next, Generated(id), t)
    case Credit(u, amount, key, _) => CreditWallet(b, u, amount, key)
    case Adjust(u, amount, id, _) => AdjustWallet(b, u, amount, Generated(id))
    case FirstUse(u, reused, t) => ActivateTrial(b, u, reused, t)
    case Usage(u, bytes, _) => ReportUsage(b, u, bytes)
    case Pass(order, t) => Lifecycle(b, order, t)
  }

  ghost function Step(b: Bank, a: Action): Bank
  {
    if a.t < b.clock || (a.Pass? && !Visits(a.order, b.accounts)) then b
    else Apply(b.(clock := a.t), a)
  }

  ghost function Run(b: Bank, run: seq<Action>): Bank
    decreases |run|
  {
    if run == [] then b else Run(Step(b, run[0]), run[1..])
  }

  /** No administrator typed a key of the automatic-renewal form. */
  ghost predicate Honest(run: seq<Action>)
  {
    forall i :: 0 <= i < |run| && run[i].Credit? ==> !run[i].key.Renewal?
  }

  // ---- Invariant ----------------------------------------------------------

  function SumFor(ledger: seq<Entry>, u: User): int
  {
    if ledger == [] then 0
    else SumFor(ledger[..|ledger| - 1], u)
         + if ledger[|ledger| - 1].user == u then ledger[|ledger| - 1].amount else 0
  }

  /** The wallet holds what the ledger says, and is never negative. */
  ghost predicate Funded(b: Bank, u: User)
    requires u in b.accounts
  {
    0 <= b.accounts[u].balance <= P.INT64_MAX && b.accounts[u].balance == SumFor(b.ledger, u)
  }

  /** A ledger row shows the balance of its user up to and including itself. */
  ghost predicate EntryOk(b: Bank, i: nat)
    requires i < |b.ledger|
  {
    var e := b.ledger[i];
    e.user in b.accounts && e.amount != 0 && e.after == SumFor(b.ledger[..i + 1], e.user) >= 0
  }

  ghost predicate Reconciled(b: Bank)
  {
    && (forall u :: u in b.accounts ==> Funded(b, u))
    && (forall i :: 0 <= i < |b.ledger| ==> EntryOk(b, i))
  }

  /** The states a subscription can be in. */
  predicate SubOk(s: Sub, clock: Time)
  {
    && (s.pending.Some? ==> s.pending.value != TRIAL && Price(s.pending.value) < Price(s.plan))
    && match s.status
       case PendingTrial => s.plan == TRIAL && s.ends.None? && s.graceEnds.None?
       case Active =>
         s.ends.Some? && s.graceEnds.None? && (s.plan == TRIAL ==> s.ends.value <= clock + TRIAL_PERIOD)
       case Grace => s.plan != TRIAL && s.ends.Some? && s.ends.value <= clock && s.graceEnds.Some?
       case Expired => s.plan == TRIAL && s.ends.Some? && s.ends.value <= clock && s.graceEnds.None?
       case Suspended =>
         s.plan != TRIAL && s.ends.Some? && s.ends.value <= clock && s.graceEnds.Some? && s.graceEnds.value <= clock
  }

  /** A grace deadline is 24 hours after grace began. */
  ghost predicate GraceOk(b: Bank, u: User)
    requires u in b.accounts
  {
    b.accounts[u].sub.graceEnds.Some? ==>
      u in b.graceBegan && b.accounts[u].sub.graceEnds.value == b.graceBegan[u] + GRACE_PERIOD
  }

  /** After an automatic charge for a period end, the next end is at least 30 days later. */
  ghost predicate RenewalOk(b: Bank, i: nat)
    requires i < |b.renewals|
  {
    var (u, end) := b.renewals[i];
    && u in b.accounts && end <= b.clock
    && b.accounts[u].sub.plan != TRIAL
    && b.accounts[u].sub.ends.Some? && b.accounts[u].sub.ends.value >= end + PAID_PERIOD
  }

  ghost predicate Spaced(renewals: seq<(User, Time)>)
  {
    forall i, j :: 0 <= i < j < |renewals| && renewals[i].0 == renewals[j].0 ==>
      renewals[j].1 >= renewals[i].1 + PAID_PERIOD
  }

  ghost predicate KeyKnown(b: Bank, key: Key)
  {
    key.Renewal? ==> exists k :: 0 <= k < |b.renewals| && b.renewals[k].0 == key.user && Epoch(b.renewals[k].1) == key.epoch
  }

  ghost predicate RowsOk(b: Bank)
  {
    && (forall u :: u in b.accounts ==> SubOk(b.accounts[u].sub, b.clock))
    && (forall u :: u in b.accounts ==> GraceOk(b, u))
  }

  ghost predicate ChargesOk(b: Bank)
  {
    && (forall i :: 0 <= i < |b.renewals| ==> RenewalOk(b, i))
    && Spaced(b.renewals)
  }

  ghost predicate KeysOk(b: Bank)
  {
    && (forall i :: 0 <= i < |b.ledger| ==> KeyKnown(b, b.ledger[i].key))
    && (forall i, j :: 0 <= i < j < |b.ledger| ==> b.ledger[i].key != b.ledger[j].key)
  }

  ghost predicate Inv(b: Bank)
  {
    Reconciled(b) && RowsOk(b) && ChargesOk(b) && KeysOk(b)
  }

  // ---- Money --------------------------------------------------------------

  lemma SumForPush(ledger: seq<Entry>, e: Entry, u: User)
    ensures SumFor(ledger + [e], u) == SumFor(ledger, u) + if e.user == u then e.amount else 0
  {
    assert (ledger + [e])[..|ledger|] == ledger;
  }

  /** Booking an entry that matches the balance change keeps the books. */
  lemma PushReconciled(b: Bank, b': Bank, u: User, e: Entry)
    requires Reconciled(b) && u in b.accounts
    requires b'.ledger == b.ledger + [e] && b'.accounts.Keys == b.accounts.Keys
    requires forall v :: v in b.accounts && v != u ==> b'.accounts[v].balance == b.accounts[v].balance
    requires e.user == u && e.amount != 0 && e.after == b'.accounts[u].balance == b.accounts[u].balance + e.amount
    requires 0 <= e.after <= P.INT64_MAX
    ensures Reconciled(b')
  {
    forall v | v in b'.accounts
      ensures Funded(b', v)
    {
      assert Funded(b, v);
      SumForPush(b.ledger, e, v);
    }
    forall i | 0 <= i < |b'.ledger|
      ensures EntryOk(b', i)
    {
      if i < |b.ledger| {
        assert EntryOk(b, i);
        assert b'.ledger[..i + 1] == b.ledger[..i + 1];
      } else {
        assert b'.ledger[..i + 1] == b'.ledger;
        assert Funded(b, u);
        SumForPush(b.ledger, e, u);
      }
    }
  }

  lemma SameMoney(b: Bank, b': Bank)
    requires Reconciled(b) && b'.ledger == b.ledger && b'.accounts.Keys == b.accounts.Keys
    requires forall v :: v in b.accounts ==> b'.accounts[v].balance == b.accounts[v].balance
    ensures Reconciled(b')
  {
    forall v | v in b'.accounts
      ensures Funded(b', v)
    {
      assert Funded(b, v);
    }
    forall i | 0 <= i < |b'.ledger|
      ensures EntryOk(b', i)
    {
      assert EntryOk(b, i);
    }
  }

  // ---- Rows, charges and keys --------------------------------------------

  /** A subscription may be replaced by one that is no trial again and ends no earlier,
      or at least a paid period from now. */
  predicate Follows(s: Sub, s': Sub, t: Time)
  {
    && (s.plan != TRIAL ==> s'.plan != TRIAL)
    && (s.plan != TRIAL && s.ends.Some? ==>
          s'.ends.Some? && (s'.ends.value >= s.ends.value || s'.ends.value >= t + PAID_PERIOD))
  }

  lemma ReplaceRow(b: Bank, b': Bank, u: User)
    requires RowsOk(b) && ChargesOk(b) && u in b.accounts
    requires b'.accounts.Keys == b.accounts.Keys && b'.renewals == b.renewals && b'.clock == b.clock
    requires b'.graceBegan == b.graceBegan
    requires forall v :: v in b.accounts && v != u ==> b'.accounts[v] == b.accounts[v]
    requires SubOk(b'.accounts[u].sub, b.clock) && Follows(b.accounts[u].sub, b'.accounts[u].sub, b.clock)
    requires b'.accounts[u].sub.graceEnds == b.accounts[u].sub.graceEnds || b'.accounts[u].sub.graceEnds.None?
    ensures RowsOk(b') && ChargesOk(b')
  {
    forall v | v in b'.accounts
      ensures SubOk(b'.accounts[v].sub, b'.clock) && GraceOk(b', v)
    {
      assert GraceOk(b, v);
    }
    forall i | 0 <= i < |b'.renewals|
      ensures RenewalOk(b', i)
    {
      assert RenewalOk(b, i);
    }
  }

  lemma PushKey(b: Bank, b': Bank, e: Entry)
    requires KeysOk(b) && b'.ledger == b.ledger + [e] && b'.renewals == b.renewals
    requires !e.key.Renewal? && !KeyUsed(b.ledger, e.key)
    ensures KeysOk(b')
  {
    forall i | 0 <= i < |b'.ledger|
      ensures KeyKnown(b', b'.ledger[i].key)
    {
      if i < |b.ledger| {
        assert KeyKnown(b, b.ledger[i].key);
      }
    }
  }

  lemma SameKeys(b: Bank, b': Bank)
    requires KeysOk(b) && b'.ledger == b.ledger && b'.renewals == b.renewals
    ensures KeysOk(b')
  {
    forall i | 0 <= i < |b'.ledger|
      ensures KeyKnown(b', b'.ledger[i].key)
    {
      assert KeyKnown(b, b.ledger[i].key);
    }
  }

  lemma BookOk(b: Bank, u: User, amount: int, key: Key, sub: Sub)
    requires Inv(b) && u in b.accounts && !key.Renewal?
    requires 0 <= b.accounts[u].balance + amount <= P.INT64_MAX
    requires SubOk(sub, b.clock) && Follows(b.accounts[u].sub, sub, b.clock)
    requires sub.graceEnds == b.accounts[u].sub.graceEnds || sub.graceEnds.None?
    ensures Inv(Book(b, u, amount, key, sub))
  {
    var b' := Book(b, u, amount, key, sub);
    if amount != 0 && !KeyUsed(b.ledger, key) {
      var e := Entry(u, amount, b.accounts[u].balance + amount, key);
      PushReconciled(b, b', u, e);
      ReplaceRow(b, b', u);
      PushKey(b, b', e);
    }
  }

  /** Changes of one subscription that move no money. */
  lemma RowOnlyOk(b: Bank, u: User, sub: Sub)
    requires Inv(b) && u in b.accounts
    requires SubOk(sub, b.clock) && Follows(b.accounts[u].sub, sub, b.clock)
    requires sub.graceEnds == b.accounts[u].sub.graceEnds || sub.graceEnds.None?
    ensures Inv(b.(accounts := b.accounts[u := b.accounts[u].(sub := sub)]))
  {
    var b' := b.(accounts := b.accounts[u := b.accounts[u].(sub := sub)]);
    SameMoney(b, b');
    ReplaceRow(b, b', u);
    SameKeys(b, b');
  }

  lemma PriceFacts(p: Plan)
    ensures 0 <= Price(p) <= 49_900 && (Price(p) == 0 <==> p == TRIAL)
    ensures Catalogue(p).duration >= SECOND && (p != TRIAL ==> Catalogue(p).duration == PAID_PERIOD)
  {
  }

  lemma PurchaseOk(s: Sub, next: Plan, t: Time)
    requires SubOk(s, t) && next != TRIAL && !(Price(next) < Price(s.plan) && s.status == Active)
    ensures var (cost, sub) := Purchase(s, next, t);
            cost >= 0 && SubOk(sub, t) && Follows(s, sub, t) && sub.graceEnds.None?
  {
    PriceFacts(s.plan);
    PriceFacts(next);
    if s.status == Active && s.ends.Some? && s.plan != TRIAL && t < s.ends.value {
      P.ProrateWithin(Catalogue(s.plan), Catalogue(next), t, s.ends.value);
    }
  }

  lemma ExtendOk(b: Bank, u: User, key: Key)
    requires Inv(b) && u in b.accounts && !key.Renewal? && b.accounts[u].sub.plan != TRIAL
    ensures Inv(ExtendPlan(b, u, key, b.clock))
  {
    var a := b.accounts[u];
    assert SubOk(a.sub, b.clock) && Funded(b, u);
    PriceFacts(a.sub.plan);
    if a.balance >= Price(a.sub.plan) {
      BookOk(b, u, -Price(a.sub.plan), key, Extended(a.sub, b.clock));
    }
  }

  lemma BuyOk(b: Bank, u: User, next: Plan, key: Key)
    requires Inv(b) && u in b.accounts && !key.Renewal? && next != TRIAL
    requires !(Price(next) < Price(b.accounts[u].sub.plan) && b.accounts[u].sub.status == Active)
    ensures Inv(BuyPlan(b, u, next, key, b.clock))
  {
    var a := b.accounts[u];
    assert SubOk(a.sub, b.clock) && Funded(b, u);
    PurchaseOk(a.sub, next, b.clock);
    var (cost, sub) := Purchase(a.sub, next, b.clock);
    if a.balance >= cost {
      BookOk(b, u, -cost, key, sub);
    }
  }

  lemma ScheduleOk(b: Bank, u: User, next: Plan)
    requires Inv(b) && u in b.accounts && next != TRIAL && Price(next) < Price(b.accounts[u].sub.plan)
    ensures Inv(SchedulePlan(b, u, next))
  {
    var s := b.accounts[u].sub;
    assert SubOk(s, b.clock);
    RowOnlyOk(b, u, s.(pending := Some(next)));
  }

  lemma ChangePlanOk(b: Bank, u: User, next: Plan, id: string)
    requires Inv(b)
    ensures Inv(ChangePlan(b, u, next, Generated(id), b.clock))
  {
    if u in b.accounts && next != TRIAL {
      var s := b.accounts[u].sub;
      if next == s.plan && s.status == Active {
        ExtendOk(b, u, Generated(id));
      } else if Price(next) < Price(s.plan) && s.status == Active {
        ScheduleOk(b, u, next);
      } else {
        BuyOk(b, u, next, Generated(id));
      }
    }
  }

  lemma CreditOk(b: Bank, u: User, amount: int, key: Key)
    requires Inv(b) && !key.Renewal?
    ensures Inv(CreditWallet(b, u, amount, key))
  {
    if u in b.accounts {
      assert Funded(b, u) && SubOk(b.accounts[u].sub, b.clock);
      if Int64(amount) && amount > 0 && Int64(b.accounts[u].balance + amount) {
        BookOk(b, u, amount, key, b.accounts[u].sub);
      }
    }
  }

  /** An adjustment that overflows 64 bits wraps to a negative balance and is refused, so an
      accepted one books the exact sum. */
  lemma AdjustExact(balance: int, amount: int)
    requires 0 <= balance <= P.INT64_MAX && Int64(amount)
    ensures Wrap(balance + amount) >= 0 <==> 0 <= balance + amount <= P.INT64_MAX
    ensures Wrap(balance + amount) >= 0 ==> Wrap(balance + amount) == balance + amount
  {
  }

  lemma AdjustIsBook(b: Bank, u: User, amount: int, key: Key)
    requires u in b.accounts && Int64(amount) && amount != 0 && 0 <= b.accounts[u].balance <= P.INT64_MAX
    ensures AdjustWallet(b, u, amount, key)
            == if 0 <= b.accounts[u].balance + amount <= P.INT64_MAX then Book(b, u, amount, key, b.accounts[u].sub) else b
  {
    AdjustExact(b.accounts[u].balance, amount);
    var a := b.accounts[u];
    assert a.(balance := a.balance + amount) == Account(a.balance + amount, a.sub);
  }

  lemma AdjustOk(b: Bank, u: User, amount: int, id: string)
    requires Inv(b)
    ensures Inv(AdjustWallet(b, u, amount, Generated(id)))
  {
    if u in b.accounts && Int64(amount) && amount != 0 {
      assert Funded(b, u) && SubOk(b.accounts[u].sub, b.clock);
      AdjustIsBook(b, u, amount, Generated(id));
      if 0 <= b.accounts[u].balance + amount <= P.INT64_MAX {
        BookOk(b, u, amount, Generated(id), b.accounts[u].sub);
      }
    }
  }

  lemma RegisterOk(b: Bank, u: User)
    requires Inv(b) && u !in b.accounts
    ensures Inv(Register(b, u))
  {
    var b' := Register(b, u);
    NoEntries(b, u, |b.ledger|);
    assert b.ledger[..|b.ledger|] == b.ledger;
    forall v | v in b'.accounts
      ensures Funded(b', v) && SubOk(b'.accounts[v].sub, b'.clock) && GraceOk(b', v)
    {
      if v != u {
        assert Funded(b, v) && SubOk(b.accounts[v].sub, b.clock) && GraceOk(b, v);
      }
    }
    forall i | 0 <= i < |b'.ledger|
      ensures EntryOk(b', i)
    {
      assert EntryOk(b, i);
    }
    forall i | 0 <= i < |b'.renewals|
      ensures RenewalOk(b', i)
    {
      assert RenewalOk(b, i);
    }
    SameKeys(b, b');
  }

  lemma {:induction false} NoEntries(b: Bank, u: User, n: nat)
    requires Reconciled(b) && u !in b.accounts && n <= |b.ledger|
    ensures SumFor(b.ledger[..n], u) == 0
  {
    if n > 0 {
      NoEntries(b, u, n - 1);
      assert EntryOk(b, n - 1);
      assert b.ledger[..n][..n - 1] == b.ledger[..n - 1];
    }
  }

  // ---- The lifecycle pass -------------------------------------------------

  /** Ends 30 days apart never share a renewal key. */
  lemma EpochsDiffer(e: Time, f: Time)
    requires f >= e + PAID_PERIOD
    ensures Epoch(e) != Epoch(f)
  {
  }

  /** ON CONFLICT DO NOTHING never drops a renewal entry: the key of a due renewal is new. */
  lemma RenewalKeyFresh(b: Bank, u: User)
    requires ChargesOk(b) && KeysOk(b) && u in b.accounts && b.accounts[u].sub.ends.Some?
    ensures !KeyUsed(b.ledger, Renewal(u, Epoch(b.accounts[u].sub.ends.value)))
  {
    var key := Renewal(u, Epoch(b.accounts[u].sub.ends.value));
    forall i | 0 <= i < |b.ledger|
      ensures b.ledger[i].key != key
    {
      assert KeyKnown(b, b.ledger[i].key);
      if b.ledger[i].key.Renewal? && b.ledger[i].key.user == u {
        var k :| 0 <= k < |b.renewals| && b.renewals[k].0 == u && Epoch(b.renewals[k].1) == b.ledger[i].key.epoch;
        assert RenewalOk(b, k);
        EpochsDiffer(b.renewals[k].1, b.accounts[u].sub.ends.value);
      }
    }
  }

  lemma RenewCharges(b: Bank, u: User)
    requires Inv(b) && u in b.accounts && Due(b.accounts[u], b.clock)
    ensures ChargesOk(RenewOne(b, u, b.clock))
  {
    var b' := RenewOne(b, u, b.clock);
    var end := b.accounts[u].sub.ends.value;
    assert SubOk(b.accounts[u].sub, b.clock);
    forall i | 0 <= i < |b'.renewals|
      ensures RenewalOk(b', i)
    {
      if i < |b.renewals| {
        assert b'.renewals[i] == b.renewals[i] && RenewalOk(b, i);
      } else {
        assert b'.renewals[i] == (u, end);
      }
    }
    forall i, j | 0 <= i < j < |b'.renewals| && b'.renewals[i].0 == b'.renewals[j].0
      ensures b'.renewals[j].1 >= b'.renewals[i].1 + PAID_PERIOD
    {
      assert b'.renewals[i] == b.renewals[i];
      if j == |b.renewals| {
        assert RenewalOk(b, i);
      } else {
        assert b'.renewals[j] == b.renewals[j];
      }
    }
  }

  lemma RenewRows(b: Bank, u: User)
    requires RowsOk(b) && u in b.accounts && Due(b.accounts[u], b.clock)
    ensures RowsOk(RenewOne(b, u, b.clock))
  {
    var b' := RenewOne(b, u, b.clock);
    forall v | v in b'.accounts
      ensures SubOk(b'.accounts[v].sub, b'.clock) && GraceOk(b', v)
    {
      assert SubOk(b.accounts[v].sub, b.clock) && GraceOk(b, v);
    }
  }

  lemma RenewKeys(b: Bank, u: User)
    requires Inv(b) && u in b.accounts && Due(b.accounts[u], b.clock)
    ensures KeysOk(RenewOne(b, u, b.clock))
  {
    var b' := RenewOne(b, u, b.clock);
    var end := b.accounts[u].sub.ends.value;
    RenewalKeyFresh(b, u);
    assert b'.renewals[|b.renewals|] == (u, end);
    forall i | 0 <= i < |b'.ledger|
      ensures KeyKnown(b', b'.ledger[i].key)
    {
      if i < |b.ledger| {
        assert KeyKnown(b, b.ledger[i].key);
        if b.ledger[i].key.Renewal? {
          var k :| 0 <= k < |b.renewals| && b.renewals[k].0 == b.ledger[i].key.user
                   && Epoch(b.renewals[k].1) == b.ledger[i].key.epoch;
          assert b'.renewals[k] == b.renewals[k];
        }
      }
    }
  }

  lemma RenewOk(b: Bank, u: User)
    requires Inv(b)
    ensures Inv(RenewOne(b, u, b.clock))
  {
    if u in b.accounts && Due(b.accounts[u], b.clock) {
      var b' := RenewOne(b, u, b.clock);
      var a := b.accounts[u];
      assert SubOk(a.sub, b.clock) && Funded(b, u);
      PriceFacts(Target(a.sub));
      RenewalKeyFresh(b, u);
      PushReconciled(b, b', u, b'.ledger[|b.ledger|]);
      RenewRows(b, u);
      RenewCharges(b, u);
      RenewKeys(b, u);
    }
  }

  lemma {:induction false} RenewAllOk(b: Bank, order: seq<User>)
    requires Inv(b)
    ensures Inv(RenewAll(b, order, b.clock)) && RenewAll(b, order, b.clock).clock == b.clock
    decreases |order|
  {
    if order != [] {
      RenewOk(b, order[0]);
      RenewAllOk(RenewOne(b, order[0], b.clock), order[1..]);
    }
  }

  lemma AgedOk(s: Sub, t: Time)
    requires SubOk(s, t)
    ensures SubOk(Aged(s, t), t) && Follows(s, Aged(s, t), t) && !Lapsed(Aged(s, t), t)
    ensures Aged(s, t).graceEnds == (if EntersGrace(s, t) then Some(t + GRACE_PERIOD) else s.graceEnds)
  {
  }

  lemma AgeAllOk(b: Bank)
    requires Inv(b)
    ensures Inv(AgeAll(b, b.clock))
  {
    var b' := AgeAll(b, b.clock);
    SameMoney(b, b');
    forall u | u in b'.accounts
      ensures SubOk(b'.accounts[u].sub, b'.clock) && GraceOk(b', u)
    {
      AgedOk(b.accounts[u].sub, b.clock);
      assert GraceOk(b, u);
    }
    forall i | 0 <= i < |b'.renewals|
      ensures RenewalOk(b', i)
    {
      assert RenewalOk(b, i);
      AgedOk(b.accounts[b.renewals[i].0].sub, b.clock);
    }
    SameKeys(b, b');
  }

  // ---- Every run ----------------------------------------------------------

  lemma TickOk(b: Bank, t: Time)
    requires Inv(b) && t >= b.clock
    ensures Inv(b.(clock := t))
  {
    var b' := b.(clock := t);
    SameMoney(b, b');
    forall u | u in b'.accounts
      ensures SubOk(b'.accounts[u].sub, t) && GraceOk(b', u)
    {
      assert SubOk(b.accounts[u].sub, b.clock) && GraceOk(b, u);
    }
    forall i | 0 <= i < |b'.renewals|
      ensures RenewalOk(b', i)
    {
      assert RenewalOk(b, i);
    }
    SameKeys(b, b');
  }

  lemma UsageOk(b: Bank, u: User, bytes: int)
    requires Inv(b) && u in b.accounts
    ensures Inv(ReportUsage(b, u, bytes))
  {
    var s := b.accounts[u].sub;
    assert SubOk(s, b.clock);
    RowOnlyOk(b, u, s.(used := s.used + bytes));
  }

  lemma FirstUseOk(b: Bank, u: User)
    requires Inv(b) && u in b.accounts
    ensures Inv(ActivateTrial(b, u, false, b.clock))
  {
    var s := b.accounts[u].sub;
    assert SubOk(s, b.clock);
    if s.plan == TRIAL && s.status == PendingTrial {
      RowOnlyOk(b, u, s.(status := Active, started := Some(b.clock),
                         ends := Some(b.clock + TRIAL_PERIOD), quota := 20_000_000_000));
    }
  }

  lemma StepOk(b: Bank, a: Action)
    requires Inv(b) && (a.Credit? ==> !a.key.Renewal?)
    ensures Inv(Step(b, a))
  {
    if a.t >= b.clock && (a.Pass? ==> Visits(a.order, b.accounts)) {
      var c := b.(clock := a.t);
      TickOk(b, a.t);
      match a
      case SignUp(u, _) => if u !in c.accounts { RegisterOk(c, u); }
      case Change(u, next, id, t) => ChangePlanOk(c, u, next, id);
      case Credit(u, amount, key, _) => CreditOk(c, u, amount, key);
      case Adjust(u, amount, id, _) => AdjustOk(c, u, amount, id);
      case FirstUse(u, reused, _) => if u in c.accounts && !reused { FirstUseOk(c, u); }
      case Usage(u, bytes, _) => if u in c.accounts { UsageOk(c, u, bytes); }
      case Pass(order, t) =>
        RenewAllOk(c, order);
        AgeAllOk(RenewAll(c, order, t));
    }
  }

  lemma {:induction false} RunOk(b: Bank, run: seq<Action>)
    requires Inv(b) && Honest(run)
    ensures Inv(Run(b, run))
    decreases |run|
  {
    if run != [] {
      StepOk(b, run[0]);
      RunOk(Step(b, run[0]), run[1..]);
    }
  }

  /** Ledger reconciliation: in every reachable state each wallet is non-negative and equals
      the sum of its ledger rows, every row shows the matching prefix sum, and no key repeats. */
  lemma LedgerReconciles(run: seq<Action>)
    requires Honest(run)
    ensures Reconciled(Run(EMPTY, run)) && KeysOk(Run(EMPTY, run))
  {
    RunOk(EMPTY, run);
  }

  /** Renewal spacing: a user's automatic charges are for period ends at least 30 days apart. */
  lemma RenewalsSpaced(run: seq<Action>)
    requires Honest(run)
    ensures Spaced(Run(EMPTY, run).renewals)
  {
    RunOk(EMPTY, run);
  }

  /** The subscription machine: every reachable row is in one of the allowed states, and a
      suspended one was in grace for at least 24 hours. */
  lemma SubscriptionMachine(run: seq<Action>, u: User)
    requires Honest(run) && u in Run(EMPTY, run).accounts
    ensures var b := Run(EMPTY, run);
            && SubOk(b.accounts[u].sub, b.clock)
            && (b.accounts[u].sub.status == Suspended ==> u in b.graceBegan && b.clock >= b.graceBegan[u] + GRACE_PERIOD)
            && (b.accounts[u].sub.status == Grace ==>
                  u in b.graceBegan && b.accounts[u].sub.graceEnds == Some(b.graceBegan[u] + GRACE_PERIOD))
  {
    RunOk(EMPTY, run);
    assert GraceOk(Run(EMPTY, run), u);
  }

  // ---- Only forward -------------------------------------------------------

  /** No return to the trial, and no earlier end of the period. */
  predicate NoWayBack(s: Sub, s': Sub)
  {
    && (s.plan != TRIAL ==> s'.plan != TRIAL)
    && (s.status != PendingTrial ==> s'.status != PendingTrial)
    && (s.ends.Some? ==> s'.ends.Some? && s'.ends.value >= s.ends.value)
  }

  lemma {:induction false} RenewAllForward(b: Bank, order: seq<User>, u: User)
    requires Inv(b) && u in b.accounts
    ensures u in RenewAll(b, order, b.clock).accounts
    ensures NoWayBack(b.accounts[u].sub, RenewAll(b, order, b.clock).accounts[u].sub)
    decreases |order|
  {
    if order != [] {
      var b' := RenewOne(b, order[0], b.clock);
      RenewOk(b, order[0]);
      assert SubOk(b.accounts[u].sub, b.clock);
      RenewAllForward(b', order[1..], u);
    }
  }

  lemma PassForward(b: Bank, order: seq<User>, u: User)
    requires Inv(b) && u in b.accounts
    ensures u in Lifecycle(b, order, b.clock).accounts
    ensures NoWayBack(b.accounts[u].sub, Lifecycle(b, order, b.clock).accounts[u].sub)
  {
    RenewAllForward(b, order, u);
  }

  lemma BookForward(b: Bank, v: User, amount: int, key: Key, sub: Sub, u: User)
    requires u in b.accounts && v in b.accounts && NoWayBack(b.accounts[v].sub, sub)
    ensures u in Book(b, v, amount, key, sub).accounts
    ensures NoWayBack(b.accounts[u].sub, Book(b, v, amount, key, sub).accounts[u].sub)
  {
  }

  lemma BuyForward(b: Bank, v: User, next: Plan, key: Key, t: Time, u: User)
    requires u in b.accounts && v in b.accounts && next != TRIAL && SubOk(b.accounts[v].sub, t)
    ensures u in BuyPlan(b, v, next, key, t).accounts
    ensures NoWayBack(b.accounts[u].sub, BuyPlan(b, v, next, key, t).accounts[u].sub)
  {
    var (cost, sub) := Purchase(b.accounts[v].sub, next, t);
    BookForward(b, v, -cost, key, sub, u);
  }

  lemma ChangeForward(b: Bank, v: User, next: Plan, key: Key, t: Time, u: User)
    requires u in b.accounts && (v in b.accounts ==> SubOk(b.accounts[v].sub, t))
    ensures u in ChangePlan(b, v, next, key, t).accounts
    ensures NoWayBack(b.accounts[u].sub, ChangePlan(b, v, next, key, t).accounts[u].sub)
  {
    if v in b.accounts && next != TRIAL {
      var s := b.accounts[v].sub;
      if next == s.plan && s.status == Active {
        ExtendForward(b, v, key, t, u);
      } else if !(Price(next) < Price(s.plan) && s.status == Active) {
        BuyForward(b, v, next, key, t, u);
      }
    }
  }

  lemma ExtendForward(b: Bank, v: User, key: Key, t: Time, u: User)
    requires u in b.accounts && v in b.accounts
    ensures u in ExtendPlan(b, v, key, t).accounts
    ensures NoWayBack(b.accounts[u].sub, ExtendPlan(b, v, key, t).accounts[u].sub)
  {
    var a := b.accounts[v];
    LongerThan(a.sub, t);
    BookForward(b, v, -Price(a.sub.plan), key, Extended(a.sub, t), u);
  }

  lemma LongerThan(s: Sub, t: Time)
    ensures NoWayBack(s, Extended(s, t))
  {
  }

  lemma StepForward(b: Bank, a: Action, u: User)
    requires Inv(b) && u in b.accounts && (a.Credit? ==> !a.key.Renewal?)
    ensures u in Step(b, a).accounts && NoWayBack(b.accounts[u].sub, Step(b, a).accounts[u].sub)
  {
    if a.t >= b.clock {
      var c := b.(clock := a.t);
      match a
      case Pass(order, t) =>
        TickOk(b, t);
        PassForward(c, order, u);
      case Change(v, next, id, t) =>
        TickOk(b, t);
        ChangeForward(c, v, next, Generated(id), t, u);
      case FirstUse(v, _, _) => assert v in b.accounts ==> SubOk(b.accounts[v].sub, b.clock);
      case _ =>
    }
  }

  /** A user who left the trial never returns to it, a trial starts at most once, and no
      transaction ever moves the end of a period back. */
  lemma {:induction false} TrialNeverReentered(b: Bank, run: seq<Action>, u: User)
    requires Inv(b) && Honest(run) && u in b.accounts
    ensures u in Run(b, run).accounts && NoWayBack(b.accounts[u].sub, Run(b, run).accounts[u].sub)
    decreases |run|
  {
    if run != [] {
      StepOk(b, run[0]);
      StepForward(b, run[0], u);
      TrialNeverReentered(Step(b, run[0]), run[1..], u);
    }
  }

  // ---- The pass -----------------------------------------------------------

  /** After a pass no active subscription is overdue. */
  lemma PassSettles(b: Bank, order: seq<User>, t: Time, u: User)
    requires u in Lifecycle(b, order, t).accounts
    ensures !Lapsed(Lifecycle(b, order, t).accounts[u].sub, t)
  {
  }

  lemma {:induction false} NothingDue(b: Bank, order: seq<User>, t: Time)
    requires forall u :: u in b.accounts ==> !Lapsed(b.accounts[u].sub, t)
    ensures RenewAll(b, order, t) == b
    decreases |order|
  {
    if order != [] {
      assert RenewOne(b, order[0], t) == b;
      NothingDue(b, order[1..], t);
    }
  }

  lemma AgedTwice(s: Sub, t: Time)
    ensures Aged(Aged(s, t), t) == Aged(s, t)
    ensures !EntersGrace(Aged(s, t), t)
  {
  }

  /** A second pass at the same instant changes nothing, whatever order the rows are visited in. */
  lemma PassIdempotent(b: Bank, order: seq<User>, order': seq<User>, t: Time)
    ensures Lifecycle(Lifecycle(b, order, t), order', t) == Lifecycle(b, order, t)
  {
    var b' := Lifecycle(b, order, t);
    forall u | u in b'.accounts
      ensures !Lapsed(b'.accounts[u].sub, t)
    {
      PassSettles(b, order, t, u);
    }
    NothingDue(b', order', t);
    var mid := RenewAll(b, order, t);
    forall u | u in b'.accounts
      ensures AgeAll(b', t).accounts[u] == b'.accounts[u] && !EntersGrace(b'.accounts[u].sub, t)
    {
      AgedTwice(mid.accounts[u].sub, t);
    }
    assert AgeAll(b', t).accounts == b'.accounts;
    assert AgeAll(b', t).graceBegan == b'.graceBegan;
  }

  // ---- Upgrades in steps --------------------------------------------------

  ghost predicate Upgradable(b: Bank, u: User, t: Time)
  {
    u in b.accounts && var s := b.accounts[u].sub;
    s.plan != TRIAL && s.status == Active && s.ends.Some? && t < s.ends.value
  }

  /** An accepted upgrade inside a paid period: it charges and grants the prorated share,
      keeps the period and what was used, and drops a scheduled downgrade. */
  lemma UpgradeTerms(b: Bank, u: User, next: Plan, key: Key, t: Time)
    requires Upgradable(b, u, t) && Price(next) > Price(b.accounts[u].sub.plan) && !KeyUsed(b.ledger, key)
    requires var cost := P.Prorate(Catalogue(b.accounts[u].sub.plan), Catalogue(next), t, b.accounts[u].sub.ends.value).0;
             0 < cost <= b.accounts[u].balance
    ensures var s := b.accounts[u].sub;
            var (cost, extra) := P.Prorate(Catalogue(s.plan), Catalogue(next), t, s.ends.value);
            var b' := ChangePlan(b, u, next, key, t);
            && b'.ledger == b.ledger + [Entry(u, -cost, b.accounts[u].balance - cost, key)]
            && Upgradable(b', u, t)
            && b'.accounts[u].balance == b.accounts[u].balance - cost
            && b'.accounts[u].sub == s.(plan := next, pending := None, started := b'.accounts[u].sub.started,
                                        graceEnds := None, quota := s.quota + extra)
  {
    PriceFacts(next);
  }

  /** Upgrading through a middle plan never costs more and never grants more than the direct
      upgrade at the first instant; at one instant it saves at most one kopeck. */
  lemma SteppedUpgrade(b: Bank, u: User, mid: Plan, top: Plan, k1: Key, k2: Key, t1: Time, t2: Time)
    requires Upgradable(b, u, t1) && t1 <= t2 < b.accounts[u].sub.ends.value
    requires Price(b.accounts[u].sub.plan) < Price(mid) < Price(top)
    requires !KeyUsed(b.ledger, k1) && !KeyUsed(b.ledger, k2) && k1 != k2
    requires var s := b.accounts[u].sub;
             && P.Prorate(Catalogue(s.plan), Catalogue(top), t1, s.ends.value).0 <= b.accounts[u].balance
             && P.Prorate(Catalogue(s.plan), Catalogue(mid), t1, s.ends.value).0 > 0
             && P.Prorate(Catalogue(mid), Catalogue(top), t2, s.ends.value).0 > 0
    ensures var stepped := ChangePlan(ChangePlan(b, u, mid, k1, t1), u, top, k2, t2);
            var direct := ChangePlan(b, u, top, k1, t1);
            && u in stepped.accounts && u in direct.accounts
            && stepped.accounts[u].sub.plan == direct.accounts[u].sub.plan == top
            && stepped.accounts[u].balance >= direct.accounts[u].balance
            && stepped.accounts[u].sub.quota <= direct.accounts[u].sub.quota
            && (t1 == t2 ==> stepped.accounts[u].balance <= direct.accounts[u].balance + 1)
  {
    var s := b.accounts[u].sub;
    var plans := [Catalogue(s.plan), Catalogue(mid), Catalogue(top)];
    var end := s.ends.value;
    ChainOfTwo(s.plan, mid, top, t1, t2, end);
    UpgradeTerms(b, u, top, k1, t1);
    UpgradeTerms(b, u, mid, k1, t1);
    var m := ChangePlan(b, u, mid, k1, t1);
    assert !KeyUsed(m.ledger, k2);
    UpgradeTerms(m, u, top, k2, t2);
  }

  lemma ChainOfTwo(low: Plan, mid: Plan, top: Plan, t1: Time, t2: Time, end: Time)
    requires low != TRIAL && Price(low) < Price(mid) < Price(top) && t1 <= t2 < end
    ensures var one := P.Prorate(Catalogue(low), Catalogue(mid), t1, end);
            var two := P.Prorate(Catalogue(mid), Catalogue(top), t2, end);
            var direct := P.Prorate(Catalogue(low), Catalogue(top), t1, end);
            && one.0 + two.0 <= direct.0 && one.1 + two.1 <= direct.1
            && (t1 == t2 ==> direct.0 - 1 <= one.0 + two.0)
  {
    var plans := [Catalogue(low), Catalogue(mid), Catalogue(top)];
    var times := [t1, t2];
    PriceFacts(low);
    PriceFacts(mid);
    PriceFacts(top);
    assert P.Upgrades(plans, times, end);
    assert plans[1..] == [Catalogue(mid), Catalogue(top)] && times[1..] == [t2];
    assert P.ChainTotal(plans[1..], times[1..], end)
        == P.Prorate(Catalogue(mid), Catalogue(top), t2, end) by {
      assert P.ChainTotal(plans[1..][1..], times[1..][1..], end) == (0, 0);
    }
    P.ChainNeverMore(plans, times, end);
    if t1 == t2 {
      P.ChainAtOnce(plans, times, end);
    }
  }

  // ---- Forged keys --------------------------------------------------------

  /** A renewal keeps the books exactly when its key is not taken yet. */
  lemma RenewalExact(b: Bank, u: User, t: Time)
    requires Reconciled(b) && u in b.accounts && Due(b.accounts[u], t)
    requires Price(Target(b.accounts[u].sub)) > 0
    ensures Reconciled(RenewOne(b, u, t)) <==>
            !KeyUsed(b.ledger, Renewal(u, Epoch(b.accounts[u].sub.ends.value)))
  {
    var b' := RenewOne(b, u, t);
    assert Funded(b, u);
    if KeyUsed(b.ledger, Renewal(u, Epoch(b.accounts[u].sub.ends.value))) {
      assert b'.ledger == b.ledger;
      assert !Funded(b', u);
    } else {
      PushReconciled(b, b', u, b'.ledger[|b.ledger|]);
    }
  }

  function ForgedKey(): Key
  {
    Renewal("u", 2_592_000)
  }

  function LiteSub(): Sub
  {
    Sub(LITE, None, Active, Some(0), Some(PAID_PERIOD), None, 150_000_000_000, 0)
  }

  /** The first purchase of user "u": 30 000 kopecks credited, 14 900 spent on LITE at once. */
  ghost predicate FirstPurchase(run: seq<Action>)
  {
    run == [SignUp("u", 0), Credit("u", 30_000, Supplied("a"), 0), Change("u", LITE, "p", 0)]
  }

  /** A run in which an administrator types the key of a coming renewal for a credit of one
      kopeck. The renewal then leaves no trace: 14 900 kopecks are taken and the ledger does not
      show it. */
  lemma ForgedKeyExample(run: seq<Action>, forged: Action, pass: Action)
    requires FirstPurchase(run)
    requires forged == Credit("u", 1, ForgedKey(), 0) && pass == Pass(["u"], PAID_PERIOD)
    ensures Honest(run) && Reconciled(Run(EMPTY, run)) && !Reconciled(Run(EMPTY, run + [forged, pass]))
  {
    Purchased(run);
    RunOk(EMPTY, run);
    RunTwo(EMPTY, run, forged, pass);
    ForgedSteps(Run(EMPTY, run), forged, pass);
  }

  lemma ForgedSteps(b: Bank, forged: Action, pass: Action)
    requires Reconciled(b) && b.accounts == map["u" := Account(15_100, LiteSub())] && b.clock == 0
    requires !KeyUsed(b.ledger, ForgedKey())
    requires forged == Credit("u", 1, ForgedKey(), 0) && pass == Pass(["u"], PAID_PERIOD)
    ensures !Reconciled(Step(Step(b, forged), pass))
  {
    var c := Step(b, forged);
    assert c == CreditWallet(b, "u", 1, ForgedKey());
    assert Visits(["u"], c.accounts);
    ForgedRenewal(b);
  }

  lemma Purchased(run: seq<Action>)
    requires FirstPurchase(run)
    ensures var b := Run(EMPTY, run);
            && b.accounts == map["u" := Account(15_100, LiteSub())]
            && !KeyUsed(b.ledger, ForgedKey())
            && b.clock == 0
  {
    var x, y, z := run[0], run[1], run[2];
    assert run == [x] + [y, z];
    assert Run(EMPTY, [x]) == Step(EMPTY, x) by {
      assert [x][1..] == [];
    }
    RunTwo(EMPTY, [x], y, z);
    var b1 := Step(EMPTY, x);
    var b2 := Step(b1, y);
    assert b2.ledger == [Entry("u", 30_000, 30_000, Supplied("a"))];
    var b3 := Step(b2, z);
    assert b3 == BuyPlan(b2, "u", LITE, Generated("p"), 0);
    assert b3.ledger == b2.ledger + [Entry("u", -14_900, 15_100, Generated("p"))];
  }

  lemma ForgedRenewal(b: Bank)
    requires Reconciled(b) && "u" in b.accounts && b.accounts["u"] == Account(15_100, LiteSub())
    requires !KeyUsed(b.ledger, ForgedKey())
    ensures !Reconciled(Lifecycle(CreditWallet(b, "u", 1, ForgedKey()).(clock := PAID_PERIOD), ["u"], PAID_PERIOD))
  {
    var c := CreditWallet(b, "u", 1, ForgedKey());
    var n := |b.ledger|;
    assert c.ledger[n].key == ForgedKey() && KeyUsed(c.ledger, ForgedKey());
    PushReconciled(b, c, "u", c.ledger[n]);
    assert c.accounts["u"].balance == SumFor(c.ledger, "u") by {
      assert Funded(c, "u");
    }
    var e := c.(clock := PAID_PERIOD);
    assert Epoch(PAID_PERIOD) == 2_592_000;
    var r := RenewOne(e, "u", PAID_PERIOD);
    assert ["u"][1..] == [];
    assert RenewAll(e, ["u"], PAID_PERIOD) == RenewAll(r, [], PAID_PERIOD) == r;
    var d := Lifecycle(e, ["u"], PAID_PERIOD);
    assert d.ledger == c.ledger && d.accounts["u"].balance == c.accounts["u"].balance - 14_900;
    assert !Funded(d, "u");
  }

  lemma {:induction false} RunTwo(b: Bank, run: seq<Action>, x: Action, y: Action)
    ensures Run(b, run + [x, y]) == Step(Step(Run(b, run), x), y)
    decreases |run|
  {
    if run == [] {
      assert run + [x, y] == [x, y] && [x, y][1..] == [y] && [y][1..] == [];
      assert Run(b, [x, y]) == Run(Step(b, x), [y]);
      assert Run(Step(b, x), [y]) == Run(Step(Step(b, x), y), []);
    } else {
      assert (run + [x, y])[1..] == run[1..] + [x, y];
      RunTwo(Step(b, run[0]), run[1..], x, y);
    }
  }
}
