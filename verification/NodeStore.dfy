/** The node's SQLite store: devices, the usage journal and which of its events the
    controller has acknowledged. Every statement or transaction is one step. */
module NodeStore {
  import opened Options
  import opened Devices

  datatype Event = Event(device: DeviceId, tx: int, rx: int)

  /** The event with number k (AUTOINCREMENT) is events[k-1]; rows are never deleted. */
  datatype Store = Store(devices: map<DeviceId, Device>, events: seq<Event>, sent: set<nat>)

  function Bytes(e: Event): int
  {
    e.tx + e.rx
  }

  // ---- The statements -----------------------------------------------------

  /** Usage of a device the node does not know is rolled back. */
  function AddUsage(s: Store, device: DeviceId, tx: int, rx: int): Store
  {
    if device !in s.devices then s
    else
      var d := s.devices[device];
      s.(devices := s.devices[device := d.(usedBytes := d.usedBytes + (tx + rx))],
         events := s.events + [Event(device, tx, rx)])
  }

  /** Credential hashes are unique. */
  ghost predicate HashTaken(s: Store, d: Device)
  {
    exists x :: x in s.devices && x != d.id && s.devices[x].credentialHash == d.credentialHash
  }

  /** Overrides are not part of an upsert; usage is replaced only when the period changes. */
  ghost function Upsert(s: Store, d: Device): Store
  {
    if HashTaken(s, d) then s
    else if d.id !in s.devices then s.(devices := s.devices[d.id := d.(override_ := NO_OVERRIDE)])
    else
      var old_ := s.devices[d.id];
      var used := if old_.periodEnds != d.periodEnds then d.usedBytes else old_.usedBytes;
      s.(devices := s.devices[d.id := d.(usedBytes := used, override_ := old_.override_)])
  }

  function Revoke(s: Store, device: DeviceId): Store
  {
    if device !in s.devices then s
    else s.(devices := s.devices[device := s.devices[device].(active := false)])
  }

  function ApplyOverride(s: Store, device: DeviceId, o: Override): Store
  {
    if device !in s.devices then s
    else s.(devices := s.devices[device := s.devices[device].(override_ := o)])
  }

  function MarkSent(s: Store, ids: seq<nat>): Store
  {
    s.(sent := s.sent + set id | id in ids && 1 <= id <= |s.events|)
  }

  /** Numbers of unacknowledged events among the first n, oldest first. */
  function PendingUpTo(s: Store, n: nat): seq<nat>
    requires n <= |s.events|
  {
    if n == 0 then []
    else PendingUpTo(s, n - 1) + if n in s.sent then [] else [n]
  }

  function Pending(s: Store): seq<nat>
  {
    PendingUpTo(s, |s.events|)
  }

  function First(ids: seq<nat>, limit: nat): seq<nat>
  {
    if |ids| <= limit then ids else ids[..limit]
  }

  // ---- The store object ---------------------------------------------------

  class Database {
    var devices: map<DeviceId, Device>
    var events: seq<Event>
    var sent: set<nat>

    ghost function Value(): Store
      reads this
    {
      Store(devices, events, sent)
    }

    constructor ()
      ensures Value() == Store(map[], [], {})
    {
      devices, events, sent := map[], [], {};
    }

    method Record(device: DeviceId, tx: int, rx: int) returns (used: Option<int>)
      modifies this
      ensures Value() == AddUsage(old(Value()), device, tx, rx)
      ensures used == if device in devices then Some(devices[device].usedBytes) else None
    {
      if device !in devices {
        return None;
      }
      events := events + [Event(device, tx, rx)];
      var d := devices[device];
      devices := devices[device := d.(usedBytes := d.usedBytes + tx + rx)];
      return Some(devices[device].usedBytes);
    }

    method UpsertDevice(d: Device) returns (ok: bool)
      modifies this
      ensures Value() == Upsert(old(Value()), d)
      ensures ok <==> !HashTaken(old(Value()), d)
    {
      if x :| x in devices && x != d.id && devices[x].credentialHash == d.credentialHash {
        assert HashTaken(Value(), d);
        return false;
      }
      assert !HashTaken(Value(), d);
      if d.id in devices {
        var row := devices[d.id];
        row := row.(credentialHash := d.credentialHash, plan := d.plan, active := d.active,
                    subscriptionEnds := d.subscriptionEnds, quotaBytes := d.quotaBytes,
                    usedBytes := if row.periodEnds != d.periodEnds then d.usedBytes else row.usedBytes,
                    leaseBytes := d.leaseBytes, leaseExpires := d.leaseExpires);
        devices := devices[d.id := row.(id := d.id, periodEnds := d.periodEnds)];
      } else {
        devices := devices[d.id := d.(override_ := NO_OVERRIDE)];
      }
      return true;
    }

    /** A limit outside 1..5000 means 1000. */
    method PendingUsage(limit: int) returns (ids: seq<nat>)
      ensures ids == First(Pending(Value()), if limit < 1 || limit > 5000 then 1000 else limit)
    {
      var max := if limit < 1 || limit > 5000 then 1000 else limit;
      ids := [];
      var n := 0;
      while n < |events| && |ids| < max
        invariant 0 <= n <= |events| && |ids| <= max
        invariant ids == PendingUpTo(Value(), n)
      {
        n := n + 1;
        if n !in sent {
          ids := ids + [n];
        }
      }
      PendingPrefix(Value(), n, |events|);
    }

    method MarkUsageSent(ids: seq<nat>)
      modifies this
      ensures Value() == MarkSent(old(Value()), ids)
    {
      var i := 0;
      while i < |ids|
        invariant 0 <= i <= |ids|
        invariant devices == old(devices) && events == old(events)
        invariant sent == old(sent) + set id | id in ids[..i] && 1 <= id <= |events|
      {
        assert ids[..i + 1] == ids[..i] + [ids[i]];
        if 1 <= ids[i] <= |events| {
          sent := sent + {ids[i]};
        }
        i := i + 1;
      }
      assert ids[..i] == ids;
    }
  }

  lemma {:induction false} PendingPrefix(s: Store, n: nat, m: nat)
    requires n <= m <= |s.events|
    ensures PendingUpTo(s, n) <= PendingUpTo(s, m)
    decreases m - n
  {
    if n < m {
      PendingPrefix(s, n, m - 1);
    }
  }

  /** The pending list is exactly the unacknowledged events, each once, in order. */
  lemma {:induction false} PendingExact(s: Store, n: nat)
    requires n <= |s.events|
    ensures forall k :: k in PendingUpTo(s, n) <==> 1 <= k <= n && k !in s.sent
    ensures forall i, j :: 0 <= i < j < |PendingUpTo(s, n)| ==> PendingUpTo(s, n)[i] < PendingUpTo(s, n)[j]
  {
    if n > 0 {
      PendingExact(s, n - 1);
      var p := PendingUpTo(s, n - 1);
      forall i | 0 <= i < |p|
        ensures p[i] <= n - 1
      {
        assert p[i] in p;
      }
    }
  }

  // ---- No usage is lost ---------------------------------------------------

  function SumFor(events: seq<Event>, device: DeviceId): int
  {
    if events == [] then 0
    else SumFor(events[..|events| - 1], device)
         + if events[|events| - 1].device == device then Bytes(events[|events| - 1]) else 0
  }

  /** A reader of control messages. A reader that is still busy when its connection ends
      overlaps with the one of the next connection. */
  type Reader = nat

  /** The store, where in the journal each device's current period began, and the copies
      of devices that lease handlers have read and not yet written back. */
  datatype Ledger = Ledger(store: Store, since: map<DeviceId, nat>, held: map<Reader, Device>)

  datatype Action =
    | Use(device: DeviceId, tx: int, rx: int)
    | ControlUpsert(reader: Reader, row: Device)
    | LeaseRead(reader: Reader, device: DeviceId)
    | LeaseWrite(reader: Reader, bytes: int, expires: Time)
    | ControlRevoke(reader: Reader, device: DeviceId)
    | ControlOverride(reader: Reader, device: DeviceId, o: Override)
    | Acknowledge(reader: Reader, ids: seq<nat>)

  /** The period marker after writing d. */
  ghost function SinceAfter(l: Ledger, d: Device): map<DeviceId, nat>
  {
    if HashTaken(l.store, d) then l.since
    else if d.id in l.store.devices && l.store.devices[d.id].periodEnds == d.periodEnds then l.since
    else l.since[d.id := |l.store.events|]
  }

  ghost function Write(l: Ledger, d: Device): Ledger
  {
    l.(store := Upsert(l.store, d), since := SinceAfter(l, d))
  }

  function Leased(d: Device, bytes: int, expires: Time): Device
  {
    d.(leaseBytes := bytes, leaseExpires := expires)
  }

  /** Usage collection runs beside the readers; while a reader holds a device copy it handles
      nothing else. Control upserts carry no usage. */
  ghost function Step(l: Ledger, a: Action): Ledger
  {
    match a
    case Use(device, tx, rx) => l.(store := AddUsage(l.store, device, tx, rx))
    case ControlUpsert(r, d) => if r in l.held then l else Write(l, d.(usedBytes := 0))
    case LeaseRead(r, device) =>
      if r in l.held || device !in l.store.devices then l else l.(held := l.held[r := l.store.devices[device]])
    case LeaseWrite(r, bytes, expires) =>
      if r !in l.held then l else Write(l, Leased(l.held[r], bytes, expires)).(held := l.held - {r})
    case ControlRevoke(r, device) => if r in l.held then l else l.(store := Revoke(l.store, device))
    case ControlOverride(r, device, o) => if r in l.held then l else l.(store := ApplyOverride(l.store, device, o))
    case Acknowledge(r, ids) => if r in l.held then l else l.(store := MarkSent(l.store, ids))
  }

  ghost function Run(l: Ledger, run: seq<Action>): Ledger
    decreases |run|
  {
    if run == [] then l else Run(Step(l, run[0]), run[1..])
  }

  const START := Ledger(Store(map[], [], {}), map[], map[])

  /** Stored usage is the sum of the device's events since its period began. */
  ghost predicate Balanced(l: Ledger, d: DeviceId)
    requires d in l.store.devices
  {
    && d in l.since && l.since[d] <= |l.store.events|
    && l.store.devices[d].id == d
    && l.store.devices[d].usedBytes == SumFor(l.store.events[l.since[d]..], d)
  }

  ghost predicate Accounted(l: Ledger)
  {
    forall d :: d in l.store.devices ==> Balanced(l, d)
  }

  lemma SumForAppend(events: seq<Event>, k: nat, e: Event, device: DeviceId)
    requires k <= |events|
    ensures SumFor((events + [e])[k..], device)
            == SumFor(events[k..], device) + if e.device == device then Bytes(e) else 0
  {
    assert (events + [e])[k..] == events[k..] + [e];
    assert (events[k..] + [e])[..|events| - k] == events[k..];
  }

  lemma UseAccounted(l: Ledger, device: DeviceId, tx: int, rx: int)
    requires Accounted(l)
    ensures Accounted(Step(l, Use(device, tx, rx)))
  {
    var r := Step(l, Use(device, tx, rx));
    forall d | d in r.store.devices
      ensures Balanced(r, d)
    {
      assert Balanced(l, d);
      SumForAppend(l.store.events, l.since[d], Event(device, tx, rx), d);
    }
  }

  lemma WriteOthers(l: Ledger, d: Device, x: DeviceId)
    requires Accounted(l) && x in l.store.devices && x != d.id
    ensures x in Write(l, d).store.devices && Balanced(Write(l, d), x)
  {
    assert Balanced(l, x);
  }

  lemma WriteOwn(l: Ledger, d: Device)
    requires Accounted(l) && !HashTaken(l.store, d)
    ensures d.id in Write(l, d).store.devices
    ensures Balanced(Write(l, d), d.id) <==>
            d.usedBytes == 0 || (d.id in l.store.devices && l.store.devices[d.id].periodEnds == d.periodEnds)
  {
    assert l.store.events[|l.store.events|..] == [];
    assert d.id in l.store.devices ==> Balanced(l, d.id);
  }

  /** Writing a device keeps the accounts exactly when it does not move the period or
      carries no usage. */
  lemma WriteAccounted(l: Ledger, d: Device)
    requires Accounted(l)
    requires !HashTaken(l.store, d)
    ensures Accounted(Write(l, d)) <==>
            d.usedBytes == 0 || (d.id in l.store.devices && l.store.devices[d.id].periodEnds == d.periodEnds)
  {
    var r := Write(l, d);
    WriteOwn(l, d);
    forall x | x in r.store.devices && x != d.id
      ensures Balanced(r, x)
    {
      WriteOthers(l, d, x);
    }
  }

  /** The step writes back a copy with usage from a period that has moved since. */
  ghost predicate Stale(l: Ledger, a: Action)
  {
    && a.LeaseWrite? && a.reader in l.held
    && var d := l.held[a.reader];
       !HashTaken(l.store, d) && d.usedBytes != 0
       && (d.id in l.store.devices ==> l.store.devices[d.id].periodEnds != d.periodEnds)
  }

  /** A step keeps the accounts exactly if it is not a stale write-back. */
  lemma StepAccounted(l: Ledger, a: Action)
    requires Accounted(l)
    ensures Accounted(Step(l, a)) <==> !Stale(l, a)
  {
    match a
    case Use(device, tx, rx) => UseAccounted(l, device, tx, rx);
    case ControlUpsert(r, d) =>
      if r !in l.held && !HashTaken(l.store, d) {
        WriteAccounted(l, d.(usedBytes := 0));
      }
    case LeaseWrite(r, bytes, expires) =>
      if r in l.held {
        LeaseAccounted(l, r, bytes, expires);
      }
    case _ =>
      forall d | d in l.store.devices
        ensures Balanced(Step(l, a), d)
      {
        assert Balanced(l, d);
      }
  }

  lemma LeaseAccounted(l: Ledger, r: Reader, bytes: int, expires: Time)
    requires Accounted(l) && r in l.held
    ensures Accounted(Step(l, LeaseWrite(r, bytes, expires))) <==> !Stale(l, LeaseWrite(r, bytes, expires))
  {
    var d := Leased(l.held[r], bytes, expires);
    var w := Write(l, d);
    var s := Step(l, LeaseWrite(r, bytes, expires));
    assert HashTaken(l.store, d) <==> HashTaken(l.store, l.held[r]);
    if !HashTaken(l.store, d) {
      WriteAccounted(l, d);
    }
    SameAccounts(w, s);
    SameAccounts(s, w);
    if HashTaken(l.store, d) {
      SameAccounts(l, s);
    }
  }

  lemma SameAccounts(l: Ledger, m: Ledger)
    requires m.store == l.store && m.since == l.since
    ensures Accounted(l) ==> Accounted(m)
  {
    if Accounted(l) {
      forall d | d in m.store.devices
        ensures Balanced(m, d)
      {
        assert Balanced(l, d);
      }
    }
  }

  ghost predicate NeverStale(l: Ledger, run: seq<Action>)
    decreases |run|
  {
    run == [] || (!Stale(l, run[0]) && NeverStale(Step(l, run[0]), run[1..]))
  }

  ghost predicate AlwaysAccounted(l: Ledger, run: seq<Action>)
    decreases |run|
  {
    Accounted(l) && (run == [] || AlwaysAccounted(Step(l, run[0]), run[1..]))
  }

  /** With any number of overlapping readers the accounts are right all along a run exactly if
      it has no stale write-back, even with usage recorded between the read and the write-back
      of a lease. */
  lemma {:induction false} NoLostUsage(l: Ledger, run: seq<Action>)
    requires Accounted(l)
    ensures AlwaysAccounted(l, run) <==> NeverStale(l, run)
    decreases |run|
  {
    if run != [] {
      StepAccounted(l, run[0]);
      if !Stale(l, run[0]) {
        NoLostUsage(Step(l, run[0]), run[1..]);
      }
    }
  }

  predicate ByOne(a: Action, r: Reader)
  {
    !a.Use? ==> a.reader == r
  }

  /** Only reader r holds a copy, and its period has not moved since. */
  ghost predicate HeldCurrent(l: Ledger, r: Reader)
  {
    && l.held.Keys <= {r}
    && (r in l.held ==>
          && l.held[r].id in l.store.devices
          && l.store.devices[l.held[r].id].periodEnds == l.held[r].periodEnds)
  }

  /** A single reader never writes back a stale copy. */
  lemma {:induction false} OneReader(l: Ledger, run: seq<Action>, r: Reader)
    requires Accounted(l) && HeldCurrent(l, r)
    requires forall i :: 0 <= i < |run| ==> ByOne(run[i], r)
    ensures NeverStale(l, run)
    decreases |run|
  {
    if run != [] {
      assert ByOne(run[0], r);
      assert forall i :: 0 <= i < |run[1..]| ==> run[1..][i] == run[i + 1];
      StepAccounted(l, run[0]);
      StepCurrent(l, run[0], r);
      OneReader(Step(l, run[0]), run[1..], r);
    }
  }

  lemma StepCurrent(l: Ledger, a: Action, r: Reader)
    requires Accounted(l) && HeldCurrent(l, r) && ByOne(a, r)
    ensures !Stale(l, a) && HeldCurrent(Step(l, a), r)
  {
    if a.LeaseRead? && a.device in l.store.devices {
      assert Balanced(l, a.device);
    }
  }

  function SampleDevice(periodEnds: Time): Device
  {
    Device("d", "h", Plus, true, 100, periodEnds, 10, 0, 0, 0, NO_OVERRIDE)
  }

  /** A stale write-back: a reader copies the device after five bytes were used, another one
      moves the period on, and writing the copy back charges the five bytes to the new period. */
  lemma StaleWriteBackExample(run: seq<Action>, write: Action)
    requires run == [ControlUpsert(1, SampleDevice(50)), Use("d", 3, 2), LeaseRead(1, "d"), ControlUpsert(2, SampleDevice(80))]
    requires write == LeaseWrite(1, 7, 60)
    ensures Accounted(Run(START, run)) && !Accounted(Run(START, run + [write]))
  {
    SampleRun(run);
    RunOneMore(START, run, write);
    var l := Run(START, run);
    assert l.store.devices["d"] == SampleDevice(80);
    assert Stale(l, write);
    StepAccounted(l, write);
  }

  /** The first four steps, none of them a write-back. */
  lemma SampleRun(run: seq<Action>)
    requires run == [ControlUpsert(1, SampleDevice(50)), Use("d", 3, 2), LeaseRead(1, "d"), ControlUpsert(2, SampleDevice(80))]
    ensures var l := Run(START, run);
            && Accounted(l)
            && l.store.devices == map["d" := SampleDevice(80)]
            && l.held == map[1 := SampleDevice(50).(usedBytes := 5)]
  {
    var l1 := Step(START, run[0]);
    assert l1.store.devices == map["d" := SampleDevice(50)];
    StepAccounted(START, run[0]);
    var l2 := Step(l1, run[1]);
    assert l2.store.devices == map["d" := SampleDevice(50).(usedBytes := 5)];
    StepAccounted(l1, run[1]);
    var l3 := Step(l2, run[2]);
    StepAccounted(l2, run[2]);
    SampleMoved(l3, run[3]);
    StepAccounted(l3, run[3]);
    RunFour(START, run[0], run[1], run[2], run[3]);
  }

  lemma SampleMoved(l: Ledger, a: Action)
    requires l.store.devices == map["d" := SampleDevice(50).(usedBytes := 5)] && 2 !in l.held
    requires a == ControlUpsert(2, SampleDevice(80))
    ensures Step(l, a).store.devices == map["d" := SampleDevice(80)] && Step(l, a).held == l.held
  {
    assert !HashTaken(l.store, SampleDevice(80));
  }

  lemma RunFour(l: Ledger, a: Action, b: Action, c: Action, d: Action)
    ensures Run(l, [a, b, c, d]) == Step(Step(Step(Step(l, a), b), c), d)
  {
    RunOneMore(l, [], a);
    RunOneMore(l, [a], b);
    RunOneMore(l, [a, b], c);
    RunOneMore(l, [a, b, c], d);
    assert [] + [a] == [a] && [a] + [b] == [a, b] && [a, b] + [c] == [a, b, c] && [a, b, c] + [d] == [a, b, c, d];
  }

  lemma {:induction false} RunOneMore(l: Ledger, run: seq<Action>, a: Action)
    ensures Run(l, run + [a]) == Step(Run(l, run), a)
    decreases |run|
  {
    if run == [] {
      assert [] + [a] == [a] && [a][1..] == [];
    } else {
      assert (run + [a])[1..] == run[1..] + [a];
      RunOneMore(Step(l, run[0]), run[1..], a);
    }
  }

  /** Recording usage of a known device: one journal row, and the device's counter raised by its
      bytes; nothing else. */
  lemma RecordExact(s: Store, device: DeviceId, tx: int, rx: int)
    ensures device !in s.devices ==> AddUsage(s, device, tx, rx) == s
    ensures device in s.devices ==>
              var o, t := s.devices[device], AddUsage(s, device, tx, rx);
              && t.events == s.events + [Event(device, tx, rx)] && t.sent == s.sent
              && t.devices.Keys == s.devices.Keys
              && (forall x :: x in s.devices && x != device ==> t.devices[x] == s.devices[x])
              && t.devices[device] == Device(o.id, o.credentialHash, o.plan, o.active, o.subscriptionEnds, o.periodEnds,
                                             o.quotaBytes, o.usedBytes + tx + rx, o.leaseBytes, o.leaseExpires, o.override_)
  {
  }

  /** What each step of a run does to the store; a reader with a copy in hand does nothing but
      write it back, and has none after that. */
  lemma LedgerExact(l: Ledger, a: Action)
    ensures Step(l, a).store
            == match a
               case Use(device, tx, rx) => AddUsage(l.store, device, tx, rx)
               case ControlUpsert(r, d) => if r in l.held then l.store else Upsert(l.store, d.(usedBytes := 0))
               case LeaseRead(_, _) => l.store
               case LeaseWrite(r, bytes, expires) =>
                 if r in l.held
                 then Upsert(l.store, l.held[r].(leaseBytes := bytes, leaseExpires := expires))
                 else l.store
               case ControlRevoke(r, device) => if r in l.held then l.store else Revoke(l.store, device)
               case ControlOverride(r, device, o) => if r in l.held then l.store else ApplyOverride(l.store, device, o)
               case Acknowledge(r, ids) => if r in l.held then l.store else MarkSent(l.store, ids)
    ensures Step(l, a).held
            == match a
               case LeaseRead(r, device) =>
                 if r !in l.held && device in l.store.devices then l.held[r := l.store.devices[device]] else l.held
               case LeaseWrite(r, _, _) => l.held - {r}
               case _ => l.held
  {
    if a.LeaseWrite? && a.reader !in l.held {
      assert l.held - {a.reader} == l.held;
    }
  }
}
