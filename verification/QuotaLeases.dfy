/** Quota leases: how much a device may be granted ahead of its quota, and how often.
    Leases are per device; `consumed_bytes` is never written, so a lease counts in full
    until it expires. */
module QuotaLeases {
  import opened Options

  type Time = int
  type DeviceId = string

  const SECOND: int := 1_000_000
  const DAY: int := 86_400 * SECOND
  const GRANT: int := 1_000_000_000

  datatype Lease = Lease(bytes: int, issued: Time, expires: Time)

  /** What ever happened to the leases of a device. `left` is quota minus usage at the grant. */
  datatype Mark = Granted(t: Time, bytes: int, left: int) | Rebound(t: Time)

  /** A device with its subscription's state and usage. `usable` is status active or grace. */
  datatype Row = Row(
    usable: bool, quota: int, used: int,
    leases: seq<Lease>, lastBound: Option<Time>,
    log: seq<Mark>, clock: Time)

  const NEW := Row(false, 0, 0, [], None, [], 0)

  datatype Outcome = Inactive | UpsertOnly | NoQuota | Leased(bytes: int)

  function Reservable(remaining: int, active: int, requested: int): int
  {
    var available := remaining - active;
    if available < 0 then 0
    else if requested > available then available
    else if requested < 0 then 0
    else requested
  }

  /** Bytes of unexpired leases. */
  function ActiveBytes(leases: seq<Lease>, now: Time): int
  {
    if leases == [] then 0
    else ActiveBytes(leases[..|leases| - 1], now)
         + if leases[|leases| - 1].expires > now then leases[|leases| - 1].bytes else 0
  }

  function Provision(d: Row, now: Time): (Row, Outcome)
  {
    if !d.usable then (d, Inactive)
    else if ActiveBytes(d.leases, now) > 0 then (d, UpsertOnly)
    else
      var grant := Reservable(d.quota - d.used, ActiveBytes(d.leases, now), GRANT);
      if grant == 0 then (d, NoQuota)
      else (d.(leases := d.leases + [Lease(grant, now, now + DAY)],
               log := d.log + [Granted(now, grant, d.quota - d.used)]),
            Leased(grant))
  }

  predicate BoundLately(d: Row, now: Time)
  {
    d.lastBound.Some? && d.lastBound.value + DAY > now
  }

  /** Rebinding drops all leases, at most once in 24 hours after the last binding. */
  function Rebind(d: Row, now: Time): Row
  {
    if BoundLately(d, now) then d
    else d.(leases := [], lastBound := None, log := d.log + [Rebound(now)])
  }

  // ---- Objects ------------------------------------------------------------

  class LeaseBook {
    var devices: map<DeviceId, Row>

    constructor ()
      ensures devices == map[]
    {
      devices := map[];
    }

    /** What every method of the book keeps, at the instant of the call. */
    ghost predicate Disciplined(now: Time)
      reads this
    {
      AllGood(devices, now)
    }

    method SumActive(leases: seq<Lease>, now: Time) returns (active: int)
      ensures active == ActiveBytes(leases, now)
    {
      active := 0;
      var i := 0;
      while i < |leases|
        invariant 0 <= i <= |leases|
        invariant active == ActiveBytes(leases[..i], now)
      {
        assert leases[..i + 1][..i] == leases[..i];
        if leases[i].expires > now {
          active := active + leases[i].bytes;
        }
        i := i + 1;
      }
      assert leases[..i] == leases;
    }

    method ProvisionDevice(id: DeviceId, now: Time) returns (ok: bool)
      modifies this
      ensures id !in old(devices) ==> !ok && devices == old(devices)
      ensures id in old(devices) ==>
                var (d, out) := Provision(old(devices)[id].(clock := now), now);
                devices == old(devices)[id := d] && (ok <==> out.UpsertOnly? || out.Leased?)
      ensures old(Disciplined(now)) ==> Disciplined(now)
    {
      if id !in devices {
        return false;
      }
      ProvisionKeeps(devices, id, now);
      var d := devices[id].(clock := now);
      devices := devices[id := d];
      if !d.usable {
        return false;
      }
      var active := SumActive(d.leases, now);
      if active > 0 {
        return true;
      }
      var grant := Reservable(d.quota - d.used, active, 1_000_000_000);
      if grant == 0 {
        return false;
      }
      d := d.(leases := d.leases + [Lease(grant, now, now + DAY)], log := d.log + [Granted(now, grant, d.quota - d.used)]);
      devices := devices[id := d];
      return true;
    }

    method RebindDevice(id: DeviceId, now: Time) returns (ok: bool)
      modifies this
      ensures ok <==> id in old(devices) && !BoundLately(old(devices)[id], now)
      ensures devices == if id in old(devices) then old(devices)[id := Rebind(old(devices)[id].(clock := now), now)]
                         else old(devices)
      ensures old(Disciplined(now)) ==> Disciplined(now)
    {
      if id !in devices {
        return false;
      }
      RebindGood(devices, id, now);
      var d := devices[id].(clock := now);
      devices := devices[id := d];
      if d.lastBound.Some? && d.lastBound.value + DAY > now {
        return false;
      }
      devices := devices[id := d.(leases := [], lastBound := None, log := d.log + [Rebound(now)])];
      return true;
    }

    /** The renewal worker: it stops at the first device that cannot be provisioned. */
    method RenewLeases(due: seq<DeviceId>, now: Time) returns (ok: bool, reached: nat)
      modifies this
      ensures reached <= |due| && (ok <==> reached == |due|)
      ensures devices == Renewed(old(devices), if ok then due else due[..reached + 1], now)
      ensures !ok ==> Refuses(Renewed(old(devices), due[..reached], now), due[reached], now)
      ensures old(Disciplined(now)) ==> Disciplined(now)
    {
      reached := 0;
      while reached < |due|
        invariant 0 <= reached <= |due|
        invariant devices == Renewed(old(devices), due[..reached], now)
      {
        assert due[..reached + 1][..reached] == due[..reached];
        ok := ProvisionDevice(due[reached], now);
        if !ok {
          WorkerKeeps(old(devices), due[..reached + 1], now);
          return;
        }
        reached := reached + 1;
      }
      assert due[..reached] == due;
      WorkerKeeps(old(devices), due, now);
      ok := true;
    }
  }

  ghost predicate Refuses(devices: map<DeviceId, Row>, id: DeviceId, now: Time)
  {
    id in devices ==>
      var out := Provision(devices[id].(clock := now), now).1;
      out.Inactive? || out.NoQuota?
  }

  function Renewed(devices: map<DeviceId, Row>, due: seq<DeviceId>, now: Time): map<DeviceId, Row>
  {
    if due == [] then devices
    else
      var m := Renewed(devices, due[..|due| - 1], now);
      var id := due[|due| - 1];
      if id in m then m[id := Provision(m[id].(clock := now), now).0] else m
  }

  // ---- Runs of one device -------------------------------------------------

  datatype Action =
    | DoProvision(t: Time)
    | DoRebind(t: Time)
    | Bind(t: Time)
    | Subscribe(usable: bool, quota: int, used: int, t: Time)

  function Step(d: Row, a: Action): Row
  {
    if a.t < d.clock then d
    else
      var e := d.(clock := a.t);
      match a
      case DoProvision(t) => Provision(e, t).0
      case DoRebind(t) => Rebind(e, t)
      case Bind(t) => e.(lastBound := Some(t))
      case Subscribe(usable, quota, used, _) => e.(usable := usable, quota := quota, used := used)
  }

  function Run(d: Row, run: seq<Action>): Row
    decreases |run|
  {
    if run == [] then d else Run(Step(d, run[0]), run[1..])
  }

  ghost predicate LeaseOk(d: Row, i: nat)
    requires i < |d.leases|
  {
    d.leases[i].bytes > 0 && d.leases[i].expires == d.leases[i].issued + DAY && d.leases[i].issued <= d.clock
  }

  /** At most one lease of a device is unexpired. */
  ghost predicate OneActive(d: Row)
  {
    forall i, j :: 0 <= i < j < |d.leases| ==> d.leases[i].expires <= d.leases[j].issued
  }

  ghost predicate MarkOk(m: Mark, clock: Time)
  {
    m.t <= clock && (m.Granted? ==> 0 < m.bytes <= GRANT && m.bytes <= m.left)
  }

  /** The last grant, if no rebinding came after it, is the last lease. */
  ghost predicate LastGrantHeld(d: Row)
  {
    d.log != [] && d.log[|d.log| - 1].Granted? ==>
      d.leases != [] && d.leases[|d.leases| - 1].issued == d.log[|d.log| - 1].t
  }

  /** Grants without a rebinding in between are a day apart. */
  ghost predicate LogOk(log: seq<Mark>)
  {
    && (forall i, j :: 0 <= i < j < |log| ==> log[i].t <= log[j].t)
    && (forall i :: 0 < i < |log| && log[i].Granted? && log[i - 1].Granted? ==> log[i].t >= log[i - 1].t + DAY)
  }

  ghost predicate Inv(d: Row)
  {
    && (forall i :: 0 <= i < |d.leases| ==> LeaseOk(d, i))
    && OneActive(d)
    && (forall i :: 0 <= i < |d.log| ==> MarkOk(d.log[i], d.clock))
    && LogOk(d.log) && LastGrantHeld(d)
  }

  lemma {:induction false} NoneActive(leases: seq<Lease>, now: Time)
    requires forall i :: 0 <= i < |leases| ==> leases[i].bytes > 0
    ensures ActiveBytes(leases, now) >= 0
    ensures ActiveBytes(leases, now) == 0 ==> forall i :: 0 <= i < |leases| ==> leases[i].expires <= now
  {
    if leases != [] {
      var init := leases[..|leases| - 1];
      NoneActive(init, now);
      assert forall i :: 0 <= i < |init| ==> init[i] == leases[i];
    }
  }

  lemma LeasePositive(d: Row)
    requires Inv(d)
    ensures forall i :: 0 <= i < |d.leases| ==> d.leases[i].bytes > 0
  {
    forall i | 0 <= i < |d.leases|
      ensures d.leases[i].bytes > 0
    {
      assert LeaseOk(d, i);
    }
  }

  lemma ProvisionOk(d: Row)
    requires Inv(d)
    ensures Inv(Provision(d, d.clock).0)
  {
    LeasePositive(d);
    NoneActive(d.leases, d.clock);
    var out := Provision(d, d.clock).1;
    GrantBounds(d, d.clock);
    if out.Leased? {
      GrantOk(d, out.bytes);
    }
  }

  /** What a lease handed out by `Provision` is bounded by. */
  lemma GrantBounds(d: Row, now: Time)
    requires ActiveBytes(d.leases, now) >= 0
    ensures var out := Provision(d, now).1;
            out.Leased? ==> 0 < out.bytes <= GRANT && out.bytes <= d.quota - d.used && ActiveBytes(d.leases, now) == 0
  {
  }

  /** Granting when every lease has expired. */
  lemma GrantOk(d: Row, bytes: int)
    requires Inv(d) && 0 < bytes <= GRANT && bytes <= d.quota - d.used
    requires forall i :: 0 <= i < |d.leases| ==> d.leases[i].expires <= d.clock
    ensures Inv(d.(leases := d.leases + [Lease(bytes, d.clock, d.clock + DAY)],
                   log := d.log + [Granted(d.clock, bytes, d.quota - d.used)]))
  {
    var d' := d.(leases := d.leases + [Lease(bytes, d.clock, d.clock + DAY)],
                 log := d.log + [Granted(d.clock, bytes, d.quota - d.used)]);
    forall i | 0 <= i < |d'.leases|
      ensures LeaseOk(d', i)
    {
      assert i < |d.leases| ==> LeaseOk(d, i) && d'.leases[i] == d.leases[i];
    }
    var n := |d.log|;
    forall i | 0 <= i < |d'.log|
      ensures MarkOk(d'.log[i], d'.clock)
    {
      assert i < n ==> MarkOk(d.log[i], d.clock) && d'.log[i] == d.log[i];
    }
    if n > 0 && d.log[n - 1].Granted? {
      assert LeaseOk(d, |d.leases| - 1);
    }
    assert forall i :: 0 <= i < n ==> d'.log[i] == d.log[i] && MarkOk(d.log[i], d.clock);
    assert LogOk(d'.log);
  }

  /** The discipline holds of a row that was last touched no later than `now`. */
  ghost predicate GoodBy(d: Row, now: Time)
  {
    Inv(d) && d.clock <= now
  }

  ghost predicate AllGood(devices: map<DeviceId, Row>, now: Time)
  {
    forall id :: id in devices ==> GoodBy(devices[id], now)
  }

  lemma ClockOk(d: Row, now: Time)
    requires GoodBy(d, now)
    ensures Inv(d.(clock := now))
  {
    var e := d.(clock := now);
    forall i | 0 <= i < |e.leases|
      ensures LeaseOk(e, i)
    {
      assert LeaseOk(d, i);
    }
    forall i | 0 <= i < |e.log|
      ensures MarkOk(e.log[i], e.clock)
    {
      assert MarkOk(d.log[i], d.clock);
    }
  }

  lemma ProvisionGood(d: Row, now: Time)
    requires GoodBy(d, now)
    ensures GoodBy(Provision(d.(clock := now), now).0, now)
  {
    ClockOk(d, now);
    ProvisionOk(d.(clock := now));
  }

  /** A pass of the renewal worker keeps the lease discipline of every device. */
  lemma {:induction false} RenewedOk(devices: map<DeviceId, Row>, due: seq<DeviceId>, now: Time)
    requires AllGood(devices, now)
    ensures AllGood(Renewed(devices, due, now), now)
    decreases |due|
  {
    if due != [] {
      var init := due[..|due| - 1];
      RenewedOk(devices, init, now);
      OneGood(Renewed(devices, init, now), due[|due| - 1], now);
    }
  }

  lemma WorkerKeeps(devices: map<DeviceId, Row>, due: seq<DeviceId>, now: Time)
    ensures AllGood(devices, now) ==> AllGood(Renewed(devices, due, now), now)
  {
    if AllGood(devices, now) {
      RenewedOk(devices, due, now);
    }
  }

  lemma RebindGood(m: map<DeviceId, Row>, id: DeviceId, now: Time)
    requires id in m
    ensures AllGood(m, now) ==> AllGood(m[id := Rebind(m[id].(clock := now), now)], now)
  {
    if AllGood(m, now) {
      ClockOk(m[id], now);
      RebindOk(m[id].(clock := now));
    }
  }

  lemma ProvisionKeeps(m: map<DeviceId, Row>, id: DeviceId, now: Time)
    requires id in m
    ensures AllGood(m, now) ==> AllGood(m[id := Provision(m[id].(clock := now), now).0], now)
  {
    if AllGood(m, now) {
      OneGood(m, id, now);
    }
  }

  lemma OneGood(m: map<DeviceId, Row>, id: DeviceId, now: Time)
    requires AllGood(m, now)
    ensures id in m ==> AllGood(m[id := Provision(m[id].(clock := now), now).0], now)
  {
    if id in m {
      ProvisionGood(m[id], now);
    }
  }

  lemma StepOk(d: Row, a: Action)
    requires Inv(d)
    ensures Inv(Step(d, a))
  {
    if a.t >= d.clock {
      var e := d.(clock := a.t);
      ClockOk(d, a.t);
      match a
      case DoProvision(t) => ProvisionOk(e);
      case DoRebind(t) => RebindOk(e);
      case Bind(t) => SameLeases(e, Step(d, a));
      case Subscribe(_, _, _, _) => SameLeases(e, Step(d, a));
    }
  }

  lemma SameLeases(d: Row, d': Row)
    requires Inv(d) && d'.leases == d.leases && d'.log == d.log && d'.clock == d.clock
    ensures Inv(d')
  {
    forall i | 0 <= i < |d'.leases|
      ensures LeaseOk(d', i)
    {
      assert LeaseOk(d, i);
    }
  }

  lemma RebindOk(d: Row)
    requires Inv(d)
    ensures Inv(Rebind(d, d.clock))
  {
    var d' := Rebind(d, d.clock);
    if d' != d {
      forall i | 0 <= i < |d'.log|
        ensures MarkOk(d'.log[i], d'.clock)
      {
        assert i < |d.log| ==> MarkOk(d.log[i], d.clock) && d'.log[i] == d.log[i];
      }
    }
  }

  lemma {:induction false} RunOk(d: Row, run: seq<Action>)
    requires Inv(d)
    ensures Inv(Run(d, run))
    decreases |run|
  {
    if run != [] {
      StepOk(d, run[0]);
      RunOk(Step(d, run[0]), run[1..]);
    }
  }

  /** In every run a device has at most one unexpired lease, and every grant was positive,
      at most 1 GB and at most what the quota left at that moment. */
  lemma LeaseDiscipline(run: seq<Action>)
    ensures var d := Run(NEW, run);
            && (forall i, j :: 0 <= i < j < |d.leases| ==> !(d.leases[i].expires > d.clock && d.leases[j].expires > d.clock))
            && (forall i :: 0 <= i < |d.log| && d.log[i].Granted? ==>
                  0 < d.log[i].bytes <= GRANT && d.log[i].bytes <= d.log[i].left)
  {
    RunOk(NEW, run);
    var d := Run(NEW, run);
    forall i, j | 0 <= i < j < |d.leases|
      ensures !(d.leases[i].expires > d.clock && d.leases[j].expires > d.clock)
    {
      assert LeaseOk(d, j);
    }
    assert forall i :: 0 <= i < |d.log| ==> MarkOk(d.log[i], d.clock);
  }

  // ---- Grants over time ---------------------------------------------------

  /** Bytes granted, number of grants and of rebindings since `from`. */
  function GrantedSince(log: seq<Mark>, from: Time): int
  {
    if log == [] then 0
    else
      var last := log[|log| - 1];
      GrantedSince(log[..|log| - 1], from) + if last.Granted? && last.t >= from then last.bytes else 0
  }

  function Grants(log: seq<Mark>, from: Time): nat
  {
    if log == [] then 0
    else
      var last := log[|log| - 1];
      Grants(log[..|log| - 1], from) + if last.Granted? && last.t >= from then 1 else 0
  }

  function Rebindings(log: seq<Mark>, from: Time): nat
  {
    if log == [] then 0
    else
      var last := log[|log| - 1];
      Rebindings(log[..|log| - 1], from) + if last.Rebound? && last.t >= from then 1 else 0
  }

  lemma LogTail(log: seq<Mark>)
    requires LogOk(log) && log != []
    ensures LogOk(log[..|log| - 1])
  {
    var init := log[..|log| - 1];
    assert forall i :: 0 <= i < |init| ==> init[i] == log[i];
  }

  /** Every grant but the first is a day after the one before, unless a rebinding since
      `from` came between. */
  lemma {:induction false} Pace(log: seq<Mark>, from: Time)
    requires LogOk(log) && Grants(log, from) > 0
    ensures log != []
    ensures log[|log| - 1].t >= from + (Grants(log, from) - 1 - Rebindings(log, from)) * DAY
    ensures log[|log| - 1].Rebound? ==>
              log[|log| - 1].t >= from + (Grants(log, from) - Rebindings(log, from)) * DAY
  {
    var n := |log| - 1;
    var init := log[..n];
    var last := log[n];
    LogTail(log);
    if Grants(init, from) > 0 {
      Pace(init, from);
      assert init[n - 1] == log[n - 1] && log[n - 1].t <= last.t;
      SomeGrantIn(init, from);
      Steps(Grants(init, from) - Rebindings(init, from));
      Steps(Grants(init, from) - 1 - Rebindings(init, from));
    } else {
      assert last.Granted? && last.t >= from;
      NoNegative(Rebindings(log, from));
    }
  }

  lemma Steps(k: int)
    ensures (k + 1) * DAY == k * DAY + DAY
  {
  }

  lemma NoNegative(r: nat)
    ensures (0 - r) * DAY <= 0
  {
  }

  /** If anything was granted since `from`, the log ends after `from`. */
  lemma {:induction false} SomeGrantIn(log: seq<Mark>, from: Time)
    requires LogOk(log) && Grants(log, from) > 0
    ensures log != [] && log[|log| - 1].t >= from
  {
    var n := |log| - 1;
    var last := log[n];
    if !(last.Granted? && last.t >= from) {
      LogTail(log);
      SomeGrantIn(log[..n], from);
      assert log[n - 1].t <= last.t;
    }
  }

  lemma {:induction false} GrantedAtMost(log: seq<Mark>, from: Time)
    requires forall i :: 0 <= i < |log| && log[i].Granted? ==> log[i].bytes <= GRANT
    ensures GrantedSince(log, from) <= GRANT * Grants(log, from)
  {
    if log != [] {
      var init := log[..|log| - 1];
      assert forall i :: 0 <= i < |init| ==> init[i] == log[i];
      GrantedAtMost(init, from);
    }
  }

  lemma DivLower(w: int, k: int)
    requires w >= k * DAY
    ensures w / DAY >= k
  {
  }

  lemma Scale(x: int, y: int)
    ensures x <= y ==> GRANT * x <= GRANT * y
  {
  }

  lemma CountPaced(d: Row, from: Time)
    requires Inv(d) && from <= d.clock
    ensures Grants(d.log, from) <= (d.clock - from) / DAY + 1 + Rebindings(d.log, from)
  {
    if Grants(d.log, from) > 0 {
      Pace(d.log, from);
      assert MarkOk(d.log[|d.log| - 1], d.clock);
      DivLower(d.clock - from, Grants(d.log, from) - 1 - Rebindings(d.log, from));
    }
  }

  /** In every run and for every window that ends now, the grants total at most one GB for
      each full day of the window, one more, and one more per rebinding inside it. */
  lemma GrantsPaced(run: seq<Action>, from: Time)
    requires from <= Run(NEW, run).clock
    ensures var d := Run(NEW, run);
            GrantedSince(d.log, from) <= GRANT * ((d.clock - from) / DAY + 1 + Rebindings(d.log, from))
  {
    RunOk(NEW, run);
    var d := Run(NEW, run);
    assert forall i :: 0 <= i < |d.log| ==> MarkOk(d.log[i], d.clock);
    GrantedAtMost(d.log, from);
    CountPaced(d, from);
    Scale(Grants(d.log, from), (d.clock - from) / DAY + 1 + Rebindings(d.log, from));
  }

  // ---- Written out --------------------------------------------------------

  /** Some lease has not expired. */
  ghost predicate HasLease(leases: seq<Lease>, now: Time)
  {
    exists i :: 0 <= i < |leases| && leases[i].expires > now
  }

  lemma {:induction false} ActiveIs(leases: seq<Lease>, now: Time)
    requires forall i :: 0 <= i < |leases| ==> leases[i].bytes > 0
    ensures ActiveBytes(leases, now) >= 0
    ensures ActiveBytes(leases, now) > 0 <==> HasLease(leases, now)
  {
    if leases != [] {
      var init := leases[..|leases| - 1];
      assert forall i :: 0 <= i < |init| ==> init[i] == leases[i];
      ActiveIs(init, now);
      if HasLease(leases, now) && !HasLease(init, now) {
        var i :| 0 <= i < |leases| && leases[i].expires > now;
        assert i < |init| ==> init[i].expires > now;
      }
    }
  }

  /** Provisioning a device in any reachable state: refused without a usable subscription, an
      upsert alone while a lease runs, refused without quota, and else a lease of 24 hours over
      the lesser of 1 GB and what is left. */
  lemma ProvisionExact(run: seq<Action>)
    ensures var d := Run(NEW, run);
            var left := d.quota - d.used;
            var grant := if left < 1_000_000_000 then left else 1_000_000_000;
            Provision(d, d.clock)
            == if !d.usable then (d, Inactive)
               else if HasLease(d.leases, d.clock) then (d, UpsertOnly)
               else if left <= 0 then (d, NoQuota)
               else (d.(leases := d.leases + [Lease(grant, d.clock, d.clock + 86_400_000_000)],
                        log := d.log + [Granted(d.clock, grant, left)]),
                     Leased(grant))
  {
    RunOk(NEW, run);
    var d := Run(NEW, run);
    LeasePositive(d);
    ActiveIs(d.leases, d.clock);
  }

  /** Rebinding is refused within 24 hours of the last binding, else it drops every lease. */
  lemma RebindExact(d: Row, now: Time)
    ensures Rebind(d, now)
            == if d.lastBound.Some? && now < d.lastBound.value + 86_400_000_000 then d
               else d.(leases := [], lastBound := None, log := d.log + [Rebound(now)])
  {
  }

  /** What can be reserved: no more than asked for, no more than is left beside what is reserved
      already, and nothing below zero. */
  lemma ReservableExact(remaining: int, active: int, requested: int)
    ensures var left := remaining - active;
            var least := if requested < left then requested else left;
            Reservable(remaining, active, requested) == if least > 0 then least else 0
  {
  }

  /** What each action of a run does to the row, at its instant. */
  lemma StepExact(d: Row, a: Action)
    requires d.clock <= a.t
    ensures var e := Row(d.usable, d.quota, d.used, d.leases, d.lastBound, d.log, a.t);
            Step(d, a)
            == match a
               case DoProvision(t) => Provision(e, t).0
               case DoRebind(t) => Rebind(e, t)
               case Bind(t) => Row(d.usable, d.quota, d.used, d.leases, Some(t), d.log, t)
               case Subscribe(usable, quota, used, t) => Row(usable, quota, used, d.leases, d.lastBound, d.log, t)
  {
  }
}
