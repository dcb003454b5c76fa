/** Who may connect: Hysteria's authentication decision, Xray's admission predicate, and
    the collector that disconnects devices when their usage turns them away. */
module Admission {
  import opened Options
  import opened Devices
  import NodeStore

  datatype Reason = DeviceRevoked | SubscriptionExpired | UnknownPlan | TrialExhausted | LeaseExhausted

  datatype Session = Session(upBps: int, downBps: int, priority: nat, p2p: bool, throttled: bool)

  datatype Decision = Refused(reason: Reason) | Accepted(session: Session)

  function QuotaOf(d: Device, p: Policy): int
  {
    if d.quotaBytes <= 0 then p.quotaBytes else d.quotaBytes
  }

  /** The decision for a device found by its credential. */
  function Authenticate(d: Device, now: Time): Decision
  {
    if !d.active then Refused(DeviceRevoked)
    else if d.subscriptionEnds <= now then Refused(SubscriptionExpired)
    else if PolicyOf(d.plan).None? then Refused(UnknownPlan)
    else
      var base := PolicyOf(d.plan).value;
      var exhausted := d.usedBytes >= QuotaOf(d, base);
      if d.plan == Trial && exhausted then Refused(TrialExhausted)
      else if !exhausted && d.leaseBytes > 0 && (d.leaseExpires <= now || d.usedBytes >= d.leaseBytes)
      then Refused(LeaseExhausted)
      else if d.override_.expires > now
      then Accepted(Session(d.override_.upBps, d.override_.downBps, base.priority, d.override_.p2p, exhausted))
      else if exhausted
      then Accepted(Session(base.throttleBps, base.throttleBps, base.priority, base.p2p, true))
      else Accepted(Session(base.upBps, base.downBps, base.priority, base.p2p, false))
  }

  /** Xray's predicate. */
  function Allowed(d: Device, now: Time): bool
  {
    d.active && d.subscriptionEnds > now && PolicyOf(d.plan).Some? &&
    var exhausted := d.usedBytes >= QuotaOf(d, PolicyOf(d.plan).value);
    !(d.plan == Trial && exhausted)
      && (exhausted || d.leaseBytes <= 0 || (d.leaseExpires > now && d.usedBytes < d.leaseBytes))
  }

  /** The collector's reason to kick: a finished trial or a finished lease. */
  predicate ShouldKick(d: Device)
  {
    PolicyOf(d.plan).Some? &&
    ((d.plan == Trial && d.usedBytes >= QuotaOf(d, PolicyOf(d.plan).value))
     || (d.leaseBytes > 0 && d.usedBytes >= d.leaseBytes))
  }

  /** Both admission paths accept the same devices at the same instants. */
  lemma AdmissionAgrees(d: Device, now: Time)
    ensures Authenticate(d, now).Accepted? <==> Allowed(d, now)
  {
  }

  /** More usage turns an accepted device away exactly when it is kicked and not merely
      throttled: a paid plan past its quota stays admitted. */
  lemma FlipExact(d: Device, bytes: int, now: Time)
    requires bytes >= 0 && Allowed(d, now)
    ensures var d' := d.(usedBytes := d.usedBytes + bytes);
            !Allowed(d', now) <==>
              ShouldKick(d') && (d.plan == Trial || d'.usedBytes < QuotaOf(d, PolicyOf(d.plan).value))
  {
  }

  // ---- The collection pass ------------------------------------------------

  datatype Counter = Counter(device: DeviceId, tx: int, rx: int)

  /** A counter the pass records: negative ones are skipped. */
  predicate Counts(c: Counter)
  {
    c.tx >= 0 && c.rx >= 0
  }

  /** The store after the counters up to the first one of an unknown device. */
  function Recorded(s: NodeStore.Store, counters: seq<Counter>): NodeStore.Store
    decreases |counters|
  {
    if counters == [] then s
    else if !Counts(counters[0]) then Recorded(s, counters[1..])
    else if counters[0].device !in s.devices then s
    else Recorded(NodeStore.AddUsage(s, counters[0].device, counters[0].tx, counters[0].rx), counters[1..])
  }

  ghost predicate AllKnown(s: NodeStore.Store, counters: seq<Counter>)
  {
    forall i :: 0 <= i < |counters| && Counts(counters[i]) ==> counters[i].device in s.devices
  }

  ghost predicate TurnedAway(s: NodeStore.Store, s': NodeStore.Store, d: DeviceId, now: Time)
  {
    d in s.devices && d in s'.devices && Allowed(s.devices[d], now) && !Allowed(s'.devices[d], now)
  }

  class Collector {
    const db: NodeStore.Database

    constructor (db: NodeStore.Database)
      ensures this.db == db
    {
      this.db := db;
    }

    /** Records one counter and decides whether its device has to go. */
    method CollectOne(c: Counter) returns (known: bool, kick: bool)
      modifies db
      ensures known <==> c.device in old(db.devices)
      ensures db.Value() == NodeStore.AddUsage(old(db.Value()), c.device, c.tx, c.rx)
      ensures kick <==> known && ShouldKick(db.devices[c.device])
    {
      var used := db.Record(c.device, c.tx, c.rx);
      if used.None? {
        return false, false;
      }
      var device := db.devices[c.device];
      var policy := PolicyOf(device.plan);
      if policy.None? {
        return true, false;
      }
      var quota := device.quotaBytes;
      if quota <= 0 {
        quota := policy.value.quotaBytes;
      }
      return true, (device.plan == Trial && used.value >= quota)
                   || (device.leaseBytes > 0 && used.value >= device.leaseBytes);
    }

    /** One pass over the counters that Hysteria returned and cleared. */
    method Collect(counters: seq<Counter>, now: Time) returns (ok: bool, kicked: seq<DeviceId>)
      modifies db
      ensures db.Value() == Recorded(old(db.Value()), counters)
      ensures ok <==> AllKnown(old(db.Value()), counters)
      ensures forall d :: TurnedAway(old(db.Value()), db.Value(), d, now) ==> d in kicked
      ensures forall d :: d in kicked ==> d in db.devices && ShouldKick(db.devices[d])
    {
      ghost var s0 := db.Value();
      kicked := [];
      var i := 0;
      assert counters[0..] == counters;
      while i < |counters|
        invariant 0 <= i <= |counters|
        invariant Recorded(db.Value(), counters[i..]) == Recorded(s0, counters)
        invariant AllKnown(s0, counters) <==> AllKnown(db.Value(), counters[i..])
        invariant db.devices.Keys == s0.devices.Keys
        invariant forall d :: TurnedAway(s0, db.Value(), d, now) ==> d in kicked
        invariant forall d :: d in kicked ==> d in db.devices && ShouldKick(db.devices[d])
      {
        var c := counters[i];
        ghost var s := db.Value();
        KnownTail(s, counters[i..]);
        assert counters[i..][1..] == counters[i + 1..];
        i := i + 1;
        if c.tx < 0 || c.rx < 0 {
          continue;
        }
        var known, kick := CollectOne(c);
        if !known {
          return false, kicked;
        }
        KeptKicks(s0, s, c, now, kicked);
        KnownSame(s, db.Value(), counters[i..]);
        if kick {
          kicked := kicked + [c.device];
        }
      }
      return true, kicked;
    }
  }

  /** After recording a counter, only its own device can be missing from the kicked list,
      and then it is due to be kicked. */
  lemma KeptKicks(s0: NodeStore.Store, s: NodeStore.Store, c: Counter, now: Time, kicked: seq<DeviceId>)
    requires c.device in s.devices && Counts(c)
    requires forall d :: TurnedAway(s0, s, d, now) ==> d in kicked
    requires forall d :: d in kicked ==> d in s.devices && ShouldKick(s.devices[d])
    ensures var s' := NodeStore.AddUsage(s, c.device, c.tx, c.rx);
            && (forall d :: TurnedAway(s0, s', d, now) ==> d in kicked || (d == c.device && ShouldKick(s'.devices[d])))
            && (forall d :: d in kicked ==> d in s'.devices && ShouldKick(s'.devices[d]))
  {
    FlipIsKick(s.devices[c.device], c.tx + c.rx, now);
    TurnedStep(s0, s, c, now);
  }

  lemma KnownTail(s: NodeStore.Store, counters: seq<Counter>)
    requires counters != []
    ensures AllKnown(s, counters) <==>
            (Counts(counters[0]) ==> counters[0].device in s.devices) && AllKnown(s, counters[1..])
  {
    assert forall i :: 1 <= i < |counters| ==> counters[i] == counters[1..][i - 1];
    assert forall i :: 0 <= i < |counters[1..]| ==> counters[1..][i] == counters[i + 1];
  }

  lemma KnownSame(s: NodeStore.Store, s': NodeStore.Store, counters: seq<Counter>)
    requires s.devices.Keys == s'.devices.Keys
    ensures AllKnown(s, counters) <==> AllKnown(s', counters)
  {
  }

  lemma FlipIsKick(d: Device, bytes: int, now: Time)
    requires bytes >= 0
    ensures var d' := d.(usedBytes := d.usedBytes + bytes);
            && (Allowed(d, now) && !Allowed(d', now) ==> ShouldKick(d'))
            && (ShouldKick(d) ==> ShouldKick(d'))
  {
  }

  /** Recording usage turns away at most the device it is recorded for. */
  lemma TurnedStep(s0: NodeStore.Store, s: NodeStore.Store, c: Counter, now: Time)
    requires c.device in s.devices
    ensures var s' := NodeStore.AddUsage(s, c.device, c.tx, c.rx);
            forall d :: TurnedAway(s0, s', d, now) ==>
              TurnedAway(s0, s, d, now) || (d == c.device && Allowed(s.devices[d], now) && !Allowed(s'.devices[d], now))
  {
  }

  /** Clearing the counters loses nothing exactly when all of them are recorded: the pass
      stops at the first unknown device and drops what follows. */
  lemma {:induction false} AllRecorded(s: NodeStore.Store, counters: seq<Counter>)
    ensures AllKnown(s, counters) ==>
              |Recorded(s, counters).events| == |s.events| + NumCounts(counters)
    ensures |Recorded(s, counters).events| <= |s.events| + NumCounts(counters)
    ensures !AllKnown(s, counters) ==> |Recorded(s, counters).events| < |s.events| + NumCounts(counters)
    decreases |counters|
  {
    if counters != [] {
      KnownTail(s, counters);
      var c := counters[0];
      if !Counts(c) {
        AllRecorded(s, counters[1..]);
      } else if c.device in s.devices {
        var s' := NodeStore.AddUsage(s, c.device, c.tx, c.rx);
        KnownSame(s, s', counters[1..]);
        AllRecorded(s', counters[1..]);
      }
    }
  }

  function NumCounts(counters: seq<Counter>): nat
    decreases |counters|
  {
    if counters == [] then 0 else (if Counts(counters[0]) then 1 else 0) + NumCounts(counters[1..])
  }

  // ---- Written out --------------------------------------------------------

  /** The plans: speeds, quota, speed past the quota, priority, peer-to-peer. */
  lemma PlanTable()
    ensures PolicyOf(Trial) == Some(Policy(30_000_000, 30_000_000, 20_000_000_000, 0, 1, false))
    ensures PolicyOf(Lite) == Some(Policy(50_000_000, 50_000_000, 150_000_000_000, 5_000_000, 1, false))
    ensures PolicyOf(Plus) == Some(Policy(200_000_000, 200_000_000, 600_000_000_000, 10_000_000, 2, true))
    ensures PolicyOf(Ultra) == Some(Policy(0, 0, 2_000_000_000_000, 20_000_000, 3, true))
    ensures forall name :: PolicyOf(Unknown(name)) == None
  {
  }

  /** The device's own quota, or its plan's if it has none. */
  function Limit(d: Device): int
    requires !d.plan.Unknown?
  {
    if d.quotaBytes > 0 then d.quotaBytes
    else match d.plan
         case Trial => 20_000_000_000
         case Lite => 150_000_000_000
         case Plus => 600_000_000_000
         case Ultra => 2_000_000_000_000
  }

  /** Who is admitted: an active device of a known plan before the end of its subscription, that
      has quota left and its lease, if any, in time and not used up; or a paid one past its
      quota, whatever its lease. */
  lemma AllowedExact(d: Device, now: Time)
    ensures Allowed(d, now) <==>
            && d.active && now < d.subscriptionEnds && !d.plan.Unknown?
            && if d.usedBytes >= Limit(d) then d.plan != Trial
               else d.leaseBytes <= 0 || (now < d.leaseExpires && d.usedBytes < d.leaseBytes)
  {
  }

  /** Why a device is refused: the first reason that applies. */
  lemma RefusedExact(d: Device, now: Time)
    ensures Authenticate(d, now).Refused? ==>
            Authenticate(d, now).reason
            == (if !d.active then DeviceRevoked
                else if d.subscriptionEnds <= now then SubscriptionExpired
                else if d.plan.Unknown? then UnknownPlan
                else if d.usedBytes >= Limit(d) then TrialExhausted
                else LeaseExhausted)
  {
  }

  /** What an admitted device gets: the override while it lasts, else the speed of its plan,
      throttled past the quota. The priority is always that of the plan. */
  lemma SessionExact(d: Device, now: Time)
    requires Authenticate(d, now).Accepted?
    ensures !d.plan.Unknown?
    ensures var s := Authenticate(d, now).session;
            var p := PolicyOf(d.plan).value;
            var over := d.usedBytes >= Limit(d);
            && s.priority == p.priority && s.throttled == over
            && (d.override_.expires > now ==>
                  s.upBps == d.override_.upBps && s.downBps == d.override_.downBps && s.p2p == d.override_.p2p)
            && (d.override_.expires <= now ==>
                  && s.p2p == p.p2p
                  && (over ==> s.upBps == p.throttleBps && s.downBps == p.throttleBps)
                  && (!over ==> s.upBps == p.upBps && s.downBps == p.downBps))
  {
  }

  /** Who is kicked: a trial at its quota, and any known plan at the end of its lease. */
  lemma KickExact(d: Device)
    ensures ShouldKick(d) <==>
            && !d.plan.Unknown?
            && ((d.plan == Trial && d.usedBytes >= Limit(d)) || (d.leaseBytes > 0 && d.usedBytes >= d.leaseBytes))
  {
  }

  /** The journal rows of counters, without the negative ones. */
  function JournalOf(counters: seq<Counter>): seq<NodeStore.Event>
  {
    if counters == [] then []
    else (if counters[0].tx < 0 || counters[0].rx < 0 then []
          else [NodeStore.Event(counters[0].device, counters[0].tx, counters[0].rx)]) + JournalOf(counters[1..])
  }

  /** A pass over known devices journals every counter, in order. */
  lemma {:induction false} JournalExact(s: NodeStore.Store, counters: seq<Counter>)
    requires AllKnown(s, counters)
    ensures Recorded(s, counters).events == s.events + JournalOf(counters)
    decreases |counters|
  {
    if counters != [] {
      var c, rest := counters[0], counters[1..];
      var s' := if Counts(c) then NodeStore.AddUsage(s, c.device, c.tx, c.rx) else s;
      forall i | 0 <= i < |rest| && Counts(rest[i])
        ensures rest[i].device in s'.devices
      {
        assert rest[i] == counters[i + 1];
      }
      JournalExact(s', rest);
      if Counts(c) {
        assert s.events + ([NodeStore.Event(c.device, c.tx, c.rx)] + JournalOf(rest))
            == s.events + [NodeStore.Event(c.device, c.tx, c.rx)] + JournalOf(rest);
      } else {
        assert s.events + ([] + JournalOf(rest)) == s.events + JournalOf(rest);
      }
    }
  }
}
