/** Keeping Xray's user table in step with the node's devices (internal/xray/manager.go).
    A pass is atomic, except that any of its remote calls may fail, before or after taking
    effect. Devices are judged at one instant per pass. */
module XrayManager {
  import opened Options
  import opened Devices
  import NodeStore
  import A = Admission

  type Email = string
  type Uuid = string

  /** A table entry: a VLESS account, or one the manager does not recognise. */
  datatype User = Vless(id: Uuid) | Foreign

  type Table = map<Email, User>

  /** The devices that should be present, with the UUID derived from their credential hash;
      None when the hash cannot be decoded. */
  type Wanted = map<DeviceId, Option<Uuid>>

  datatype Rpc = Fine | FailedBefore | FailedAfter

  const SUFFIX := "@risevpn"

  function EmailOf(d: DeviceId): Email
  {
    d + SUFFIX
  }

  predicate Ours(e: Email)
  {
    |e| >= |SUFFIX| && e[|e| - |SUFFIX|..] == SUFFIX
  }

  function DeviceOf(e: Email): DeviceId
    requires Ours(e)
  {
    e[..|e| - |SUFFIX|]
  }

  lemma EmailRoundTrip(d: DeviceId)
    ensures Ours(EmailOf(d)) && DeviceOf(EmailOf(d)) == d
  {
  }

  lemma DeviceRoundTrip(e: Email)
    requires Ours(e)
    ensures EmailOf(DeviceOf(e)) == e
  {
  }

  lemma EmailsDiffer(d: DeviceId, d': DeviceId)
    ensures EmailOf(d) == EmailOf(d') ==> d == d'
  {
    EmailRoundTrip(d);
    EmailRoundTrip(d');
  }

  ghost predicate Managed(t: Table, d: DeviceId)
  {
    EmailOf(d) in t && t[EmailOf(d)].Vless?
  }

  /** A name that belongs to a device but an account that is not ours to read. */
  ghost predicate Hidden(t: Table, d: DeviceId)
  {
    EmailOf(d) in t && t[EmailOf(d)].Foreign?
  }

  /** The managed users are exactly the wanted devices, each with its derived UUID. */
  ghost predicate Converged(t: Table, want: Wanted)
  {
    && (forall d :: Managed(t, d) ==> d in want)
    && (forall d :: d in want ==> Right(t, want, d))
  }

  ghost predicate Right(t: Table, want: Wanted, d: DeviceId)
    requires d in want
  {
    want[d].Some? && EmailOf(d) in t && t[EmailOf(d)] == Vless(want[d].value)
  }

  /** Everything that is not a VLESS account under one of our names stays as it was. */
  ghost predicate ForeignKept(t: Table, t': Table)
  {
    forall e :: e in t && (!Ours(e) || t[e].Foreign?) ==> e in t' && t'[e] == t[e]
  }

  /** Only our names are ever added. */
  ghost predicate OnlyOursAdded(t: Table, t': Table)
  {
    forall e :: e in t' && e !in t ==> Ours(e)
  }

  // ---- Distance -----------------------------------------------------------

  ghost function Stale(t: Table, want: Wanted): set<Email>
  {
    set e | e in t && Ours(e) && t[e].Vless? && DeviceOf(e) !in want
  }

  ghost function Wrong(t: Table, want: Wanted): set<DeviceId>
  {
    set d | d in want && Managed(t, d) && want[d].Some? && t[EmailOf(d)] != Vless(want[d].value)
  }

  ghost function Missing(t: Table, want: Wanted): set<DeviceId>
  {
    set d | d in want && EmailOf(d) !in t
  }

  /** Remote operations still needed. */
  ghost function Distance(t: Table, want: Wanted): nat
  {
    |Stale(t, want)| + 2 * |Wrong(t, want)| + |Missing(t, want)|
  }

  lemma RemoveStale(t: Table, want: Wanted, d: DeviceId)
    requires Managed(t, d) && d !in want
    ensures Distance(t - {EmailOf(d)}, want) < Distance(t, want)
  {
    var t' := t - {EmailOf(d)};
    EmailRoundTrip(d);
    assert Stale(t', want) == Stale(t, want) - {EmailOf(d)};
    assert EmailOf(d) in Stale(t, want);
    forall x | x in want
      ensures EmailOf(x) != EmailOf(d)
    {
      EmailsDiffer(x, d);
    }
    assert Wrong(t', want) == Wrong(t, want);
    assert Missing(t', want) == Missing(t, want);
  }

  lemma RemoveWrong(t: Table, want: Wanted, d: DeviceId)
    requires d in want && d in Wrong(t, want)
    ensures Distance(t - {EmailOf(d)}, want) < Distance(t, want)
  {
    var t' := t - {EmailOf(d)};
    EmailRoundTrip(d);
    forall x | x in want && x != d
      ensures EmailOf(x) != EmailOf(d)
    {
      EmailsDiffer(x, d);
    }
    assert Stale(t', want) == Stale(t, want);
    assert Wrong(t', want) == Wrong(t, want) - {d};
    assert Missing(t', want) == Missing(t, want) + {d};
  }

  lemma AddMissing(t: Table, want: Wanted, d: DeviceId)
    requires d in want && want[d].Some? && EmailOf(d) !in t
    ensures Distance(t[EmailOf(d) := Vless(want[d].value)], want) < Distance(t, want)
  {
    var t' := t[EmailOf(d) := Vless(want[d].value)];
    EmailRoundTrip(d);
    forall x | x in want && x != d
      ensures EmailOf(x) != EmailOf(d)
    {
      EmailsDiffer(x, d);
    }
    assert Stale(t', want) == Stale(t, want);
    assert Wrong(t', want) == Wrong(t, want);
    assert Missing(t', want) == Missing(t, want) - {d};
    assert d in Missing(t, want);
  }

  /** Distance zero is convergence, as far as the credentials can be decoded and no name is hidden. */
  lemma ZeroIsConverged(t: Table, want: Wanted)
    requires forall d :: d in want ==> want[d].Some? && !Hidden(t, d)
    ensures Distance(t, want) == 0 <==> Converged(t, want)
  {
    if Distance(t, want) == 0 {
      assert Stale(t, want) == {} && Wrong(t, want) == {} && Missing(t, want) == {};
      forall d | Managed(t, d)
        ensures d in want
      {
        EmailRoundTrip(d);
        assert EmailOf(d) !in Stale(t, want);
      }
      forall d | d in want
        ensures Right(t, want, d)
      {
        assert d !in Missing(t, want) && d !in Wrong(t, want);
      }
    } else if Converged(t, want) {
      NothingLeft(t, want);
    }
  }

  lemma NothingLeft(t: Table, want: Wanted)
    requires Converged(t, want)
    ensures Distance(t, want) == 0
  {
    forall e | e in t && Ours(e) && t[e].Vless?
      ensures DeviceOf(e) in want
    {
      DeviceRoundTrip(e);
      assert Managed(t, DeviceOf(e));
    }
    assert Stale(t, want) == {};
    assert forall d :: d in want ==> Right(t, want, d);
    assert Wrong(t, want) == {} && Missing(t, want) == {};
  }

  ghost predicate Snapshot(t: Table, current: map<DeviceId, Uuid>)
  {
    && (forall d :: d in current <==> Managed(t, d))
    && (forall d :: d in current ==> Managed(t, d) && t[EmailOf(d)] == Vless(current[d]))
  }

  // ---- The remote table ---------------------------------------------------

  class Server {
    var users: Table

    /** Removing an absent user is not an error. */
    method Remove(d: DeviceId, rpc: Rpc) returns (ok: bool)
      modifies this
      ensures users == if rpc.FailedBefore? then old(users) else old(users) - {EmailOf(d)}
      ensures ok <==> rpc.Fine?
    {
      if !rpc.FailedBefore? {
        users := users - {EmailOf(d)};
      }
      ok := rpc.Fine?;
    }

    /** Adding a present user is refused; a managed one is never added. */
    method Add(d: DeviceId, id: Uuid, rpc: Rpc) returns (ok: bool)
      requires !Managed(users, d)
      modifies this
      ensures users == if rpc.FailedBefore? || EmailOf(d) in old(users) then old(users)
                       else old(users)[EmailOf(d) := Vless(id)]
      ensures ok <==> rpc.Fine? && EmailOf(d) !in old(users)
    {
      if rpc.FailedBefore? || EmailOf(d) in users {
        return false;
      }
      users := users[EmailOf(d) := Vless(id)];
      ok := rpc.Fine?;
    }

    /** The recognised users. */
    method List() returns (current: map<DeviceId, Uuid>)
      ensures Snapshot(users, current)
    {
      current := map[];
      var left := users.Keys;
      while left != {}
        invariant left <= users.Keys
        invariant forall d :: d in current <==> Managed(users, d) && EmailOf(d) !in left
        invariant forall d :: d in current ==> Managed(users, d) && users[EmailOf(d)] == Vless(current[d])
        decreases left
      {
        var e :| e in left;
        left := left - {e};
        if Ours(e) && users[e].Vless? {
          DeviceRoundTrip(e);
          current := current[DeviceOf(e) := users[e].id];
        }
        forall d
          ensures EmailOf(d) == e ==> Ours(e) && DeviceOf(e) == d
        {
          EmailRoundTrip(d);
        }
      }
    }
  }

  // ---- The manager --------------------------------------------------------

  /** What a pass may leave behind, finished or not. */
  ghost predicate PassKeeps(t: Table, t': Table, want: Wanted, ops: nat)
  {
    && ForeignKept(t, t') && OnlyOursAdded(t, t')
    && Distance(t', want) + ops <= Distance(t, want)
    && (ops == 0 ==> t' == t)
  }

  /** The part of a pass after its calls so far, `todo` being the current users still to visit. */
  ghost predicate Visited(t: Table, t': Table, want: Wanted, current: map<DeviceId, Uuid>, todo: set<DeviceId>)
  {
    && (forall d :: d in todo ==> d in current && EmailOf(d) in t' && t'[EmailOf(d)] == Vless(current[d]))
    && (forall d :: d in current && d !in todo ==> if d in want then Right(t', want, d) else EmailOf(d) !in t')
    && (forall d :: d !in current ==> SameAt(t, t', d))
  }

  ghost predicate SameAt(t: Table, t': Table, d: DeviceId)
  {
    (EmailOf(d) in t <==> EmailOf(d) in t') && (EmailOf(d) in t ==> t'[EmailOf(d)] == t[EmailOf(d)])
  }

  /** The counters of one device, or a failed read of them. A missing counter reads as zero. */
  datatype Reading = Read(device: DeviceId, tx: int, rx: int) | Unread(device: DeviceId)

  /** The store and the blocked devices after a collection pass; it stops at a failed read. */
  function Sampled(s: NodeStore.Store, blocked: set<DeviceId>, readings: seq<Reading>, now: Time)
    : (NodeStore.Store, set<DeviceId>)
    decreases |readings|
  {
    if readings == [] || readings[0].Unread? then (s, blocked)
    else
      var r := readings[0];
      if r.tx <= 0 && r.rx <= 0 then Sampled(s, blocked, readings[1..], now)
      else
        var s' := NodeStore.AddUsage(s, r.device, r.tx, r.rx);
        var gone := r.device in s'.devices && !A.Allowed(s'.devices[r.device], now);
        Sampled(s', if gone then blocked + {r.device} else blocked, readings[1..], now)
  }

  ghost predicate Shrunk(t: Table, t': Table)
  {
    forall e :: e in t' ==> e in t && t'[e] == t[e]
  }

  class Manager {
    const server: Server
    const derive: string -> Option<Uuid>
    var blocked: set<DeviceId>

    constructor (server: Server, derive: string -> Option<Uuid>)
      ensures this.server == server && this.derive == derive && blocked == {}
    {
      this.server, this.derive, blocked := server, derive, {};
    }

    ghost function Desired(devices: map<DeviceId, Device>, now: Time): Wanted
      reads this
    {
      map d | d in devices && A.Allowed(devices[d], now) && d !in blocked :: derive(devices[d].credentialHash)
    }

    /** One pass; `rpc(k)` is the fate of the k-th remote change. */
    method Reconcile(devices: map<DeviceId, Device>, now: Time, rpc: nat -> Rpc) returns (ok: bool, ops: nat)
      modifies server
      ensures PassKeeps(old(server.users), server.users, Desired(devices, now), ops)
      ensures ok ==> Converged(server.users, Desired(devices, now))
      ensures (forall k :: rpc(k).Fine?) ==>
                (ok <==> forall d :: d in Desired(devices, now) ==>
                           Desired(devices, now)[d].Some? && !Hidden(old(server.users), d))
      ensures Converged(old(server.users), Desired(devices, now)) ==> ok && ops == 0 && server.users == old(server.users)
    {
      var want: Wanted := map d | d in devices && A.Allowed(devices[d], now) && d !in blocked ::
        derive(devices[d].credentialHash);
      ghost var t := server.users;
      var current := server.List();
      var calls: nat;
      ok, calls, ops := Sweep(want, current, rpc);
      if ok {
        ok, ops := Fill(want, current, rpc, calls, ops, t);
      }
    }

    /** Removes a present user. */
    method Drop(d: DeviceId, want: Wanted, rpc: Rpc, ops0: nat, ghost t: Table) returns (ok: bool, ops: nat)
      requires PassKeeps(t, server.users, want, ops0) && Managed(server.users, d)
      requires d !in want || d in Wrong(server.users, want)
      modifies server
      ensures PassKeeps(t, server.users, want, ops)
      ensures forall x :: x != d ==> SameAt(old(server.users), server.users, x)
      ensures ok ==> EmailOf(d) !in server.users
      ensures !ok ==> !rpc.Fine?
    {
      ghost var u := server.users;
      if d in want {
        RemoveWrong(u, want, d);
      } else {
        RemoveStale(u, want, d);
      }
      RemovalKeeps(t, u, want, ops0, d);
      ok := server.Remove(d, rpc);
      ops := if rpc.FailedBefore? then ops0 else ops0 + 1;
      NamesApart(d);
    }

    /** Adds a user; an entry already under its name refuses it. */
    method Enter(d: DeviceId, want: Wanted, rpc: Rpc, ops0: nat, ghost t: Table) returns (ok: bool, ops: nat)
      requires PassKeeps(t, server.users, want, ops0) && d in want && want[d].Some? && !Managed(server.users, d)
      modifies server
      ensures PassKeeps(t, server.users, want, ops)
      ensures forall x :: x != d ==> SameAt(old(server.users), server.users, x)
      ensures ok ==> Right(server.users, want, d)
      ensures !ok ==> !rpc.Fine? || EmailOf(d) in old(server.users)
    {
      var u := server.users;
      ok := server.Add(d, want[d].value, rpc);
      ops := ops0;
      if EmailOf(d) !in u {
        AddMissing(u, want, d);
        AdditionKeeps(t, u, want, ops0, d);
        ops := if rpc.FailedBefore? then ops0 else ops0 + 1;
      }
      NamesApart(d);
    }

    /** One current user: removed, replaced or left alone. */
    method Settle(d: DeviceId, id: Uuid, want: Wanted, rpc: nat -> Rpc, calls0: nat, ops0: nat, ghost t: Table)
      returns (ok: bool, calls: nat, ops: nat)
      requires PassKeeps(t, server.users, want, ops0)
      requires Managed(server.users, d) && server.users[EmailOf(d)] == Vless(id)
      modifies server
      ensures PassKeeps(t, server.users, want, ops)
      ensures forall x :: x != d ==> SameAt(old(server.users), server.users, x)
      ensures ok ==> if d in want then Right(server.users, want, d) else EmailOf(d) !in server.users
      ensures !ok ==> (exists k :: !rpc(k).Fine?) || (d in want && want[d].None?)
      ensures d in want && want[d] == Some(id) ==> ok && ops == ops0
    {
      calls, ops := calls0, ops0;
      if d !in want {
        ok, ops := Drop(d, want, rpc(calls), ops, t);
        calls := calls + 1;
        return;
      }
      if want[d].None? {
        return false, calls, ops;
      }
      if id == want[d].value {
        return true, calls, ops;
      }
      ghost var u := server.users;
      ok, ops := Drop(d, want, rpc(calls), ops, t);
      calls := calls + 1;
      if ok {
        ghost var v := server.users;
        ok, ops := Enter(d, want, rpc(calls), ops, t);
        calls := calls + 1;
        forall x | x != d
          ensures SameAt(u, server.users, x)
        {
          assert SameAt(u, v, x) && SameAt(v, server.users, x);
        }
      }
    }

    /** The loop over the current users. */
    method Sweep(want: Wanted, current: map<DeviceId, Uuid>, rpc: nat -> Rpc) returns (ok: bool, calls: nat, ops: nat)
      requires Snapshot(server.users, current)
      modifies server
      ensures PassKeeps(old(server.users), server.users, want, ops)
      ensures ok ==> Visited(old(server.users), server.users, want, current, {})
      ensures !ok ==> (exists k :: !rpc(k).Fine?) || (exists d :: d in want && want[d].None?)
      ensures Converged(old(server.users), want) ==> ok && ops == 0
    {
      ghost var t := server.users;
      calls, ops := 0, 0;
      var todo := current.Keys;
      VisitedStart(t, want, current);
      while todo != {}
        invariant todo <= current.Keys
        invariant PassKeeps(t, server.users, want, ops)
        invariant Visited(t, server.users, want, current, todo)
        invariant Converged(t, want) ==> ops == 0
        decreases todo
      {
        var d :| d in todo;
        assert todo - {d} + {d} == todo;
        ghost var u := server.users;
        VisitedOne(t, u, want, current, todo, d);
        todo := todo - {d};
        ok, calls, ops := Settle(d, current[d], want, rpc, calls, ops, t);
        ConvergedMatches(t, want, current, d);
        if !ok {
          return;
        }
        OthersVisited(t, u, server.users, want, current, todo, d);
      }
      ok := true;
    }

    /** The loop over the wanted devices that were not present. */
    method Fill(want: Wanted, current: map<DeviceId, Uuid>, rpc: nat -> Rpc, calls0: nat, ops0: nat, ghost t: Table)
      returns (ok: bool, ops: nat)
      requires Snapshot(t, current)
      requires PassKeeps(t, server.users, want, ops0) && Visited(t, server.users, want, current, {})
      modifies server
      ensures PassKeeps(t, server.users, want, ops)
      ensures ok ==> Converged(server.users, want) && forall d :: d in want ==> !Hidden(t, d)
      ensures !ok ==> (exists k :: !rpc(k).Fine?) || (exists d :: d in want && (want[d].None? || Hidden(t, d)))
      ensures Converged(t, want) ==> ok && ops == ops0
    {
      ops := ops0;
      var calls := calls0;
      var left := want.Keys - current.Keys;
      FillStart(t, server.users, want, current);
      while left != {}
        invariant left <= want.Keys - current.Keys
        invariant PassKeeps(t, server.users, want, ops)
        invariant Filled(t, server.users, want, left)
        invariant Converged(t, want) ==> left == {} && ops == ops0
        decreases left
      {
        var d :| d in left;
        ghost var u := server.users;
        assert SameAt(t, u, d) && !Managed(u, d);
        if want[d].None? {
          return false, ops;
        }
        ok, ops := Enter(d, want, rpc(calls), ops, t);
        if !ok {
          assert EmailOf(d) in u ==> Hidden(t, d);
          return;
        }
        FillStep(t, u, server.users, want, left, d);
        left := left - {d};
        calls := calls + 1;
      }
      ok := true;
    }

    /** A device was changed by the controller: it is unblocked and brought in line. */
    method Upsert(device: Device, now: Time, rpc: nat -> Rpc) returns (ok: bool)
      modifies this, server
      ensures blocked == old(blocked) - {device.id}
      ensures ok ==> if A.Allowed(device, now)
                     then derive(device.credentialHash).Some? && EmailOf(device.id) in server.users
                          && server.users[EmailOf(device.id)] == Vless(derive(device.credentialHash).value)
                     else EmailOf(device.id) !in server.users
      ensures (forall k :: rpc(k).Fine?) ==>
                (ok <==> !A.Allowed(device, now) || (derive(device.credentialHash).Some? && !Hidden(old(server.users), device.id)))
      ensures A.Allowed(device, now) && EmailOf(device.id) in old(server.users) && derive(device.credentialHash).Some?
              && old(server.users)[EmailOf(device.id)] == Vless(derive(device.credentialHash).value) ==>
                ok && server.users == old(server.users)
      ensures forall e :: e != EmailOf(device.id) ==>
                (e in server.users <==> e in old(server.users)) && (e in server.users ==> server.users[e] == old(server.users)[e])
    {
      blocked := blocked - {device.id};
      if !A.Allowed(device, now) {
        ok := server.Remove(device.id, rpc(0));
        return;
      }
      var current := server.List();
      var expected := derive(device.credentialHash);
      if expected.None? {
        return false;
      }
      if device.id in current && current[device.id] == expected.value {
        return true;
      }
      if device.id in current {
        ok := server.Remove(device.id, rpc(0));
        if !ok {
          return;
        }
      }
      ok := server.Add(device.id, expected.value, rpc(1));
    }

    /** Usage collection over the stored devices: a device that its new usage turns away is
        blocked in the same pass, and gone from the table if the remote calls succeed. */
    method CollectUsage(db: NodeStore.Database, readings: seq<Reading>, now: Time, rpc: nat -> Rpc) returns (ok: bool)
      requires forall i :: 0 <= i < |readings| ==> readings[i].device in db.devices
      modifies this, server, db
      ensures (db.Value(), blocked) == Sampled(old(db.Value()), old(blocked), readings, now)
      ensures ok <==> forall i :: 0 <= i < |readings| ==> !readings[i].Unread?
      ensures forall d :: A.TurnedAway(old(db.Value()), db.Value(), d, now) ==> d in blocked
      ensures forall d :: (forall k :: rpc(k).Fine?) && d in blocked && d !in old(blocked) ==> EmailOf(d) !in server.users
      ensures Shrunk(old(server.users), server.users)
    {
      ghost var s0 := db.Value();
      ghost var b0 := blocked;
      var i := 0;
      while i < |readings|
        invariant 0 <= i <= |readings|
        invariant forall j :: 0 <= j < i ==> !readings[j].Unread?
        invariant db.devices.Keys == s0.devices.Keys
        invariant Sampled(s0, b0, readings, now) == Sampled(db.Value(), blocked, readings[i..], now)
        invariant forall d :: A.TurnedAway(s0, db.Value(), d, now) ==> d in blocked
        invariant forall d :: (forall k :: rpc(k).Fine?) && d in blocked && d !in b0 ==> EmailOf(d) !in server.users
        invariant Shrunk(old(server.users), server.users)
      {
        var r := readings[i];
        assert readings[i..][1..] == readings[i + 1..];
        if r.Unread? {
          return false;
        }
        if r.tx > 0 || r.rx > 0 {
          ghost var s := db.Value();
          var _ := db.Record(r.device, r.tx, r.rx);
          A.TurnedStep(s0, s, A.Counter(r.device, r.tx, r.rx), now);
          if !A.Allowed(db.devices[r.device], now) {
            var _ := Revoke(r.device, rpc(i));
          }
        }
        i := i + 1;
      }
      ok := true;
    }

    /** Blocks the device until the next upsert, and removes it if the call succeeds. */
    method Revoke(device: DeviceId, rpc: Rpc) returns (ok: bool)
      modifies this, server
      ensures blocked == old(blocked) + {device}
      ensures ok ==> EmailOf(device) !in server.users
      ensures server.users == if rpc.FailedBefore? then old(server.users) else old(server.users) - {EmailOf(device)}
    {
      blocked := blocked + {device};
      ok := server.Remove(device, rpc);
    }
  }

  function Sum(ops: seq<nat>): nat
  {
    if ops == [] then 0 else ops[0] + Sum(ops[1..])
  }

  /** However often passes fail, together they change the table at most as often as it was
      away from the wanted users at the start. */
  lemma {:induction false} ChangesBounded(tables: seq<Table>, ops: seq<nat>, want: Wanted)
    requires |tables| == |ops| + 1
    requires forall i :: 0 <= i < |ops| ==> PassKeeps(tables[i], tables[i + 1], want, ops[i])
    ensures Sum(ops) + Distance(tables[|ops|], want) <= Distance(tables[0], want)
    decreases |ops|
  {
    if ops != [] {
      assert PassKeeps(tables[0], tables[1], want, ops[0]);
      forall i | 0 <= i < |ops[1..]|
        ensures PassKeeps(tables[1..][i], tables[1..][i + 1], want, ops[1..][i])
      {
        assert PassKeeps(tables[i + 1], tables[i + 2], want, ops[i + 1]);
      }
      ChangesBounded(tables[1..], ops[1..], want);
    }
  }

  lemma RemovalKeeps(t: Table, u: Table, want: Wanted, ops: nat, d: DeviceId)
    requires PassKeeps(t, u, want, ops) && Managed(u, d)
    requires Distance(u - {EmailOf(d)}, want) < Distance(u, want)
    ensures PassKeeps(t, u - {EmailOf(d)}, want, ops + 1)
  {
    EmailRoundTrip(d);
  }

  lemma AdditionKeeps(t: Table, u: Table, want: Wanted, ops: nat, d: DeviceId)
    requires PassKeeps(t, u, want, ops) && EmailOf(d) !in u && d in want && want[d].Some?
    requires Distance(u[EmailOf(d) := Vless(want[d].value)], want) < Distance(u, want)
    ensures PassKeeps(t, u[EmailOf(d) := Vless(want[d].value)], want, ops + 1)
  {
    EmailRoundTrip(d);
  }

  lemma NamesApart(d: DeviceId)
    ensures forall x :: x != d ==> EmailOf(x) != EmailOf(d)
  {
    forall x | x != d
      ensures EmailOf(x) != EmailOf(d)
    {
      EmailsDiffer(x, d);
    }
  }

  lemma ConvergedMatches(t: Table, want: Wanted, current: map<DeviceId, Uuid>, d: DeviceId)
    requires Snapshot(t, current) && d in current
    ensures Converged(t, want) ==> d in want && want[d] == Some(current[d])
  {
    assert Managed(t, d);
    assert Converged(t, want) ==> d in want && Right(t, want, d);
  }

  /** During the second loop: everything wanted but `left` is right, `left` is as it was and
      not managed, and nothing unwanted is managed. */
  ghost predicate Filled(t: Table, u: Table, want: Wanted, left: set<DeviceId>)
  {
    && (forall d :: d in want && d !in left ==> Right(u, want, d) && !Hidden(t, d))
    && (forall d :: d in left || d !in want ==> !Managed(u, d))
    && (forall d :: d in left ==> SameAt(t, u, d))
  }

  lemma FillStart(t: Table, u: Table, want: Wanted, current: map<DeviceId, Uuid>)
    requires Snapshot(t, current) && Visited(t, u, want, current, {})
    ensures Filled(t, u, want, want.Keys - current.Keys)
    ensures Converged(t, want) ==> want.Keys - current.Keys == {}
  {
    var left := want.Keys - current.Keys;
    forall d | d in want && d !in left
      ensures Right(u, want, d) && !Hidden(t, d)
    {
      assert d in current && Managed(t, d);
    }
    forall d | d in left || d !in want
      ensures !Managed(u, d)
    {
      if d !in current {
        assert SameAt(t, u, d) && !Managed(t, d);
      }
    }
    forall d | d in want && Right(t, want, d)
      ensures d !in left
    {
      assert Managed(t, d);
    }
  }

  lemma FillStep(t: Table, u: Table, u': Table, want: Wanted, left: set<DeviceId>, d: DeviceId)
    requires Filled(t, u, want, left) && d in left && d in want && EmailOf(d) !in u
    requires forall x :: x != d ==> SameAt(u, u', x)
    requires Right(u', want, d)
    ensures Filled(t, u', want, left - {d})
  {
    forall x | x in want && x !in left - {d}
      ensures Right(u', want, x) && !Hidden(t, x)
    {
      if x == d {
        assert SameAt(t, u, d);
      } else {
        assert SameAt(u, u', x);
      }
    }
    forall x | x in left - {d} || x !in want
      ensures !Managed(u', x)
    {
      assert SameAt(u, u', x);
    }
    forall x | x in left - {d}
      ensures SameAt(t, u', x)
    {
      assert SameAt(t, u, x) && SameAt(u, u', x);
    }
  }

  lemma VisitedStart(t: Table, want: Wanted, current: map<DeviceId, Uuid>)
    requires Snapshot(t, current)
    ensures Visited(t, t, want, current, current.Keys)
  {
    forall d | d in current
      ensures EmailOf(d) in t && t[EmailOf(d)] == Vless(current[d])
    {
      assert Managed(t, d);
    }
  }

  lemma VisitedOne(t: Table, u: Table, want: Wanted, current: map<DeviceId, Uuid>, todo: set<DeviceId>, d: DeviceId)
    requires Visited(t, u, want, current, todo) && d in todo
    ensures d in current && Managed(u, d) && u[EmailOf(d)] == Vless(current[d])
  {
  }

  lemma OthersVisited(t: Table, u: Table, u': Table, want: Wanted, current: map<DeviceId, Uuid>, todo: set<DeviceId>, d: DeviceId)
    requires d !in todo && d in current && Visited(t, u, want, current, todo + {d})
    requires forall x :: x != d ==> SameAt(u, u', x)
    requires if d in want then Right(u', want, d) else EmailOf(d) !in u'
    ensures Visited(t, u', want, current, todo)
  {
    forall x | x in current && x !in todo
      ensures if x in want then Right(u', want, x) else EmailOf(x) !in u'
    {
      if x != d {
        assert SameAt(u, u', x) && x !in todo + {d};
      }
    }
    forall x | x !in current
      ensures SameAt(t, u', x)
    {
      assert SameAt(t, u, x) && SameAt(u, u', x);
    }
    forall x | x in todo
      ensures x in current && EmailOf(x) in u' && u'[EmailOf(x)] == Vless(current[x])
    {
      assert x in todo + {d} && SameAt(u, u', x);
    }
  }

  /** User names are the device id and the service's suffix. */
  lemma EmailExact(d: DeviceId, e: Email)
    ensures EmailOf(d) == d + "@risevpn"
    ensures Ours(e) <==> exists x: DeviceId :: e == x + "@risevpn"
  {
    if Ours(e) {
      assert e == e[..|e| - 8] + "@risevpn";
    }
  }

  /** The readings taken in a pass: those before the first failed one that count anything. */
  function Taken(readings: seq<Reading>): seq<NodeStore.Event>
  {
    if readings == [] || readings[0].Unread? then []
    else (if readings[0].tx > 0 || readings[0].rx > 0
          then [NodeStore.Event(readings[0].device, readings[0].tx, readings[0].rx)] else [])
         + Taken(readings[1..])
  }

  /** Collecting journals the readings taken, in order, and blocks only devices that are stored
      and not admitted at some point of the pass. */
  lemma {:induction false} SampledExact(s: NodeStore.Store, blocked: set<DeviceId>, readings: seq<Reading>, now: Time)
    requires forall i :: 0 <= i < |readings| ==> readings[i].device in s.devices
    ensures Sampled(s, blocked, readings, now).0.events == s.events + Taken(readings)
    ensures blocked <= Sampled(s, blocked, readings, now).1
    ensures forall d :: d in Sampled(s, blocked, readings, now).1 && d !in blocked ==>
              exists i :: 0 <= i < |readings| && readings[i].device == d
    decreases |readings|
  {
    if readings != [] && !readings[0].Unread? {
      var r, rest := readings[0], readings[1..];
      assert forall i :: 0 <= i < |rest| ==> rest[i] == readings[i + 1];
      if r.tx > 0 || r.rx > 0 {
        var s' := NodeStore.AddUsage(s, r.device, r.tx, r.rx);
        var gone := !A.Allowed(s'.devices[r.device], now);
        SampledExact(s', if gone then blocked + {r.device} else blocked, rest, now);
        assert s.events + ([NodeStore.Event(r.device, r.tx, r.rx)] + Taken(rest))
            == s.events + [NodeStore.Event(r.device, r.tx, r.rx)] + Taken(rest);
      } else {
        SampledExact(s, blocked, rest, now);
        assert s.events + ([] + Taken(rest)) == s.events + Taken(rest);
      }
      forall d | d in Sampled(s, blocked, readings, now).1 && d !in blocked
        ensures exists i :: 0 <= i < |readings| && readings[i].device == d
      {
        if d != r.device {
          var i :| 0 <= i < |rest| && rest[i].device == d;
          assert readings[i + 1].device == d;
        }
      }
    }
  }
}
