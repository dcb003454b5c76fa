/** The node's control reader (internal/control/client.go): dispatch of control
    messages onto the store, replies, and deduplication by message id. */
module ControlClient {
  import opened Devices
  import NodeStore

  type MsgId = string

  datatype Body =
    | UpsertDevice(row: Device)
    | QuotaLease(device: DeviceId, bytes: int, expires: Time)
    | RevokeDevice(device: DeviceId)
    | OverrideDevice(device: DeviceId, o: Override)
    | Other

  /** Controller to node. */
  datatype Message =
    | Command(id: MsgId, body: Body)
    | UsageAck(id: MsgId, events: seq<nat>)

  /** Node to controller: `ok` is the type ack with OK set, otherwise nack. */
  datatype Reply = Reply(to: MsgId, ok: bool)

  /** What lies outside the store: validation or the database may refuse a command, and
      a later step (Xray, kicking) may fail after the store was written. */
  datatype Outcome = Refused | Done | FailedLater

  const WINDOW := 2048
  const MAX_ACKED := 5000

  /** The reader's state. `window` lists the ids applied since the last flush of `seen`;
      `marks` and `flushes` count since the process started; `applied` is everything
      ever applied, across restarts. */
  datatype Client = Client(
    store: NodeStore.Store,
    seen: set<MsgId>,
    window: seq<MsgId>,
    marks: nat,
    flushes: nat,
    applied: map<MsgId, Message>)

  ghost function Handle(s: NodeStore.Store, m: Message, out: Outcome): (r: (NodeStore.Store, bool))
  {
    match m
    case UsageAck(_, events) =>
      if |events| > MAX_ACKED || out.Refused? then (s, false) else (NodeStore.MarkSent(s, events), out.Done?)
    case Command(_, body) =>
      if out.Refused? then (s, false) else HandleCommand(s, body, out)
  }

  ghost function HandleCommand(s: NodeStore.Store, body: Body, out: Outcome): (NodeStore.Store, bool)
  {
    match body
    case UpsertDevice(row) =>
      var d := row.(usedBytes := 0);
      if d.id == "" || d.credentialHash == "" || PolicyOf(d.plan).None? || NodeStore.HashTaken(s, d) then (s, false)
      else (NodeStore.Upsert(s, d), out.Done?)
    case QuotaLease(device, bytes, expires) =>
      if device !in s.devices then (s, false)
      else
        var d := NodeStore.Leased(s.devices[device], bytes, expires);
        if NodeStore.HashTaken(s, d) then (s, false) else (NodeStore.Upsert(s, d), out.Done?)
    case RevokeDevice(device) => (NodeStore.Revoke(s, device), out.Done?)
    case OverrideDevice(device, o) => (NodeStore.ApplyOverride(s, device, o), out.Done?)
    case Other => (s, out.Done?)
  }

  /** Remembering an id empties a set that has grown past the window first. */
  function MarkSeen(c: Client, m: Message): Client
  {
    var full := |c.seen| > WINDOW;
    c.(seen := (if full then {} else c.seen) + {m.id},
       window := (if full then [] else c.window) + [m.id],
       marks := c.marks + 1,
       flushes := c.flushes + if full then 1 else 0,
       applied := c.applied[m.id := m])
  }

  /** One round of the read loop. */
  ghost function Receive(c: Client, m: Message, out: Outcome): (r: (Client, seq<Reply>))
  {
    if m.id != "" && m.id in c.seen then (c, [Reply(m.id, true)])
    else
      var (store, ok) := Handle(c.store, m, out);
      var c' := c.(store := store);
      if m.id == "" then (c', [])
      else if !ok then (c', [Reply(m.id, false)])
      else (MarkSeen(c', m), [Reply(m.id, true)])
  }

  function Restart(c: Client): Client
  {
    c.(seen := {}, window := [], marks := 0, flushes := 0)
  }

  ghost function ReceiveAll(c: Client, ms: seq<Message>, outs: seq<Outcome>): (Client, seq<Reply>)
    requires |ms| == |outs|
    decreases |ms|
  {
    if ms == [] then (c, [])
    else
      var (c1, r1) := Receive(c, ms[0], outs[0]);
      var (c2, r2) := ReceiveAll(c1, ms[1..], outs[1..]);
      (c2, r1 + r2)
  }

  // ---- The reader object --------------------------------------------------

  class Reader {
    const db: NodeStore.Database
    var seen: set<MsgId>
    ghost var window: seq<MsgId>
    ghost var marks: nat
    ghost var flushes: nat
    ghost var applied: map<MsgId, Message>

    ghost function Value(): Client
      reads this, db
    {
      Client(db.Value(), seen, window, marks, flushes, applied)
    }

    constructor (db: NodeStore.Database)
      ensures this.db == db && seen == {}
    {
      this.db := db;
      seen := {};
      window, marks, flushes, applied := [], 0, 0, map[];
    }

    method WasSeen(id: MsgId) returns (known: bool)
      ensures known <==> id in seen
    {
      known := id in seen;
    }

    method Remember(m: Message)
      modifies this
      ensures Value() == MarkSeen(old(Value()), m)
    {
      if |seen| > 2048 {
        seen := {};
        window, flushes := [], flushes + 1;
      }
      seen := seen + {m.id};
      window, marks, applied := window + [m.id], marks + 1, applied[m.id := m];
    }

    method Apply(m: Message, out: Outcome) returns (ok: bool)
      modifies db
      ensures (db.Value(), ok) == Handle(old(db.Value()), m, out)
    {
      if out.Refused? {
        return false;
      }
      match m
      case UsageAck(_, events) =>
        if |events| > 5000 {
          return false;
        }
        db.MarkUsageSent(events);
        return out.Done?;
      case Command(_, body) =>
        match body {
          case UpsertDevice(row) =>
            if row.id == "" || row.credentialHash == "" || PolicyOf(row.plan).None? {
              return false;
            }
            var stored := db.UpsertDevice(row.(usedBytes := 0));
            return stored && out.Done?;
          case QuotaLease(device, bytes, expires) =>
            if device !in db.devices {
              return false;
            }
            var d := db.devices[device];
            var stored := db.UpsertDevice(d.(leaseBytes := bytes, leaseExpires := expires));
            return stored && out.Done?;
          case RevokeDevice(device) =>
            if device in db.devices {
              db.devices := db.devices[device := db.devices[device].(active := false)];
            }
            return out.Done?;
          case OverrideDevice(device, o) =>
            if device in db.devices {
              db.devices := db.devices[device := db.devices[device].(override_ := o)];
            }
            return out.Done?;
          case Other =>
            return out.Done?;
        }
    }

    /** One round of the loop. */
    method ReadOne(m: Message, out: Outcome) returns (replies: seq<Reply>)
      modifies this, db
      ensures (Value(), replies) == Receive(old(Value()), m, out)
    {
      replies := [];
      var known := WasSeen(m.id);
      if m.id != "" && known {
        return [Reply(m.id, true)];
      }
      var ok := Apply(m, out);
      if m.id != "" {
        if ok {
          Remember(m);
        }
        replies := [Reply(m.id, ok)];
      }
    }

    /** The read loop over the messages of one connection. */
    method ReadLoop(ms: seq<Message>, outs: seq<Outcome>) returns (replies: seq<Reply>)
      requires |ms| == |outs|
      modifies this, db
      ensures (Value(), replies) == ReceiveAll(old(Value()), ms, outs)
    {
      replies := [];
      var i := 0;
      assert ms[0..] == ms && outs[0..] == outs;
      ghost var all := ReceiveAll(Value(), ms, outs);
      while i < |ms|
        invariant 0 <= i <= |ms|
        invariant all.0 == ReceiveAll(Value(), ms[i..], outs[i..]).0
        invariant all.1 == replies + ReceiveAll(Value(), ms[i..], outs[i..]).1
      {
        assert ms[i..][1..] == ms[i + 1..] && outs[i..][1..] == outs[i + 1..];
        var r := ReadOne(ms[i], outs[i]);
        ghost var rest := ReceiveAll(Value(), ms[i + 1..], outs[i + 1..]);
        assert replies + (r + rest.1) == (replies + r) + rest.1;
        replies := replies + r;
        i := i + 1;
      }
      assert replies + [] == replies;
    }
  }

  // ---- Deduplication ------------------------------------------------------

  ghost predicate Distinct(ids: seq<MsgId>)
  {
    forall i, j :: 0 <= i < j < |ids| ==> ids[i] != ids[j]
  }

  /** After n applications: the number of flushes and of ids remembered. */
  predicate Cycled(n: nat, flushes: nat, remembered: nat)
  {
    n == 2049 * flushes + remembered && remembered <= 2049 && (remembered == 0 ==> n == 0)
  }

  /** The seen set holds exactly the ids applied since the last flush, each applied once;
      it never exceeds 2049 ids and is flushed once every 2049 applications. */
  ghost predicate Windowed(c: Client)
  {
    && Distinct(c.window)
    && |c.seen| == |c.window| <= 2049
    && (forall id :: id in c.seen <==> id in c.window)
    && Cycled(c.marks, c.flushes, |c.window|)
    && c.seen <= c.applied.Keys
  }

  lemma MarkWindowed(c: Client, m: Message)
    requires Windowed(c) && m.id !in c.seen
    ensures Windowed(MarkSeen(c, m))
  {
    if |c.seen| <= WINDOW {
      AddDistinct(c.window, m.id);
    }
  }

  lemma AddDistinct(ids: seq<MsgId>, id: MsgId)
    requires Distinct(ids) && id !in ids
    ensures Distinct(ids + [id])
    ensures forall x :: x in ids + [id] <==> x in ids || x == id
  {
  }

  lemma ReceiveWindowed(c: Client, m: Message, out: Outcome)
    requires Windowed(c)
    ensures Windowed(Receive(c, m, out).0)
  {
    var (store, ok) := Handle(c.store, m, out);
    if m.id !in c.seen {
      MarkWindowed(c.(store := store), m);
    }
  }

  /** Over any messages of one process: window bound, flush count, once per window. */
  lemma {:induction false} DedupWindow(c: Client, ms: seq<Message>, outs: seq<Outcome>)
    requires |ms| == |outs| && Windowed(c)
    ensures Windowed(ReceiveAll(c, ms, outs).0)
    decreases |ms|
  {
    if ms != [] {
      ReceiveWindowed(c, ms[0], outs[0]);
      DedupWindow(Receive(c, ms[0], outs[0]).0, ms[1..], outs[1..]);
    }
  }

  /** After n >= 1 applications the set has been flushed exactly (n-1)/2049 times. */
  lemma FlushCount(c: Client)
    requires Windowed(c) && c.marks >= 1
    ensures c.flushes == (c.marks - 1) / 2049
    ensures |c.seen| == (c.marks - 1) % 2049 + 1
  {
    assert c.marks - 1 == 2049 * c.flushes + (|c.window| - 1);
  }

  /** An acknowledging reply is only ever sent for a message that was applied, and what
      was applied stays on record. */
  ghost predicate Sound(c: Client, m: Message, c': Client, replies: seq<Reply>)
  {
    && c'.seen <= c'.applied.Keys
    && c.applied.Keys <= c'.applied.Keys
    && (forall id :: id in c'.applied ==>
          (id in c.applied && c'.applied[id] == c.applied[id]) || (id == m.id && c'.applied[id] == m))
    && (forall r :: r in replies ==> r.to == m.id && (r.ok ==> m.id in c'.applied))
  }

  /** A message enters the record only when its handler succeeded on it; a remembered
      message changes nothing. */
  lemma RepliesSound(c: Client, m: Message, out: Outcome)
    requires c.seen <= c.applied.Keys
    ensures var (c', replies) := Receive(c, m, out);
            && Sound(c, m, c', replies)
            && (m.id in c'.applied && m.id !in c.applied ==> Handle(c.store, m, out).1)
            && (m.id != "" && m.id in c.seen ==> c' == c)
  {
  }
}
