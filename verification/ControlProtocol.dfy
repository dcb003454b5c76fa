/** The whole control channel: nodes with durable stores, the controller's tables and
    the messages between them. A message once written may arrive never, once, several
    times and in any order, also after reconnects, so each direction of a link is the
    set of messages ever written to it. */
module ControlProtocol {
  import opened Options
  import opened Devices
  import NodeStore
  import CC = ControlClient

  type NodeId = string
  type UserId = string
  type MsgId = CC.MsgId
  type Event = NodeStore.Event

  /** A usage batch as sent: event numbers with their contents. */
  datatype Batch = Batch(id: MsgId, events: seq<(nat, Event)>)

  datatype Node = Node(
    client: CC.Client,
    batches: set<Batch>,
    replies: set<CC.Reply>,
    inbox: set<CC.Message>)

  datatype Status = Pending | Sent | Acked | Nacked | Expired

  /** `everAcked` remembers that the row was once marked acked. */
  datatype CommandRow = CommandRow(node: NodeId, body: CC.Body, status: Status, everAcked: bool)

  /** What happened to the subscriptions' used_bytes, in order. */
  datatype Change =
    | Credit(node: NodeId, event: nat, user: UserId, bytes: int)
    | Reset(user: UserId)

  datatype Controller = Controller(
    rows: map<(NodeId, nat), Event>,
    owner: map<DeviceId, UserId>,
    used: map<UserId, int>,
    log: seq<Change>,
    commands: map<MsgId, CommandRow>)

  datatype World = World(nodes: map<NodeId, Node>, ctl: Controller, ids: set<MsgId>)

  const BATCH_LIMIT := 1000

  // ---- Counting a batch ---------------------------------------------------

  /** A new usage row must satisfy the foreign key and the sign checks. */
  predicate Acceptable(c: Controller, e: Event)
  {
    e.device in c.owner && c.owner[e.device] in c.used && e.tx >= 0 && e.rx >= 0
  }

  function Count(c: Controller, n: NodeId, id: nat, e: Event): Controller
    requires Acceptable(c, e)
  {
    var u := c.owner[e.device];
    c.(rows := c.rows[(n, id) := e],
       used := c.used[u := c.used[u] + NodeStore.Bytes(e)],
       log := c.log + [Credit(n, id, u, NodeStore.Bytes(e))])
  }

  /** The transaction over a batch; None is a rollback. */
  function Ingest(c: Controller, n: NodeId, events: seq<(nat, Event)>): (r: Option<Controller>)
    decreases |events|
  {
    if events == [] then Some(c)
    else
      var (id, e) := events[0];
      if (n, id) in c.rows then Ingest(c, n, events[1..])
      else if !Acceptable(c, e) then None
      else Ingest(Count(c, n, id, e), n, events[1..])
  }

  function EventIds(events: seq<(nat, Event)>): seq<nat>
  {
    seq(|events|, i requires 0 <= i < |events| => events[i].0)
  }

  class UsageHub {
    var rows: map<(NodeId, nat), Event>
    var owner: map<DeviceId, UserId>
    var used: map<UserId, int>
    var commands: map<MsgId, CommandRow>
    ghost var log: seq<Change>

    ghost function Value(): Controller
      reads this
    {
      Controller(rows, owner, used, log, commands)
    }

    /** The usage.batch handler: returns the ids to acknowledge, or nothing after a rollback. */
    method Usage(n: NodeId, events: seq<(nat, Event)>) returns (ack: Option<seq<nat>>)
      modifies this
      ensures var r := Ingest(old(Value()), n, events);
              && Value() == (if r.Some? then r.value else old(Value()))
              && ack == (if r.Some? then Some(EventIds(events)) else None)
    {
      var ids: seq<nat> := [];
      var rows0, used0 := rows, used;
      ghost var log0 := log;
      var i := 0;
      while i < |events|
        invariant 0 <= i <= |events|
        invariant rows0 == old(rows) && used0 == old(used) && log0 == old(log)
        invariant owner == old(owner) && commands == old(commands)
        invariant Ingest(Value(), n, events[i..]) == Ingest(old(Value()), n, events)
        invariant ids == EventIds(events[..i])
      {
        assert events[i..][1..] == events[i + 1..];
        var (id, e) := events[i];
        if (n, id) !in rows {
          if e.device !in owner || owner[e.device] !in used || e.tx < 0 || e.rx < 0 {
            rows, used := rows0, used0;
            log := log0;
            return None;
          }
          var u := owner[e.device];
          rows := rows[(n, id) := e];
          used := used[u := used[u] + (e.tx + e.rx)];
          log := log + [Credit(n, id, u, e.tx + e.rx)];
        }
        ids := ids + [id];
        i := i + 1;
      }
      assert events[..i] == events;
      return Some(ids);
    }

    /** The ack/nack branch: matched on command and node, whatever the status was. */
    method TakeReply(n: NodeId, r: CC.Reply)
      modifies this
      ensures Value() == Settle(old(Value()), n, r)
    {
      if r.to in commands && commands[r.to].node == n {
        var row := commands[r.to];
        commands := commands[r.to := CommandRow(row.node, row.body, if r.ok then Acked else Nacked, row.everAcked || r.ok)];
      }
    }
  }

  function Settle(c: Controller, n: NodeId, r: CC.Reply): Controller
  {
    if r.to in c.commands && c.commands[r.to].node == n then
      var row := c.commands[r.to];
      c.(commands := c.commands[r.to := row.(status := if r.ok then Acked else Nacked, everAcked := row.everAcked || r.ok)])
    else c
  }

  /** A reply from the node a command was queued for sets its status, an ack for good on record;
      any other reply does nothing, and nothing else changes. */
  lemma SettleExact(c: Controller, n: NodeId, r: CC.Reply)
    ensures var d := Settle(c, n, r);
            && d.rows == c.rows && d.owner == c.owner && d.used == c.used && d.log == c.log
            && d.commands.Keys == c.commands.Keys
            && (forall id :: id in c.commands && id != r.to ==> d.commands[id] == c.commands[id])
            && (r.to in c.commands ==>
                  var o := c.commands[r.to];
                  d.commands[r.to]
                  == if o.node != n then o
                     else if r.ok then CommandRow(n, o.body, Acked, true)
                     else CommandRow(n, o.body, Nacked, o.everAcked))
  {
  }

  // ---- Steps --------------------------------------------------------------

  datatype Action =
    | Enroll(n: NodeId)
    | AddUser(u: UserId)
    | AddDevice(device: DeviceId, u: UserId)
    | ResetUsage(u: UserId)
    | Record(n: NodeId, device: DeviceId, tx: int, rx: int)
    | SendBatch(n: NodeId, id: MsgId)
    | TakeBatch(n: NodeId, batch: Batch, id: MsgId, crash: bool)
    | Queue(n: NodeId, id: MsgId, body: CC.Body)
    | SendCommand(id: MsgId)
    | Expire(id: MsgId)
    | Receive(n: NodeId, m: CC.Message, out: CC.Outcome)
    | TakeReply(n: NodeId, r: CC.Reply)
    | Restart(n: NodeId)

  const EMPTY_CLIENT := CC.Client(NodeStore.Store(map[], [], {}), {}, [], 0, 0, map[])
  const START := World(map[], Controller(map[], map[], map[], [], map[]), {})

  predicate Fresh(w: World, id: MsgId)
  {
    id != "" && id !in w.ids
  }

  function Put(w: World, n: NodeId, x: Node): World
  {
    w.(nodes := w.nodes[n := x])
  }

  /** What a node sends on its 20-second tick. */
  function BatchOf(s: NodeStore.Store, id: MsgId): Batch
  {
    var ids := NodeStore.First(NodeStore.Pending(s), BATCH_LIMIT);
    Batch(id, seq(|ids|, i requires 0 <= i < |ids| =>
      (ids[i], if 1 <= ids[i] <= |s.events| then s.events[ids[i] - 1] else NodeStore.Event("", 0, 0))))
  }

  function SendBatchStep(w: World, n: NodeId, id: MsgId): World
    requires n in w.nodes
  {
    var x := w.nodes[n];
    Put(w, n, x.(batches := x.batches + {BatchOf(x.client.store, id)})).(ids := w.ids + {id})
  }

  function TakeBatchStep(w: World, n: NodeId, b: Batch, id: MsgId, crash: bool): World
    requires n in w.nodes
  {
    var r := Ingest(w.ctl, n, b.events);
    if r.None? then w
    else
      var x := w.nodes[n];
      var inbox := if crash then x.inbox else x.inbox + {CC.UsageAck(id, EventIds(b.events))};
      Put(w, n, x.(inbox := inbox)).(ctl := r.value, ids := w.ids + {id})
  }

  function SendCommandStep(w: World, id: MsgId): World
    requires id in w.ctl.commands && w.ctl.commands[id].node in w.nodes
  {
    var row := w.ctl.commands[id];
    var x := w.nodes[row.node];
    Put(w, row.node, x.(inbox := x.inbox + {CC.Command(id, row.body)}))
      .(ctl := w.ctl.(commands := w.ctl.commands[id := row.(status := Sent)]))
  }

  ghost function ReceiveStep(w: World, n: NodeId, m: CC.Message, out: CC.Outcome): World
    requires n in w.nodes
  {
    var x := w.nodes[n];
    var (client, replies) := CC.Receive(x.client, m, out);
    Put(w, n, x.(client := client, replies := x.replies + set r | r in replies))
  }

  ghost function Step(w: World, a: Action): World
  {
    match a
    case Enroll(n) => if n in w.nodes then w else Put(w, n, Node(EMPTY_CLIENT, {}, {}, {}))
    case AddUser(u) => if u in w.ctl.used then w else w.(ctl := w.ctl.(used := w.ctl.used[u := 0]))
    case AddDevice(d, u) =>
      if d in w.ctl.owner || u !in w.ctl.used then w else w.(ctl := w.ctl.(owner := w.ctl.owner[d := u]))
    case ResetUsage(u) =>
      if u !in w.ctl.used then w
      else w.(ctl := w.ctl.(used := w.ctl.used[u := 0], log := w.ctl.log + [Reset(u)]))
    case Record(n, d, tx, rx) =>
      if n !in w.nodes then w
      else
        var x := w.nodes[n];
        Put(w, n, x.(client := x.client.(store := NodeStore.AddUsage(x.client.store, d, tx, rx))))
    case SendBatch(n, id) => if n in w.nodes && Fresh(w, id) then SendBatchStep(w, n, id) else w
    case TakeBatch(n, b, id, crash) =>
      if n in w.nodes && b in w.nodes[n].batches && Fresh(w, id) then TakeBatchStep(w, n, b, id, crash) else w
    case Queue(n, id, body) =>
      if n in w.nodes && Fresh(w, id)
      then w.(ctl := w.ctl.(commands := w.ctl.commands[id := CommandRow(n, body, Pending, false)]), ids := w.ids + {id})
      else w
    case SendCommand(id) =>
      if id in w.ctl.commands && w.ctl.commands[id].node in w.nodes then SendCommandStep(w, id) else w
    case Expire(id) =>
      if id in w.ctl.commands && (w.ctl.commands[id].status == Pending || w.ctl.commands[id].status == Sent)
      then w.(ctl := w.ctl.(commands := w.ctl.commands[id := w.ctl.commands[id].(status := Expired)]))
      else w
    case Receive(n, m, out) =>
      if n in w.nodes && m in w.nodes[n].inbox then ReceiveStep(w, n, m, out) else w
    case TakeReply(n, r) =>
      if n in w.nodes && r in w.nodes[n].replies then w.(ctl := Settle(w.ctl, n, r)) else w
    case Restart(n) =>
      if n !in w.nodes then w
      else Put(w, n, w.nodes[n].(client := CC.Restart(w.nodes[n].client)))
  }

  ghost function Run(w: World, run: seq<Action>): World
    decreases |run|
  {
    if run == [] then w else Run(Step(w, run[0]), run[1..])
  }

  /** What happens to the tables between batches: new users start at nothing, devices belong to
      one user for good, a new period resets usage, and a command that waits can expire. */
  lemma TablesExact(w: World, u: UserId, d: DeviceId, id: MsgId)
    ensures u !in w.ctl.used ==> Step(w, AddUser(u)) == w.(ctl := w.ctl.(used := w.ctl.used[u := 0]))
    ensures u in w.ctl.used && d !in w.ctl.owner ==>
              Step(w, AddDevice(d, u)) == w.(ctl := w.ctl.(owner := w.ctl.owner[d := u]))
    ensures d in w.ctl.owner ==> Step(w, AddDevice(d, u)) == w
    ensures u in w.ctl.used ==>
              Step(w, ResetUsage(u)) == w.(ctl := w.ctl.(used := w.ctl.used[u := 0], log := w.ctl.log + [Reset(u)]))
    ensures id in w.ctl.commands ==>
              var row := w.ctl.commands[id];
              Step(w, Expire(id))
              == if row.status == Pending || row.status == Sent
                 then w.(ctl := w.ctl.(commands := w.ctl.commands[id := CommandRow(row.node, row.body, Expired, row.everAcked)]))
                 else w
  {
  }

  // ---- What the log says --------------------------------------------------

  /** How often event (n, id) was added to a subscription. */
  function Times(log: seq<Change>, n: NodeId, id: nat): nat
  {
    if log == [] then 0
    else
      var last := log[|log| - 1];
      Times(log[..|log| - 1], n, id) + if last.Credit? && last.node == n && last.event == id then 1 else 0
  }

  function CreditedBytes(log: seq<Change>, n: NodeId): int
  {
    if log == [] then 0
    else
      var last := log[|log| - 1];
      CreditedBytes(log[..|log| - 1], n) + if last.Credit? && last.node == n then last.bytes else 0
  }

  /** A user's usage: credits since the last reset. */
  function UsedFrom(log: seq<Change>, u: UserId): int
  {
    if log == [] then 0
    else
      var last := log[|log| - 1];
      if last.user != u then UsedFrom(log[..|log| - 1], u)
      else if last.Reset? then 0
      else UsedFrom(log[..|log| - 1], u) + last.bytes
  }

  function RecordedBytes(events: seq<Event>): int
  {
    if events == [] then 0
    else RecordedBytes(events[..|events| - 1]) + NodeStore.Bytes(events[|events| - 1])
  }

  /** Bytes of the events in the journal that the controller has (`counted`) or has not. */
  ghost function BytesWhere(rows: map<(NodeId, nat), Event>, n: NodeId, events: seq<Event>, counted: bool): int
  {
    if events == [] then 0
    else BytesWhere(rows, n, events[..|events| - 1], counted)
         + if ((n, |events|) in rows) == counted then NodeStore.Bytes(events[|events| - 1]) else 0
  }

  // ---- Invariant: usage ---------------------------------------------------

  /** The log and the rows agree: one genuine credit per row, none without. */
  ghost predicate LogOk(c: Controller)
  {
    && (forall n, id: nat :: Times(c.log, n, id) == if (n, id) in c.rows then 1 else 0)
    && (forall i :: 0 <= i < |c.log| ==> GenuineChange(c, c.log[i]))
    && (forall d :: d in c.owner ==> c.owner[d] in c.used)
    && (forall u :: u in c.used ==> c.used[u] == UsedFrom(c.log, u))
    && (forall i :: 0 <= i < |c.log| ==> c.log[i].user in c.used)
  }

  ghost predicate GenuineChange(c: Controller, x: Change)
  {
    x.Credit? ==>
      && (x.node, x.event) in c.rows
      && c.rows[(x.node, x.event)].device in c.owner
      && x.user == c.owner[c.rows[(x.node, x.event)].device]
      && x.bytes == NodeStore.Bytes(c.rows[(x.node, x.event)])
  }

  /** The rows of node n are events of its journal, and their bytes were credited. */
  ghost predicate Matches(c: Controller, n: NodeId, events: seq<Event>)
  {
    && (forall id :: (n, id) in c.rows ==> 1 <= id <= |events| && c.rows[(n, id)] == events[id - 1])
    && CreditedBytes(c.log, n) == BytesWhere(c.rows, n, events, true)
  }

  ghost predicate GenuineBatch(b: Batch, events: seq<Event>)
  {
    forall i :: 0 <= i < |b.events| ==> 1 <= b.events[i].0 <= |events| && b.events[i].1 == events[b.events[i].0 - 1]
  }

  ghost predicate AckedOnlyCounted(c: Controller, n: NodeId, m: CC.Message)
  {
    m.UsageAck? ==> forall id :: id in m.events ==> (n, id) in c.rows
  }

  ghost predicate NodeOk(c: Controller, n: NodeId, x: Node)
  {
    && Matches(c, n, x.client.store.events)
    && (forall b :: b in x.batches ==> GenuineBatch(b, x.client.store.events))
    && (forall m :: m in x.inbox ==> AckedOnlyCounted(c, n, m))
    && (forall id :: id in x.client.store.sent ==> (n, id) in c.rows)
  }

  ghost predicate UsageOk(w: World)
  {
    && LogOk(w.ctl)
    && (forall n :: n in w.nodes ==> NodeOk(w.ctl, n, w.nodes[n]))
    && (forall k :: k in w.ctl.rows ==> k.0 in w.nodes)
  }

  lemma {:induction false} BytesWhereOther(rows: map<(NodeId, nat), Event>, key: (NodeId, nat), e: Event,
                                           n: NodeId, events: seq<Event>)
    requires key.0 != n || key.1 > |events|
    ensures BytesWhere(rows[key := e], n, events, true) == BytesWhere(rows, n, events, true)
  {
    if events != [] {
      BytesWhereOther(rows, key, e, n, events[..|events| - 1]);
    }
  }

  lemma {:induction false} BytesWhereAdd(rows: map<(NodeId, nat), Event>, n: NodeId, id: nat, events: seq<Event>)
    requires 1 <= id <= |events| && (n, id) !in rows
    ensures BytesWhere(rows[(n, id) := events[id - 1]], n, events, true)
            == BytesWhere(rows, n, events, true) + NodeStore.Bytes(events[id - 1])
  {
    var rows' := rows[(n, id) := events[id - 1]];
    var init := events[..|events| - 1];
    if id == |events| {
      BytesWhereOther(rows, (n, id), events[id - 1], n, init);
    } else {
      BytesWhereAdd(rows, n, id, init);
      assert init[id - 1] == events[id - 1];
    }
  }

  lemma {:induction false} BytesSplit(rows: map<(NodeId, nat), Event>, n: NodeId, events: seq<Event>)
    ensures RecordedBytes(events) == BytesWhere(rows, n, events, true) + BytesWhere(rows, n, events, false)
  {
    if events != [] {
      BytesSplit(rows, n, events[..|events| - 1]);
    }
  }

  lemma LogPush(log: seq<Change>, x: Change)
    ensures (log + [x])[..|log|] == log && (log + [x])[|log|] == x
  {
  }

  lemma CountLogOk(c: Controller, n: NodeId, id: nat, e: Event)
    requires LogOk(c) && Acceptable(c, e) && (n, id) !in c.rows
    ensures LogOk(Count(c, n, id, e))
  {
    var c' := Count(c, n, id, e);
    LogPush(c.log, c'.log[|c.log|]);
    forall m, k: nat
      ensures Times(c'.log, m, k) == if (m, k) in c'.rows then 1 else 0
    {
      assert Times(c.log, m, k) == if (m, k) in c.rows then 1 else 0;
    }
    forall i | 0 <= i < |c'.log|
      ensures GenuineChange(c', c'.log[i])
    {
      if i < |c.log| {
        assert c'.log[i] == c.log[i] && GenuineChange(c, c.log[i]);
      }
    }
  }

  lemma CountMatches(c: Controller, n: NodeId, id: nat, e: Event, m: NodeId, events: seq<Event>)
    requires Acceptable(c, e) && (n, id) !in c.rows && Matches(c, m, events)
    requires m == n ==> 1 <= id <= |events| && e == events[id - 1]
    ensures Matches(Count(c, n, id, e), m, events)
  {
    var c' := Count(c, n, id, e);
    LogPush(c.log, c'.log[|c.log|]);
    if m == n {
      BytesWhereAdd(c.rows, n, id, events);
    } else {
      BytesWhereOther(c.rows, (n, id), e, m, events);
    }
  }

  /** What a committed batch changes: rows only grow, owners and commands stay. */
  ghost predicate Grown(c: Controller, c': Controller)
  {
    && c.rows.Keys <= c'.rows.Keys
    && c'.owner == c.owner && c'.used.Keys == c.used.Keys && c'.commands == c.commands
    && c.log <= c'.log
  }

  lemma {:induction false} IngestGrows(c: Controller, n: NodeId, b: seq<(nat, Event)>)
    requires Ingest(c, n, b).Some?
    ensures var c' := Ingest(c, n, b).value;
            && Grown(c, c')
            && (forall i :: 0 <= i < |b| ==> (n, b[i].0) in c'.rows.Keys)
            && (forall k :: k in c'.rows && k !in c.rows ==> k.0 == n)
    decreases |b|
  {
    if b != [] {
      var (id, e) := b[0];
      var rest := b[1..];
      var c1 := if (n, id) in c.rows then c else Count(c, n, id, e);
      IngestGrows(c1, n, rest);
      assert (n, id) in c1.rows.Keys;
      assert forall i :: 1 <= i < |b| ==> b[i] == rest[i - 1];
    }
  }

  lemma GenuineTail(b: seq<(nat, Event)>, events: seq<Event>)
    requires b != [] && GenuineBatch(Batch("", b), events)
    ensures GenuineBatch(Batch("", b[1..]), events)
    ensures 1 <= b[0].0 <= |events| && b[0].1 == events[b[0].0 - 1]
  {
    var all := Batch("", b);
    assert b[0] == all.events[0];
    assert forall i :: 0 <= i < |b[1..]| ==> b[1..][i] == all.events[i + 1];
  }

  lemma {:induction false} IngestOk(c: Controller, n: NodeId, b: seq<(nat, Event)>, events: seq<Event>)
    requires LogOk(c) && Matches(c, n, events) && GenuineBatch(Batch("", b), events)
    requires Ingest(c, n, b).Some?
    ensures LogOk(Ingest(c, n, b).value) && Matches(Ingest(c, n, b).value, n, events)
    decreases |b|
  {
    if b != [] {
      var (id, e) := b[0];
      GenuineTail(b, events);
      if (n, id) in c.rows {
        IngestOk(c, n, b[1..], events);
      } else {
        CountLogOk(c, n, id, e);
        CountMatches(c, n, id, e, n, events);
        IngestOk(Count(c, n, id, e), n, b[1..], events);
      }
    }
  }

  /** Other nodes' rows and credits are untouched by a batch of n. */
  lemma {:induction false} IngestOthers(c: Controller, n: NodeId, b: seq<(nat, Event)>, m: NodeId, events: seq<Event>)
    requires m != n && Matches(c, m, events) && Ingest(c, n, b).Some?
    ensures Matches(Ingest(c, n, b).value, m, events)
    decreases |b|
  {
    if b != [] {
      var (id, e) := b[0];
      if (n, id) in c.rows {
        IngestOthers(c, n, b[1..], m, events);
      } else {
        CountMatches(c, n, id, e, m, events);
        IngestOthers(Count(c, n, id, e), n, b[1..], m, events);
      }
    }
  }

  lemma NodeOkGrown(c: Controller, c': Controller, n: NodeId, x: Node)
    requires NodeOk(c, n, x) && c.rows.Keys <= c'.rows.Keys && Matches(c', n, x.client.store.events)
    ensures NodeOk(c', n, x)
  {
    forall m | m in x.inbox
      ensures AckedOnlyCounted(c', n, m)
    {
      assert AckedOnlyCounted(c, n, m);
    }
  }

  lemma TakeBatchOwn(c: Controller, n: NodeId, x: Node, b: Batch)
    requires LogOk(c) && NodeOk(c, n, x) && b in x.batches && Ingest(c, n, b.events).Some?
    ensures var c' := Ingest(c, n, b.events).value;
            && LogOk(c') && NodeOk(c', n, x)
            && (forall i :: 0 <= i < |b.events| ==> (n, b.events[i].0) in c'.rows.Keys)
  {
    assert GenuineBatch(b, x.client.store.events);
    IngestOk(c, n, b.events, x.client.store.events);
    IngestGrows(c, n, b.events);
    NodeOkGrown(c, Ingest(c, n, b.events).value, n, x);
  }

  lemma TakeBatchOther(c: Controller, n: NodeId, b: Batch, m: NodeId, x: Node)
    requires m != n && NodeOk(c, m, x) && Ingest(c, n, b.events).Some?
    ensures NodeOk(Ingest(c, n, b.events).value, m, x)
  {
    IngestOthers(c, n, b.events, m, x.client.store.events);
    IngestGrows(c, n, b.events);
    NodeOkGrown(c, Ingest(c, n, b.events).value, m, x);
  }

  lemma TakeBatchOk(w: World, n: NodeId, b: Batch, id: MsgId, crash: bool)
    requires UsageOk(w) && n in w.nodes && b in w.nodes[n].batches
    ensures UsageOk(TakeBatchStep(w, n, b, id, crash))
  {
    if Ingest(w.ctl, n, b.events).Some? {
      var w' := TakeBatchStep(w, n, b, id, crash);
      TakeBatchOwn(w.ctl, n, w.nodes[n], b);
      AckIdsCounted(w'.ctl, n, b, id);
      IngestGrows(w.ctl, n, b.events);
      forall m | m in w'.nodes
        ensures NodeOk(w'.ctl, m, w'.nodes[m])
      {
        if m != n {
          TakeBatchOther(w.ctl, n, b, m, w.nodes[m]);
        }
      }
    }
  }

  lemma AckIdsCounted(c: Controller, n: NodeId, b: Batch, id: MsgId)
    requires forall i :: 0 <= i < |b.events| ==> (n, b.events[i].0) in c.rows.Keys
    ensures AckedOnlyCounted(c, n, CC.UsageAck(id, EventIds(b.events)))
  {
  }

  lemma RecordOk(w: World, n: NodeId, d: DeviceId, tx: int, rx: int)
    requires UsageOk(w)
    ensures UsageOk(Step(w, Record(n, d, tx, rx)))
  {
    var w' := Step(w, Record(n, d, tx, rx));
    if n in w.nodes && d in w.nodes[n].client.store.devices {
      var x := w.nodes[n];
      assert NodeOk(w.ctl, n, x);
      var events := x.client.store.events;
      var e := NodeStore.Event(d, tx, rx);
      assert (events + [e])[..|events|] == events;
      assert (n, |events| + 1) !in w.ctl.rows;
      assert Matches(w.ctl, n, events + [e]);
      forall b | b in x.batches
        ensures GenuineBatch(b, events + [e])
      {
        assert GenuineBatch(b, events);
      }
      assert NodeOk(w.ctl, n, w'.nodes[n]);
    }
  }

  lemma SendBatchOk(w: World, n: NodeId, id: MsgId)
    requires UsageOk(w) && n in w.nodes
    ensures UsageOk(SendBatchStep(w, n, id))
  {
    var s := w.nodes[n].client.store;
    var b := BatchOf(s, id);
    NodeStore.PendingExact(s, |s.events|);
    var p := NodeStore.Pending(s);
    assert forall i :: 0 <= i < |p| ==> p[i] in p;
    assert GenuineBatch(b, s.events);
    assert NodeOk(w.ctl, n, w.nodes[n]);
  }

  lemma ReceiveKeepsJournal(c: CC.Client, m: CC.Message, out: CC.Outcome)
    ensures var s' := CC.Receive(c, m, out).0.store;
            && s'.events == c.store.events
            && (m.Command? ==> s'.sent == c.store.sent)
            && (m.UsageAck? ==> forall id :: id in s'.sent ==> id in c.store.sent || id in m.events)
  {
  }

  lemma ReceiveOk(w: World, n: NodeId, m: CC.Message, out: CC.Outcome)
    requires UsageOk(w) && n in w.nodes && m in w.nodes[n].inbox
    ensures UsageOk(ReceiveStep(w, n, m, out))
  {
    ReceiveKeepsJournal(w.nodes[n].client, m, out);
    assert NodeOk(w.ctl, n, w.nodes[n]) && AckedOnlyCounted(w.ctl, n, m);
    assert NodeOk(w.ctl, n, ReceiveStep(w, n, m, out).nodes[n]);
  }

  lemma ResetOk(c: Controller, u: UserId)
    requires LogOk(c) && u in c.used
    ensures LogOk(c.(used := c.used[u := 0], log := c.log + [Reset(u)]))
  {
    var c' := c.(used := c.used[u := 0], log := c.log + [Reset(u)]);
    LogPush(c.log, Reset(u));
    forall n, id: nat
      ensures Times(c'.log, n, id) == if (n, id) in c'.rows then 1 else 0
    {
      assert Times(c.log, n, id) == if (n, id) in c.rows then 1 else 0;
    }
    forall i | 0 <= i < |c'.log|
      ensures GenuineChange(c', c'.log[i])
    {
      if i < |c.log| {
        assert c'.log[i] == c.log[i] && GenuineChange(c, c.log[i]);
      }
    }
  }

  lemma {:induction false} NeverChanged(log: seq<Change>, u: UserId)
    requires forall i :: 0 <= i < |log| ==> log[i].user != u
    ensures UsedFrom(log, u) == 0
  {
    if log != [] {
      NeverChanged(log[..|log| - 1], u);
    }
  }

  lemma NodesKept(w: World, w': World)
    requires UsageOk(w) && w'.nodes == w.nodes && w'.ctl.rows == w.ctl.rows
    requires forall n :: CreditedBytes(w'.ctl.log, n) == CreditedBytes(w.ctl.log, n)
    ensures forall n :: n in w'.nodes ==> NodeOk(w'.ctl, n, w'.nodes[n])
  {
    forall n | n in w'.nodes
      ensures NodeOk(w'.ctl, n, w'.nodes[n])
    {
      assert NodeOk(w.ctl, n, w.nodes[n]);
      NodeOkGrown(w.ctl, w'.ctl, n, w.nodes[n]);
    }
  }

  lemma AddUserLog(c: Controller, u: UserId)
    requires LogOk(c) && u !in c.used
    ensures LogOk(c.(used := c.used[u := 0]))
  {
    var c' := c.(used := c.used[u := 0]);
    NeverChanged(c.log, u);
    forall i | 0 <= i < |c'.log|
      ensures GenuineChange(c', c'.log[i])
    {
      assert GenuineChange(c, c.log[i]);
    }
  }

  lemma AddUserOk(w: World, u: UserId)
    requires UsageOk(w) && u !in w.ctl.used
    ensures UsageOk(Step(w, AddUser(u)))
  {
    AddUserLog(w.ctl, u);
    NodesKept(w, Step(w, AddUser(u)));
  }

  lemma AddDeviceLog(c: Controller, d: DeviceId, u: UserId)
    requires LogOk(c) && d !in c.owner && u in c.used
    ensures LogOk(c.(owner := c.owner[d := u]))
  {
    var c' := c.(owner := c.owner[d := u]);
    forall i | 0 <= i < |c'.log|
      ensures GenuineChange(c', c'.log[i])
    {
      assert GenuineChange(c, c.log[i]);
    }
  }

  lemma AddDeviceOk(w: World, d: DeviceId, u: UserId)
    requires UsageOk(w) && d !in w.ctl.owner && u in w.ctl.used
    ensures UsageOk(Step(w, AddDevice(d, u)))
  {
    AddDeviceLog(w.ctl, d, u);
    NodesKept(w, Step(w, AddDevice(d, u)));
  }

  lemma ResetUsageOk(w: World, u: UserId)
    requires UsageOk(w)
    ensures UsageOk(Step(w, ResetUsage(u)))
  {
    var w' := Step(w, ResetUsage(u));
    if u in w.ctl.used {
      ResetOk(w.ctl, u);
      LogPush(w.ctl.log, Reset(u));
      NodesKept(w, w');
    }
  }

  /** Steps that touch only commands. */
  lemma CommandsOnly(w: World, w': World)
    requires UsageOk(w)
    requires w'.ctl == w.ctl.(commands := w'.ctl.commands) && w'.nodes == w.nodes
    ensures UsageOk(w')
  {
    forall i | 0 <= i < |w'.ctl.log|
      ensures GenuineChange(w'.ctl, w'.ctl.log[i])
    {
      assert GenuineChange(w.ctl, w.ctl.log[i]);
    }
    forall n | n in w'.nodes
      ensures NodeOk(w'.ctl, n, w'.nodes[n])
    {
      assert NodeOk(w.ctl, n, w.nodes[n]);
      NodeOkGrown(w.ctl, w'.ctl, n, w.nodes[n]);
    }
  }

  lemma SendCommandOk(w: World, id: MsgId)
    requires UsageOk(w) && id in w.ctl.commands && w.ctl.commands[id].node in w.nodes
    ensures UsageOk(SendCommandStep(w, id))
  {
    var w' := SendCommandStep(w, id);
    var n := w.ctl.commands[id].node;
    var mid := w.(ctl := w'.ctl);
    CommandsOnly(w, mid);
    assert NodeOk(mid.ctl, n, mid.nodes[n]);
    assert AckedOnlyCounted(w'.ctl, n, CC.Command(id, w.ctl.commands[id].body));
    assert NodeOk(w'.ctl, n, w'.nodes[n]);
  }

  lemma EnrollOk(w: World, n: NodeId)
    requires UsageOk(w) && n !in w.nodes
    ensures UsageOk(Step(w, Enroll(n)))
  {
    assert forall id :: (n, id) !in w.ctl.rows;
    NoCredits(w.ctl, n, w.ctl.log);
    assert NodeOk(w.ctl, n, Step(w, Enroll(n)).nodes[n]);
  }

  lemma {:induction false} NoCredits(c: Controller, n: NodeId, log: seq<Change>)
    requires forall i :: 0 <= i < |log| ==> GenuineChange(c, log[i])
    requires forall id :: (n, id) !in c.rows
    ensures CreditedBytes(log, n) == 0
  {
    if log != [] {
      assert GenuineChange(c, log[|log| - 1]);
      NoCredits(c, n, log[..|log| - 1]);
    }
  }

  lemma EnrollUsage(w: World, n: NodeId)
    requires UsageOk(w)
    ensures UsageOk(Step(w, Enroll(n)))
  {
    if n !in w.nodes {
      EnrollOk(w, n);
    }
  }

  lemma AddUserUsage(w: World, u: UserId)
    requires UsageOk(w)
    ensures UsageOk(Step(w, AddUser(u)))
  {
    if u !in w.ctl.used {
      AddUserOk(w, u);
    }
  }

  lemma AddDeviceUsage(w: World, d: DeviceId, u: UserId)
    requires UsageOk(w)
    ensures UsageOk(Step(w, AddDevice(d, u)))
  {
    if d !in w.ctl.owner && u in w.ctl.used {
      AddDeviceOk(w, d, u);
    }
  }

  lemma SendBatchUsage(w: World, n: NodeId, id: MsgId)
    requires UsageOk(w)
    ensures UsageOk(Step(w, SendBatch(n, id)))
  {
    if n in w.nodes {
      SendBatchOk(w, n, id);
    }
  }

  lemma TakeBatchUsage(w: World, n: NodeId, b: Batch, id: MsgId, crash: bool)
    requires UsageOk(w)
    ensures UsageOk(Step(w, TakeBatch(n, b, id, crash)))
  {
    if n in w.nodes && b in w.nodes[n].batches {
      TakeBatchOk(w, n, b, id, crash);
    }
  }

  lemma QueueUsage(w: World, n: NodeId, id: MsgId, body: CC.Body)
    requires UsageOk(w)
    ensures UsageOk(Step(w, Queue(n, id, body)))
  {
    CommandsOnly(w, Step(w, Queue(n, id, body)));
  }

  lemma SendCommandUsage(w: World, id: MsgId)
    requires UsageOk(w)
    ensures UsageOk(Step(w, SendCommand(id)))
  {
    if id in w.ctl.commands && w.ctl.commands[id].node in w.nodes {
      SendCommandOk(w, id);
    }
  }

  lemma ExpireUsage(w: World, id: MsgId)
    requires UsageOk(w)
    ensures UsageOk(Step(w, Expire(id)))
  {
    CommandsOnly(w, Step(w, Expire(id)));
  }

  lemma ReceiveUsage(w: World, n: NodeId, m: CC.Message, out: CC.Outcome)
    requires UsageOk(w)
    ensures UsageOk(Step(w, Receive(n, m, out)))
  {
    if n in w.nodes && m in w.nodes[n].inbox {
      ReceiveOk(w, n, m, out);
    }
  }

  lemma TakeReplyUsage(w: World, n: NodeId, r: CC.Reply)
    requires UsageOk(w)
    ensures UsageOk(Step(w, TakeReply(n, r)))
  {
    CommandsOnly(w, Step(w, TakeReply(n, r)));
  }

  lemma StepUsageOk(w: World, a: Action)
    requires UsageOk(w)
    ensures UsageOk(Step(w, a))
  {
    match a
    case Enroll(n) => EnrollUsage(w, n);
    case AddUser(u) => AddUserUsage(w, u);
    case AddDevice(d, u) => AddDeviceUsage(w, d, u);
    case ResetUsage(u) => ResetUsageOk(w, u);
    case Record(n, d, tx, rx) => RecordOk(w, n, d, tx, rx);
    case SendBatch(n, id) => SendBatchUsage(w, n, id);
    case TakeBatch(n, b, id, crash) => TakeBatchUsage(w, n, b, id, crash);
    case Queue(n, id, body) => QueueUsage(w, n, id, body);
    case SendCommand(id) => SendCommandUsage(w, id);
    case Expire(id) => ExpireUsage(w, id);
    case Receive(n, m, out) => ReceiveUsage(w, n, m, out);
    case TakeReply(n, r) => TakeReplyUsage(w, n, r);
    case Restart(n) => RestartOk(w, n);
  }

  lemma RestartOk(w: World, n: NodeId)
    requires UsageOk(w)
    ensures UsageOk(Step(w, Restart(n)))
  {
    if n in w.nodes {
      assert NodeOk(w.ctl, n, w.nodes[n]);
      assert NodeOk(w.ctl, n, Step(w, Restart(n)).nodes[n]);
    }
  }

  lemma {:induction false} RunUsageOk(w: World, run: seq<Action>)
    requires UsageOk(w)
    ensures UsageOk(Run(w, run))
    decreases |run|
  {
    if run != [] {
      StepUsageOk(w, run[0]);
      RunUsageOk(Step(w, run[0]), run[1..]);
    }
  }

  /** Exactly-once accounting, in every run: each recorded event is added at most once,
      an acknowledged event has been added exactly once and with its own bytes, bytes
      recorded are bytes credited plus bytes not yet counted, and each subscription's
      usage is its credits since its last reset. */
  lemma ExactlyOnce(run: seq<Action>, n: NodeId)
    requires n in Run(START, run).nodes
    ensures var w := Run(START, run);
            var s := w.nodes[n].client.store;
            && (forall id: nat :: Times(w.ctl.log, n, id) <= 1)
            && (forall id :: id in s.sent ==> Times(w.ctl.log, n, id) == 1)
            && (forall id: nat :: Times(w.ctl.log, n, id) == 1 ==>
                  1 <= id <= |s.events| && (n, id) in w.ctl.rows && w.ctl.rows[(n, id)] == s.events[id - 1])
            && (forall i :: 0 <= i < |w.ctl.log| ==> GenuineChange(w.ctl, w.ctl.log[i]))
            && RecordedBytes(s.events) == CreditedBytes(w.ctl.log, n) + BytesWhere(w.ctl.rows, n, s.events, false)
            && (forall u :: u in w.ctl.used ==> w.ctl.used[u] == UsedFrom(w.ctl.log, u))
  {
    RunUsageOk(START, run);
    var w := Run(START, run);
    var s := w.nodes[n].client.store;
    assert NodeOk(w.ctl, n, w.nodes[n]);
    BytesSplit(w.ctl.rows, n, s.events);
  }

  // ---- Invariant: acknowledgements ---------------------------------------

  ghost predicate AckNodeOk(w: World, n: NodeId, x: Node)
  {
    && x.client.seen <= x.client.applied.Keys
    && (forall id :: id in x.client.applied ==> x.client.applied[id] in x.inbox && x.client.applied[id].id == id)
    && (forall r :: r in x.replies && r.ok ==> r.to in x.client.applied)
    && (forall m :: m in x.inbox ==> MessageOk(w, n, m))
  }

  /** Message ids identify what was sent: a command as queued for this node, or an acknowledgement. */
  ghost predicate MessageOk(w: World, n: NodeId, m: CC.Message)
  {
    && m.id in w.ids
    && (m.Command? ==> m.id in w.ctl.commands && w.ctl.commands[m.id].node == n && w.ctl.commands[m.id].body == m.body)
    && (m.UsageAck? ==> m.id !in w.ctl.commands)
  }

  ghost predicate AckRowOk(w: World, id: MsgId)
    requires id in w.ctl.commands
  {
    var row := w.ctl.commands[id];
    && id in w.ids && row.node in w.nodes
    && (row.status == Acked ==> row.everAcked)
    && (row.everAcked ==> id in w.nodes[row.node].client.applied)
  }

  ghost predicate AckOk(w: World)
  {
    && (forall n :: n in w.nodes ==> AckNodeOk(w, n, w.nodes[n]))
    && (forall id :: id in w.ctl.commands ==> AckRowOk(w, id))
  }

  /** Growth under which messages and rows stay good: ids only grow, rows keep their
      node and body, new rows use new ids. */
  ghost predicate IdsGrow(w: World, w': World)
  {
    && w.ids <= w'.ids
    && w.ctl.commands.Keys <= w'.ctl.commands.Keys
    && (forall id :: id in w.ctl.commands ==>
          w'.ctl.commands[id].node == w.ctl.commands[id].node && w'.ctl.commands[id].body == w.ctl.commands[id].body)
    && (forall id :: id in w'.ctl.commands && id !in w.ctl.commands ==> id !in w.ids)
  }

  lemma NodeGrows(w: World, w': World, n: NodeId, x: Node)
    requires AckNodeOk(w, n, x) && IdsGrow(w, w')
    ensures AckNodeOk(w', n, x)
  {
    forall m | m in x.inbox
      ensures MessageOk(w', n, m)
    {
      assert MessageOk(w, n, m);
    }
  }

  lemma SoundNode(w: World, n: NodeId, x: Node, m: CC.Message, client: CC.Client, replies: seq<CC.Reply>)
    requires AckNodeOk(w, n, x) && m in x.inbox && CC.Sound(x.client, m, client, replies)
    ensures AckNodeOk(w, n, x.(client := client, replies := x.replies + set r | r in replies))
  {
  }

  lemma ReceiveAckNode(w: World, n: NodeId, x: Node, m: CC.Message, out: CC.Outcome)
    requires AckNodeOk(w, n, x) && m in x.inbox
    ensures var (client, replies) := CC.Receive(x.client, m, out);
            && AckNodeOk(w, n, x.(client := client, replies := x.replies + set r | r in replies))
            && x.client.applied.Keys <= client.applied.Keys
  {
    CC.RepliesSound(x.client, m, out);
    var (client, replies) := CC.Receive(x.client, m, out);
    SoundNode(w, n, x, m, client, replies);
  }

  /** The parts of a node that acknowledgements depend on. */
  ghost predicate Quiet(x: Node, x': Node)
  {
    x'.client == x.client.(store := x'.client.store) && x'.replies == x.replies && x'.inbox == x.inbox
  }

  /** Steps that leave readers, replies and inboxes alone, and rows except for their status. */
  ghost predicate QuietStep(w: World, w': World)
  {
    && IdsGrow(w, w')
    && w'.nodes.Keys == w.nodes.Keys
    && (forall n :: n in w.nodes ==> Quiet(w.nodes[n], w'.nodes[n]))
  }

  lemma QuietNodes(w: World, w': World)
    requires AckOk(w) && QuietStep(w, w')
    ensures forall n :: n in w'.nodes ==> AckNodeOk(w', n, w'.nodes[n])
  {
    forall n | n in w'.nodes
      ensures AckNodeOk(w', n, w'.nodes[n])
    {
      assert Quiet(w.nodes[n], w'.nodes[n]);
      NodeGrows(w, w', n, w.nodes[n]);
    }
  }

  lemma SameRows(w: World, w': World)
    requires AckOk(w) && w.ids <= w'.ids && w'.ctl.commands == w.ctl.commands
    requires w.nodes.Keys <= w'.nodes.Keys
    requires forall n :: n in w.nodes ==> w.nodes[n].client.applied.Keys <= w'.nodes[n].client.applied.Keys
    ensures forall id :: id in w'.ctl.commands ==> AckRowOk(w', id)
  {
    forall id | id in w'.ctl.commands
      ensures AckRowOk(w', id)
    {
      assert AckRowOk(w, id);
    }
  }

  lemma QuietSameRows(w: World, w': World)
    requires AckOk(w) && QuietStep(w, w') && w'.ctl.commands == w.ctl.commands
    ensures AckOk(w')
  {
    QuietNodes(w, w');
    assert forall n :: n in w.nodes ==> Quiet(w.nodes[n], w'.nodes[n]);
    SameRows(w, w');
  }

  lemma EnrollAck(w: World, n: NodeId)
    requires AckOk(w) && n !in w.nodes
    ensures AckOk(Step(w, Enroll(n)))
  {
    var w' := Step(w, Enroll(n));
    forall m | m in w'.nodes
      ensures AckNodeOk(w', m, w'.nodes[m])
    {
      if m != n {
        NodeGrows(w, w', m, w.nodes[m]);
      }
    }
    SameRows(w, w');
  }

  /** Queueing, expiring and settling change one row. */
  lemma OneRow(w: World, id: MsgId, row: CommandRow)
    requires AckOk(w)
    requires id in w.ctl.commands ==> row.node == w.ctl.commands[id].node && row.body == w.ctl.commands[id].body
    requires id !in w.ctl.commands ==> id !in w.ids
    requires row.node in w.nodes && (row.status == Acked ==> row.everAcked)
    requires row.everAcked ==> id in w.nodes[row.node].client.applied
    ensures AckOk(w.(ctl := w.ctl.(commands := w.ctl.commands[id := row]), ids := w.ids + {id}))
  {
    var w' := w.(ctl := w.ctl.(commands := w.ctl.commands[id := row]), ids := w.ids + {id});
    GrowNodes(w, w');
    forall k | k in w'.ctl.commands
      ensures AckRowOk(w', k)
    {
      if k != id {
        assert AckRowOk(w, k);
      }
    }
  }

  lemma GrowNodes(w: World, w': World)
    requires AckOk(w) && IdsGrow(w, w') && w'.nodes == w.nodes
    ensures forall n :: n in w'.nodes ==> AckNodeOk(w', n, w'.nodes[n])
  {
    forall n | n in w'.nodes
      ensures AckNodeOk(w', n, w'.nodes[n])
    {
      NodeGrows(w, w', n, w.nodes[n]);
    }
  }

  lemma QueueAck(w: World, n: NodeId, id: MsgId, body: CC.Body)
    requires AckOk(w) && n in w.nodes && Fresh(w, id)
    ensures AckOk(Step(w, Queue(n, id, body)))
  {
    IdsOfCommands(w, id);
    OneRow(w, id, CommandRow(n, body, Pending, false));
  }

  /** Changing the status of an existing row. */
  lemma StatusAck(w: World, id: MsgId, row: CommandRow)
    requires AckOk(w) && id in w.ctl.commands
    requires row.node == w.ctl.commands[id].node && row.body == w.ctl.commands[id].body
    requires row.status == Acked ==> row.everAcked
    requires row.everAcked ==> row.node in w.nodes && id in w.nodes[row.node].client.applied
    ensures AckOk(w.(ctl := w.ctl.(commands := w.ctl.commands[id := row])))
  {
    assert AckRowOk(w, id);
    OneRow(w, id, row);
    assert w.ids + {id} == w.ids;
  }

  lemma ExpireAck(w: World, id: MsgId)
    requires AckOk(w)
    ensures AckOk(Step(w, Expire(id)))
  {
    if id in w.ctl.commands {
      assert AckRowOk(w, id);
      StatusAck(w, id, w.ctl.commands[id].(status := Expired));
    }
  }

  lemma TakeReplyAck(w: World, n: NodeId, r: CC.Reply)
    requires AckOk(w) && n in w.nodes && r in w.nodes[n].replies
    ensures AckOk(Step(w, TakeReply(n, r)))
  {
    if r.to in w.ctl.commands && w.ctl.commands[r.to].node == n {
      var row := w.ctl.commands[r.to];
      assert AckRowOk(w, r.to);
      assert AckNodeOk(w, n, w.nodes[n]);
      StatusAck(w, r.to, row.(status := if r.ok then Acked else Nacked, everAcked := row.everAcked || r.ok));
    }
  }

  /** A well-formed message may be added to an inbox. */
  lemma Deliverable(w: World, n: NodeId, x: Node, m: CC.Message)
    requires AckNodeOk(w, n, x) && MessageOk(w, n, m)
    ensures AckNodeOk(w, n, x.(inbox := x.inbox + {m}))
  {
  }

  lemma IdsOfCommands(w: World, id: MsgId)
    requires AckOk(w)
    ensures id in w.ctl.commands ==> id in w.ids
  {
    if id in w.ctl.commands {
      assert AckRowOk(w, id);
    }
  }

  lemma TakeBatchAck(w: World, n: NodeId, b: Batch, id: MsgId, crash: bool)
    requires AckOk(w) && n in w.nodes && Fresh(w, id)
    ensures AckOk(TakeBatchStep(w, n, b, id, crash))
  {
    var w' := TakeBatchStep(w, n, b, id, crash);
    if Ingest(w.ctl, n, b.events).Some? {
      IngestGrows(w.ctl, n, b.events);
      IdsOfCommands(w, id);
      forall m | m in w'.nodes
        ensures AckNodeOk(w', m, w'.nodes[m])
      {
        NodeGrows(w, w', m, w.nodes[m]);
        if m == n {
          Deliverable(w', n, w.nodes[n], CC.UsageAck(id, EventIds(b.events)));
        }
      }
      SameRows(w, w');
    }
  }

  /** Adding a well-formed message to an inbox, the tables unchanged. */
  lemma PutInboxAck(w: World, n: NodeId, m: CC.Message)
    requires AckOk(w) && n in w.nodes && MessageOk(w, n, m)
    ensures AckOk(Put(w, n, w.nodes[n].(inbox := w.nodes[n].inbox + {m})))
  {
    var w' := Put(w, n, w.nodes[n].(inbox := w.nodes[n].inbox + {m}));
    Deliverable(w, n, w.nodes[n], m);
    OneNode(w, n, w'.nodes[n]);
  }

  /** Replacing one node, the tables unchanged. */
  lemma OneNode(w: World, n: NodeId, x: Node)
    requires AckOk(w) && n in w.nodes && AckNodeOk(w, n, x)
    requires w.nodes[n].client.applied.Keys <= x.client.applied.Keys
    ensures AckOk(Put(w, n, x))
  {
    var w' := Put(w, n, x);
    forall k | k in w'.nodes
      ensures AckNodeOk(w', k, w'.nodes[k])
    {
      assert AckNodeOk(w, k, w'.nodes[k]);
      NodeGrows(w, w', k, w'.nodes[k]);
    }
    SameRows(w, w');
  }

  lemma SendCommandAck(w: World, id: MsgId)
    requires AckOk(w) && id in w.ctl.commands && w.ctl.commands[id].node in w.nodes
    ensures AckOk(SendCommandStep(w, id))
  {
    var row := w.ctl.commands[id];
    assert AckRowOk(w, id);
    StatusAck(w, id, row.(status := Sent));
    var mid := w.(ctl := w.ctl.(commands := w.ctl.commands[id := row.(status := Sent)]));
    PutInboxAck(mid, row.node, CC.Command(id, row.body));
  }

  lemma ReceiveAck(w: World, n: NodeId, m: CC.Message, out: CC.Outcome)
    requires AckOk(w) && n in w.nodes && m in w.nodes[n].inbox
    ensures AckOk(ReceiveStep(w, n, m, out))
  {
    ReceiveAckNode(w, n, w.nodes[n], m, out);
    OneNode(w, n, ReceiveStep(w, n, m, out).nodes[n]);
  }

  lemma RestartNode(w: World, n: NodeId, x: Node)
    requires AckNodeOk(w, n, x)
    ensures AckNodeOk(w, n, x.(client := CC.Restart(x.client)))
  {
  }

  lemma RestartAck(w: World, n: NodeId)
    requires AckOk(w) && n in w.nodes
    ensures AckOk(Step(w, Restart(n)))
  {
    RestartNode(w, n, w.nodes[n]);
    OneNode(w, n, Step(w, Restart(n)).nodes[n]);
  }

  lemma AccountsAck(w: World, ctl: Controller)
    requires AckOk(w) && ctl.commands == w.ctl.commands
    ensures AckOk(w.(ctl := ctl))
  {
    var w' := w.(ctl := ctl);
    assert IdsGrow(w, w');
    QuietSameRows(w, w');
  }

  lemma StoreAck(w: World, n: NodeId, x: Node, ids: set<MsgId>)
    requires AckOk(w) && n in w.nodes && Quiet(w.nodes[n], x) && w.ids <= ids
    ensures AckOk(Put(w, n, x).(ids := ids))
  {
    var w' := Put(w, n, x).(ids := ids);
    assert IdsGrow(w, w');
    QuietSameRows(w, w');
  }

  lemma TableStepAck(w: World, a: Action)
    requires AckOk(w)
    requires a.AddUser? || a.AddDevice? || a.ResetUsage? || a.Queue? || a.Expire? || a.TakeReply?
    ensures AckOk(Step(w, a))
  {
    match a
    case Queue(n, id, body) => if n in w.nodes && Fresh(w, id) { QueueAck(w, n, id, body); }
    case Expire(id) => ExpireAck(w, id);
    case TakeReply(n, r) => if n in w.nodes && r in w.nodes[n].replies { TakeReplyAck(w, n, r); }
    case _ => AccountsAck(w, Step(w, a).ctl);
  }

  lemma StepAckOk(w: World, a: Action)
    requires AckOk(w)
    ensures AckOk(Step(w, a))
  {
    match a
    case Enroll(n) => if n !in w.nodes { EnrollAck(w, n); }
    case Record(n, d, tx, rx) => if n in w.nodes { StoreAck(w, n, Step(w, a).nodes[n], w.ids); }
    case SendBatch(n, id) => if n in w.nodes { StoreAck(w, n, SendBatchStep(w, n, id).nodes[n], w.ids + {id}); }
    case TakeBatch(n, b, id, crash) => if n in w.nodes && Fresh(w, id) { TakeBatchAck(w, n, b, id, crash); }
    case SendCommand(id) =>
      if id in w.ctl.commands && w.ctl.commands[id].node in w.nodes { SendCommandAck(w, id); }
    case Receive(n, m, out) => if n in w.nodes && m in w.nodes[n].inbox { ReceiveAck(w, n, m, out); }
    case Restart(n) => if n in w.nodes { RestartAck(w, n); }
    case _ => TableStepAck(w, a);
  }

  lemma {:induction false} RunAckOk(w: World, run: seq<Action>)
    requires AckOk(w)
    ensures AckOk(Run(w, run))
    decreases |run|
  {
    if run != [] {
      StepAckOk(w, run[0]);
      RunAckOk(Step(w, run[0]), run[1..]);
    }
  }

  /** Ack soundness: in every run, a command the controller ever marked acked was
      successfully applied, with exactly the queued contents, by the node it was queued for. */
  lemma AckSound(run: seq<Action>, id: MsgId)
    requires id in Run(START, run).ctl.commands && Run(START, run).ctl.commands[id].everAcked
    ensures var w := Run(START, run);
            var row := w.ctl.commands[id];
            && row.node in w.nodes
            && id in w.nodes[row.node].client.applied
            && w.nodes[row.node].client.applied[id] == CC.Command(id, row.body)
  {
    RunAckOk(START, run);
    var w := Run(START, run);
    var row := w.ctl.commands[id];
    assert AckRowOk(w, id);
    assert AckNodeOk(w, row.node, w.nodes[row.node]);
    assert MessageOk(w, row.node, w.nodes[row.node].client.applied[id]);
  }
}
