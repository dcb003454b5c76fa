/** Progress of usage delivery: what fault-free exchanges achieve, and what stops them. */
module UsageProgress {
  import opened Options
  import opened Devices
  import NodeStore
  import CC = ControlClient
  import opened ControlProtocol

  /** One fault-free exchange: send the pending batch, count it, receive the acknowledgement. */
  ghost function RoundScript(w: World, n: NodeId, batchId: MsgId, ackId: MsgId): seq<Action>
    requires n in w.nodes
  {
    var b := BatchOf(w.nodes[n].client.store, batchId);
    [SendBatch(n, batchId), TakeBatch(n, b, ackId, false),
     Receive(n, CC.UsageAck(ackId, EventIds(b.events)), CC.Done)]
  }

  /** The events the next batch carries. */
  function Head(w: World, n: NodeId): seq<nat>
    requires n in w.nodes
  {
    NodeStore.First(NodeStore.Pending(w.nodes[n].client.store), BATCH_LIMIT)
  }

  /** An event the controller has not counted and refuses, as its tables stand. */
  ghost predicate Poisoned(w: World, n: NodeId, id: nat)
    requires n in w.nodes
  {
    var events := w.nodes[n].client.store.events;
    1 <= id <= |events| && (n, id) !in w.ctl.rows && !Acceptable(w.ctl, events[id - 1])
  }

  ghost predicate HeadClean(w: World, n: NodeId)
    requires n in w.nodes
  {
    forall id :: id in Head(w, n) ==> !Poisoned(w, n, id)
  }

  /** A batch carries the oldest thousand pending events. */
  lemma HeadExact(w: World, n: NodeId)
    requires n in w.nodes
    ensures var pending := NodeStore.Pending(w.nodes[n].client.store);
            Head(w, n) == if |pending| <= 1000 then pending else pending[..1000]
  {
  }

  ghost predicate DistinctIds(b: seq<(nat, Event)>)
  {
    forall i, j :: 0 <= i < j < |b| ==> b[i].0 != b[j].0
  }

  ghost predicate AllTakeable(c: Controller, n: NodeId, b: seq<(nat, Event)>)
  {
    forall i :: 0 <= i < |b| ==> (n, b[i].0) in c.rows || Acceptable(c, b[i].1)
  }

  lemma TakeableTail(c: Controller, n: NodeId, b: seq<(nat, Event)>)
    requires b != []
    ensures AllTakeable(c, n, b) <==>
            ((n, b[0].0) in c.rows || Acceptable(c, b[0].1)) && AllTakeable(c, n, b[1..])
  {
    assert forall i :: 0 <= i < |b[1..]| ==> b[1..][i] == b[i + 1];
    assert forall i :: 1 <= i < |b| ==> b[i] == b[1..][i - 1];
  }

  lemma TakeableAfterCount(c: Controller, n: NodeId, b: seq<(nat, Event)>)
    requires b != [] && DistinctIds(b) && Acceptable(c, b[0].1)
    ensures AllTakeable(Count(c, n, b[0].0, b[0].1), n, b[1..]) <==> AllTakeable(c, n, b[1..])
  {
    var c1 := Count(c, n, b[0].0, b[0].1);
    assert forall x :: Acceptable(c1, x) <==> Acceptable(c, x);
    forall i | 0 <= i < |b[1..]|
      ensures (n, b[1..][i].0) in c1.rows <==> (n, b[1..][i].0) in c.rows
    {
      assert b[1..][i] == b[i + 1];
    }
  }

  /** A batch commits exactly when each of its events is known or acceptable. */
  lemma {:induction false} IngestExact(c: Controller, n: NodeId, b: seq<(nat, Event)>)
    requires DistinctIds(b)
    ensures Ingest(c, n, b).Some? <==> AllTakeable(c, n, b)
    decreases |b|
  {
    if b != [] {
      var (id, e) := b[0];
      TakeableTail(c, n, b);
      if (n, id) in c.rows {
        IngestExact(c, n, b[1..]);
      } else if Acceptable(c, e) {
        TakeableAfterCount(c, n, b);
        IngestExact(Count(c, n, id, e), n, b[1..]);
      }
    }
  }

  // ---- What a batch does, on the tables -----------------------------------

  /** The event at i is counted for the first time: no row has it and no earlier event of the
      batch has its number. */
  ghost predicate FirstTime(c: Controller, n: NodeId, b: seq<(nat, Event)>, i: nat)
    requires i < |b|
  {
    (n, b[i].0) !in c.rows && forall j :: 0 <= j < i ==> b[j].0 != b[i].0
  }

  /** Bytes of the first-time events among the first k whose device the user owns. */
  ghost function NewBytes(c: Controller, n: NodeId, b: seq<(nat, Event)>, u: UserId, k: nat): int
    requires k <= |b|
  {
    if k == 0 then 0
    else
      var e := b[k - 1].1;
      NewBytes(c, n, b, u, k - 1)
      + if FirstTime(c, n, b, k - 1) && e.device in c.owner && c.owner[e.device] == u then e.tx + e.rx else 0
  }

  lemma {:induction false} IngestMore(c: Controller, n: NodeId, b: seq<(nat, Event)>, x: (nat, Event))
    ensures Ingest(c, n, b + [x])
            == if Ingest(c, n, b).None? then None else Ingest(Ingest(c, n, b).value, n, [x])
    decreases |b|
  {
    if b == [] {
      assert [] + [x] == [x];
    } else {
      var (id, e) := b[0];
      assert (b + [x])[0] == b[0] && (b + [x])[1..] == b[1..] + [x];
      if (n, id) in c.rows {
        IngestMore(c, n, b[1..], x);
      } else if Acceptable(c, e) {
        IngestMore(Count(c, n, id, e), n, b[1..], x);
      }
    }
  }

  ghost predicate InPrefix(b: seq<(nat, Event)>, k: nat, id: nat)
    requires k <= |b|
  {
    exists i :: 0 <= i < k && b[i].0 == id
  }

  /** Every user's usage grew by the bytes of that user's first-time events. */
  ghost predicate UsageRaised(c: Controller, n: NodeId, b: seq<(nat, Event)>, k: nat, used: map<UserId, int>)
    requires k <= |b|
  {
    used.Keys == c.used.Keys && forall u :: u in c.used ==> used[u] == c.used[u] + NewBytes(c, n, b, u, k)
  }

  /** The old rows are as they were, and the new ones are the first-time events. */
  ghost predicate RowsAdded(c: Controller, n: NodeId, b: seq<(nat, Event)>, k: nat, rows: map<(NodeId, nat), Event>)
    requires k <= |b|
  {
    && (forall m, id: nat :: (m, id) in rows <==> (m, id) in c.rows || (m == n && InPrefix(b, k, id)))
    && (forall key :: key in c.rows ==> key in rows && rows[key] == c.rows[key])
    && (forall i :: 0 <= i < k && FirstTime(c, n, b, i) ==> (n, b[i].0) in rows && rows[(n, b[i].0)] == b[i].1)
  }

  /** The tables after the first k events of a batch that can be booked. */
  ghost predicate Booked(c: Controller, n: NodeId, b: seq<(nat, Event)>, k: nat, c': Controller)
    requires k <= |b|
  {
    && c'.owner == c.owner && c'.commands == c.commands
    && UsageRaised(c, n, b, k, c'.used) && RowsAdded(c, n, b, k, c'.rows)
  }

  /** The foreign keys and sign checks of a new usage row, spelled out. */
  ghost predicate AllBookable(c: Controller, n: NodeId, b: seq<(nat, Event)>, k: nat)
    requires k <= |b|
  {
    forall i :: 0 <= i < k && FirstTime(c, n, b, i) ==>
      && b[i].1.device in c.owner && c.owner[b[i].1.device] in c.used
      && 0 <= b[i].1.tx && 0 <= b[i].1.rx
  }

  lemma FirstTimeRows(c: Controller, n: NodeId, b: seq<(nat, Event)>, k: nat, rows: map<(NodeId, nat), Event>)
    requires k < |b| && RowsAdded(c, n, b, k, rows)
    ensures FirstTime(c, n, b, k) <==> (n, b[k].0) !in rows
  {
    assert (n, b[k].0) in rows <==> (n, b[k].0) in c.rows || InPrefix(b, k, b[k].0);
  }

  lemma PrefixGrows(b: seq<(nat, Event)>, k: nat, id: nat)
    requires k < |b|
    ensures InPrefix(b, k + 1, id) <==> InPrefix(b, k, id) || id == b[k].0
  {
  }

  lemma RowsGrow(c: Controller, n: NodeId, b: seq<(nat, Event)>, k: nat, rows: map<(NodeId, nat), Event>)
    requires k < |b| && RowsAdded(c, n, b, k, rows)
    ensures RowsAdded(c, n, b, k + 1, if FirstTime(c, n, b, k) then rows[(n, b[k].0) := b[k].1] else rows)
  {
    FirstTimeRows(c, n, b, k, rows);
    var rows' := if FirstTime(c, n, b, k) then rows[(n, b[k].0) := b[k].1] else rows;
    forall m, id: nat
      ensures (m, id) in rows' <==> (m, id) in c.rows || (m == n && InPrefix(b, k + 1, id))
    {
      PrefixGrows(b, k, id);
      assert (m, id) in rows <==> (m, id) in c.rows || (m == n && InPrefix(b, k, id));
    }
    forall i | 0 <= i < k + 1 && FirstTime(c, n, b, i)
      ensures (n, b[i].0) in rows' && rows'[(n, b[i].0)] == b[i].1
    {
      assert i < k && FirstTime(c, n, b, k) ==> b[i].0 != b[k].0;
    }
  }

  lemma UsageGrows(c: Controller, n: NodeId, b: seq<(nat, Event)>, k: nat, used: map<UserId, int>)
    requires k < |b| && UsageRaised(c, n, b, k, used)
    requires FirstTime(c, n, b, k) ==> b[k].1.device in c.owner && c.owner[b[k].1.device] in c.used
    ensures UsageRaised(c, n, b, k + 1,
              if FirstTime(c, n, b, k)
              then used[c.owner[b[k].1.device] := used[c.owner[b[k].1.device]] + (b[k].1.tx + b[k].1.rx)]
              else used)
  {
  }

  lemma OneMoreBooked(c: Controller, n: NodeId, b: seq<(nat, Event)>, k: nat, m: Controller)
    requires k < |b| && Booked(c, n, b, k, m)
    ensures Ingest(m, n, [b[k]]).Some? <==> (FirstTime(c, n, b, k) ==>
              && b[k].1.device in c.owner && c.owner[b[k].1.device] in c.used
              && 0 <= b[k].1.tx && 0 <= b[k].1.rx)
    ensures Ingest(m, n, [b[k]]).Some? ==> Booked(c, n, b, k + 1, Ingest(m, n, [b[k]]).value)
  {
    var one := [b[k]];
    assert one[1..] == [];
    FirstTimeRows(c, n, b, k, m.rows);
    RowsGrow(c, n, b, k, m.rows);
    if FirstTime(c, n, b, k) ==> Acceptable(m, b[k].1) {
      UsageGrows(c, n, b, k, m.used);
    }
  }

  lemma AllBookableMore(c: Controller, n: NodeId, b: seq<(nat, Event)>, k: nat)
    requires k < |b|
    ensures AllBookable(c, n, b, k + 1) <==> AllBookable(c, n, b, k) && (FirstTime(c, n, b, k) ==>
              && b[k].1.device in c.owner && c.owner[b[k].1.device] in c.used
              && 0 <= b[k].1.tx && 0 <= b[k].1.rx)
  {
  }

  lemma {:induction false} PrefixBooked(c: Controller, n: NodeId, b: seq<(nat, Event)>, k: nat)
    requires k <= |b|
    ensures Ingest(c, n, b[..k]).Some? <==> AllBookable(c, n, b, k)
    ensures Ingest(c, n, b[..k]).Some? ==> Booked(c, n, b, k, Ingest(c, n, b[..k]).value)
    decreases k
  {
    if k > 0 {
      PrefixBooked(c, n, b, k - 1);
      assert b[..k] == b[..k - 1] + [b[k - 1]];
      IngestMore(c, n, b[..k - 1], b[k - 1]);
      AllBookableMore(c, n, b, k - 1);
      if Ingest(c, n, b[..k - 1]).Some? {
        OneMoreBooked(c, n, b, k - 1, Ingest(c, n, b[..k - 1]).value);
      }
    }
  }

  /** A batch commits exactly if every event that is counted for the first time is of a device
      whose owner has a subscription and carries no negative count. Each such event then has
      its row and has raised its owner's usage by its bytes; nothing else has changed. */
  lemma BatchExact(c: Controller, n: NodeId, b: seq<(nat, Event)>)
    ensures Ingest(c, n, b).Some? <==> AllBookable(c, n, b, |b|)
    ensures Ingest(c, n, b).Some? ==> Booked(c, n, b, |b|, Ingest(c, n, b).value)
  {
    PrefixBooked(c, n, b, |b|);
    assert b[..|b|] == b;
  }

  lemma BatchFacts(s: NodeStore.Store, id: MsgId)
    ensures var b := BatchOf(s, id).events;
            && EventIds(b) == NodeStore.First(NodeStore.Pending(s), BATCH_LIMIT)
            && DistinctIds(b) && |b| <= BATCH_LIMIT
            && (forall i :: 0 <= i < |b| ==> 1 <= b[i].0 <= |s.events| && b[i].1 == s.events[b[i].0 - 1])
  {
    NodeStore.PendingExact(s, |s.events|);
    var p := NodeStore.Pending(s);
    assert forall i :: 0 <= i < |p| ==> p[i] in p;
  }

  lemma HeadMeans(w: World, n: NodeId, id: MsgId)
    requires n in w.nodes
    ensures HeadClean(w, n) <==> AllTakeable(w.ctl, n, BatchOf(w.nodes[n].client.store, id).events)
  {
    var b := BatchOf(w.nodes[n].client.store, id).events;
    BatchFacts(w.nodes[n].client.store, id);
    var head := Head(w, n);
    assert |head| == |b| && forall i :: 0 <= i < |b| ==> head[i] == b[i].0;
    if HeadClean(w, n) {
      forall i | 0 <= i < |b|
        ensures (n, b[i].0) in w.ctl.rows || Acceptable(w.ctl, b[i].1)
      {
        assert head[i] in head && !Poisoned(w, n, head[i]);
      }
    }
  }

  lemma RunThree(w: World, a: Action, b: Action, c: Action)
    ensures Run(w, [a, b, c]) == Step(Step(Step(w, a), b), c)
  {
    assert [a, b, c][1..] == [b, c] && [b, c][1..] == [c] && [c][1..] == [];
    var x := Step(w, a);
    var y := Step(x, b);
    assert Run(y, [c]) == Run(Step(y, c), []);
    assert Run(x, [b, c]) == Run(y, [c]);
  }

  /** The acknowledgement a committed batch gets. */
  function AckOf(b: Batch, ackId: MsgId): CC.Message
  {
    CC.UsageAck(ackId, EventIds(b.events))
  }

  function Taken(w: World, n: NodeId, batchId: MsgId, ackId: MsgId): World
    requires n in w.nodes
  {
    TakeBatchStep(SendBatchStep(w, n, batchId), n, BatchOf(w.nodes[n].client.store, batchId), ackId, false)
  }

  lemma SendStep(w: World, n: NodeId, id: MsgId)
    requires n in w.nodes && Fresh(w, id)
    ensures Step(w, SendBatch(n, id)) == SendBatchStep(w, n, id)
  {
  }

  lemma TakeStep(w: World, n: NodeId, b: Batch, id: MsgId)
    requires n in w.nodes && b in w.nodes[n].batches && Fresh(w, id)
    ensures Step(w, TakeBatch(n, b, id, false)) == TakeBatchStep(w, n, b, id, false)
  {
  }

  lemma ReceiveAny(w: World, n: NodeId, m: CC.Message)
    requires n in w.nodes
    ensures Step(w, Receive(n, m, CC.Done)) == if m in w.nodes[n].inbox then ReceiveStep(w, n, m, CC.Done) else w
  {
  }

  /** The world after a round: the first two steps, then whatever acknowledgement there is. */
  ghost function RoundEnd(w: World, n: NodeId, batchId: MsgId, ackId: MsgId): World
    requires n in w.nodes
  {
    var w' := Taken(w, n, batchId, ackId);
    var m := AckOf(BatchOf(w.nodes[n].client.store, batchId), ackId);
    if m in w'.nodes[n].inbox then ReceiveStep(w', n, m, CC.Done) else w'
  }

  lemma RoundSteps(w: World, n: NodeId, batchId: MsgId, ackId: MsgId)
    requires n in w.nodes && Fresh(w, batchId) && Fresh(w, ackId) && batchId != ackId
    ensures Run(w, RoundScript(w, n, batchId, ackId)) == RoundEnd(w, n, batchId, ackId)
  {
    var b := BatchOf(w.nodes[n].client.store, batchId);
    RunThree(w, SendBatch(n, batchId), TakeBatch(n, b, ackId, false), Receive(n, AckOf(b, ackId), CC.Done));
    SendStep(w, n, batchId);
    TakeStep(SendBatchStep(w, n, batchId), n, b, ackId);
    ReceiveAny(Taken(w, n, batchId, ackId), n, AckOf(b, ackId));
  }

  lemma FreshNotSeen(w: World, n: NodeId, id: MsgId)
    requires AckOk(w) && n in w.nodes && Fresh(w, id)
    ensures id !in w.nodes[n].client.seen
  {
    var x := w.nodes[n];
    assert AckNodeOk(w, n, x);
    assert id in x.client.applied ==> MessageOk(w, n, x.client.applied[id]);
  }

  lemma NotInInbox(w: World, n: NodeId, m: CC.Message)
    requires AckOk(w) && n in w.nodes && Fresh(w, m.id)
    ensures m !in w.nodes[n].inbox
  {
    assert AckNodeOk(w, n, w.nodes[n]);
    assert m in w.nodes[n].inbox ==> MessageOk(w, n, m);
  }

  /** A poisoned event among the oldest thousand blocks the whole batch. */
  lemma RoundPoisoned(w: World, n: NodeId, batchId: MsgId, ackId: MsgId)
    requires AckOk(w) && n in w.nodes && !HeadClean(w, n)
    requires Fresh(w, batchId) && Fresh(w, ackId) && batchId != ackId
    ensures RoundEnd(w, n, batchId, ackId) == SendBatchStep(w, n, batchId)
  {
    var b := BatchOf(w.nodes[n].client.store, batchId);
    BatchFacts(w.nodes[n].client.store, batchId);
    IngestExact(w.ctl, n, b.events);
    HeadMeans(w, n, batchId);
    NotInInbox(w, n, AckOf(b, ackId));
  }

  lemma CleanIngest(w: World, n: NodeId, batchId: MsgId)
    requires n in w.nodes && HeadClean(w, n)
    ensures var r := Ingest(w.ctl, n, BatchOf(w.nodes[n].client.store, batchId).events);
            r.Some? && Grown(w.ctl, r.value) && forall id :: id in Head(w, n) ==> (n, id) in r.value.rows
  {
    var b := BatchOf(w.nodes[n].client.store, batchId).events;
    BatchFacts(w.nodes[n].client.store, batchId);
    IngestExact(w.ctl, n, b);
    HeadMeans(w, n, batchId);
    IngestGrows(w.ctl, n, b);
    var c := Ingest(w.ctl, n, b).value;
    forall id | id in Head(w, n)
      ensures (n, id) in c.rows
    {
      assert id in EventIds(b);
      var i :| 0 <= i < |b| && EventIds(b)[i] == id;
      assert (n, b[i].0) in c.rows.Keys;
    }
  }

  lemma AckApplied(c: CC.Client, id: MsgId, ids: seq<nat>)
    requires id != "" && id !in c.seen && |ids| <= BATCH_LIMIT
    ensures CC.Receive(c, CC.UsageAck(id, ids), CC.Done).0.store == NodeStore.MarkSent(c.store, ids)
  {
  }

  ghost predicate Advanced(w: World, w': World, n: NodeId)
    requires n in w.nodes
  {
    && n in w'.nodes
    && w'.nodes[n].client.store == NodeStore.MarkSent(w.nodes[n].client.store, Head(w, n))
    && (forall id :: id in Head(w, n) ==> (n, id) in w'.ctl.rows)
    && Grown(w.ctl, w'.ctl)
  }

  lemma RoundClean(w: World, n: NodeId, batchId: MsgId, ackId: MsgId)
    requires AckOk(w) && n in w.nodes && HeadClean(w, n)
    requires Fresh(w, batchId) && Fresh(w, ackId) && batchId != ackId
    ensures var w' := RoundEnd(w, n, batchId, ackId);
            Advanced(w, w', n) && w'.ids == w.ids + {batchId, ackId}
  {
    var b := BatchOf(w.nodes[n].client.store, batchId);
    BatchFacts(w.nodes[n].client.store, batchId);
    CleanTaken(w, n, batchId, ackId);
    FreshNotSeen(w, n, ackId);
    AckApplied(w.nodes[n].client, ackId, EventIds(b.events));
  }

  lemma CleanTaken(w: World, n: NodeId, batchId: MsgId, ackId: MsgId)
    requires n in w.nodes && HeadClean(w, n)
    ensures var w' := Taken(w, n, batchId, ackId);
            && n in w'.nodes && w'.nodes[n].client == w.nodes[n].client
            && AckOf(BatchOf(w.nodes[n].client.store, batchId), ackId) in w'.nodes[n].inbox
            && w'.ids == w.ids + {batchId, ackId}
            && (forall id :: id in Head(w, n) ==> (n, id) in w'.ctl.rows)
            && Grown(w.ctl, w'.ctl)
  {
    CleanIngest(w, n, batchId);
  }

  /** A round is all or nothing: it counts and acknowledges the oldest thousand pending
      events exactly when none of them is poisoned; otherwise tables and store stay as they were. */
  lemma RoundExact(w: World, n: NodeId, batchId: MsgId, ackId: MsgId)
    requires AckOk(w) && n in w.nodes
    requires Fresh(w, batchId) && Fresh(w, ackId) && batchId != ackId
    requires Head(w, n) != []
    ensures var w' := Run(w, RoundScript(w, n, batchId, ackId));
            && (Advanced(w, w', n) <==> HeadClean(w, n))
            && (!HeadClean(w, n) ==> n in w'.nodes && w'.nodes[n].client == w.nodes[n].client && w'.ctl == w.ctl)
  {
    RoundSteps(w, n, batchId, ackId);
    if HeadClean(w, n) {
      RoundClean(w, n, batchId, ackId);
    } else {
      RoundPoisoned(w, n, batchId, ackId);
      HeadUnsent(w, n);
    }
  }

  lemma HeadUnsent(w: World, n: NodeId)
    requires n in w.nodes && Head(w, n) != []
    ensures NodeStore.MarkSent(w.nodes[n].client.store, Head(w, n)) != w.nodes[n].client.store
  {
    var s := w.nodes[n].client.store;
    NodeStore.PendingExact(s, |s.events|);
    var id := Head(w, n)[0];
    assert id == NodeStore.Pending(s)[0] && id in NodeStore.Pending(s);
    assert id in Head(w, n);
    assert id in NodeStore.MarkSent(s, Head(w, n)).sent;
  }

  // ---- Draining -----------------------------------------------------------

  lemma HeadPosition(s: NodeStore.Store, limit: nat, n: nat)
    requires 1 <= n <= |s.events| && n !in s.sent
    ensures n in NodeStore.First(NodeStore.Pending(s), limit) <==> |NodeStore.PendingUpTo(s, n - 1)| < limit
  {
    var all := NodeStore.Pending(s);
    var k := |NodeStore.PendingUpTo(s, n - 1)|;
    NodeStore.PendingPrefix(s, n, |s.events|);
    NodeStore.PendingExact(s, |s.events|);
    assert all[k] == n;
    var first := NodeStore.First(all, limit);
    if k < limit {
      assert first[k] == n;
    } else {
      assert forall i :: 0 <= i < |first| ==> first[i] == all[i] < all[k];
    }
  }

  /** The pending list after its head was acknowledged. */
  lemma {:induction false} PendingAfter(s: NodeStore.Store, limit: nat, n: nat)
    requires n <= |s.events|
    ensures var s' := NodeStore.MarkSent(s, NodeStore.First(NodeStore.Pending(s), limit));
            var q := NodeStore.PendingUpTo(s, n);
            NodeStore.PendingUpTo(s', n) == if |q| <= limit then [] else q[limit..]
  {
    if n > 0 {
      PendingAfter(s, limit, n - 1);
      if n !in s.sent {
        HeadPosition(s, limit, n);
      }
    }
  }

  /** Fault-free rounds one after another. */
  ghost function Rounds(w: World, n: NodeId, ids: seq<(MsgId, MsgId)>): World
    decreases |ids|
  {
    if ids == [] || n !in w.nodes then w
    else Rounds(Run(w, RoundScript(w, n, ids[0].0, ids[0].1)), n, ids[1..])
  }

  ghost predicate FreshPairs(w: World, ids: seq<(MsgId, MsgId)>)
  {
    && (forall i :: 0 <= i < |ids| ==> Fresh(w, ids[i].0) && Fresh(w, ids[i].1) && ids[i].0 != ids[i].1)
    && (forall i, j :: 0 <= i < j < |ids| ==> {ids[i].0, ids[i].1} !! {ids[j].0, ids[j].1})
  }

  lemma PairsStayFresh(w: World, w': World, ids: seq<(MsgId, MsgId)>)
    requires ids != [] && FreshPairs(w, ids) && w'.ids == w.ids + {ids[0].0, ids[0].1}
    ensures FreshPairs(w', ids[1..])
  {
    var rest := ids[1..];
    forall i | 0 <= i < |rest|
      ensures Fresh(w', rest[i].0) && Fresh(w', rest[i].1) && rest[i].0 != rest[i].1
    {
      assert rest[i] == ids[i + 1];
      assert {ids[0].0, ids[0].1} !! {ids[i + 1].0, ids[i + 1].1};
    }
    forall i, j | 0 <= i < j < |rest|
      ensures {rest[i].0, rest[i].1} !! {rest[j].0, rest[j].1}
    {
      assert rest[i] == ids[i + 1] && rest[j] == ids[j + 1];
    }
  }

  ghost predicate AllClean(w: World, n: NodeId)
    requires n in w.nodes
  {
    forall id :: !Poisoned(w, n, id)
  }

  lemma CleanStays(w: World, w': World, n: NodeId)
    requires n in w.nodes && AllClean(w, n) && Advanced(w, w', n)
    ensures AllClean(w', n)
  {
    forall id: nat
      ensures !Poisoned(w', n, id)
    {
      assert !Poisoned(w, n, id);
    }
  }

  ghost predicate Settled(w: World, n: NodeId)
    requires n in w.nodes
  {
    forall id :: 1 <= id <= |w.nodes[n].client.store.events| ==>
      id in w.nodes[n].client.store.sent && (n, id) in w.ctl.rows
  }

  lemma NothingPending(w: World, n: NodeId)
    requires UsageOk(w) && n in w.nodes && NodeStore.Pending(w.nodes[n].client.store) == []
    ensures Settled(w, n)
  {
    var s := w.nodes[n].client.store;
    NodeStore.PendingExact(s, |s.events|);
    assert NodeOk(w.ctl, n, w.nodes[n]);
    assert forall id: nat :: 1 <= id <= |s.events| && id !in s.sent ==> id in NodeStore.Pending(s);
  }

  /** If no recorded event is poisoned, one round per thousand pending events gets every
      event of the journal counted and acknowledged. */
  lemma {:induction false} Drains(w: World, n: NodeId, ids: seq<(MsgId, MsgId)>)
    requires UsageOk(w) && AckOk(w) && n in w.nodes && AllClean(w, n) && FreshPairs(w, ids)
    requires |NodeStore.Pending(w.nodes[n].client.store)| <= BATCH_LIMIT * |ids|
    ensures var w' := Rounds(w, n, ids);
            && n in w'.nodes && Settled(w', n)
            && w'.nodes[n].client.store.events == w.nodes[n].client.store.events
    decreases |ids|
  {
    if ids == [] {
      NothingPending(w, n);
    } else {
      var s := w.nodes[n].client.store;
      var script := RoundScript(w, n, ids[0].0, ids[0].1);
      var w1 := Run(w, script);
      RoundSteps(w, n, ids[0].0, ids[0].1);
      RoundClean(w, n, ids[0].0, ids[0].1);
      RunUsageOk(w, script);
      RunAckOk(w, script);
      PendingAfter(s, BATCH_LIMIT, |s.events|);
      CleanStays(w, w1, n);
      PairsStayFresh(w, w1, ids);
      Drains(w1, n, ids[1..]);
    }
  }

  // ---- A poisoned event ---------------------------------------------------

  /** A device the controller has no row for. */
  const STRAY := Device("d", "h", Plus, true, 100, 50, 10, 0, 0, 0, NO_OVERRIDE)

  /** A run after which no round advances: an administrator queues an upsert of a device that
      no user owns, the node applies it and records usage for it. */
  lemma PoisonedExample(run: seq<Action>, batchId: MsgId, ackId: MsgId)
    requires run == [Enroll("n"), Queue("n", "c", CC.UpsertDevice(STRAY)), SendCommand("c"),
                     Receive("n", CC.Command("c", CC.UpsertDevice(STRAY)), CC.Done), Record("n", "d", 3, 2)]
    requires Fresh(Run(START, run), batchId) && Fresh(Run(START, run), ackId) && batchId != ackId
    ensures "n" in Run(START, run).nodes
    ensures var w := Run(START, run);
            Head(w, "n") == [1] && !HeadClean(w, "n")
            && !Advanced(w, Run(w, RoundScript(w, "n", batchId, ackId)), "n")
  {
    var w := Run(START, run);
    StrayRecorded(run);
    assert NodeStore.PendingUpTo(w.nodes["n"].client.store, 0) == [];
    assert Head(w, "n") == [1];
    assert Poisoned(w, "n", 1);
    RunAckOk(START, run);
    RoundExact(w, "n", batchId, ackId);
  }

  lemma StrayRecorded(run: seq<Action>)
    requires run == [Enroll("n"), Queue("n", "c", CC.UpsertDevice(STRAY)), SendCommand("c"),
                     Receive("n", CC.Command("c", CC.UpsertDevice(STRAY)), CC.Done), Record("n", "d", 3, 2)]
    ensures var w := Run(START, run);
            && "n" in w.nodes && w.ctl.rows == map[] && w.ctl.owner == map[]
            && w.nodes["n"].client.store.events == [NodeStore.Event("d", 3, 2)]
            && w.nodes["n"].client.store.sent == {}
  {
    var body := CC.UpsertDevice(STRAY);
    var w1 := Step(START, run[0]);
    var w2 := Step(w1, run[1]);
    var w3 := Step(w2, run[2]);
    assert CC.Command("c", body) in w3.nodes["n"].inbox;
    var w4 := Step(w3, run[3]);
    assert w3.nodes["n"].client == EMPTY_CLIENT;
    StrayApplied();
    assert "d" in w4.nodes["n"].client.store.devices;
    var w5 := Step(w4, run[4]);
    assert Run(START, run) == w5 by {
      RunThree(START, run[0], run[1], run[2]);
      assert run == [run[0], run[1], run[2]] + [run[3], run[4]];
      RunSplit(START, [run[0], run[1], run[2]], run[3], run[4]);
    }
  }

  lemma StrayApplied()
    ensures var c := CC.Receive(EMPTY_CLIENT, CC.Command("c", CC.UpsertDevice(STRAY)), CC.Done).0;
            c.store == NodeStore.Store(map["d" := STRAY], [], {})
  {
  }

  lemma {:induction false} RunSplit(w: World, run: seq<Action>, x: Action, y: Action)
    ensures Run(w, run + [x, y]) == Step(Step(Run(w, run), x), y)
    decreases |run|
  {
    if run == [] {
      assert run + [x, y] == [x, y] && [x, y][1..] == [y] && [y][1..] == [];
      assert Run(w, [x, y]) == Run(Step(w, x), [y]);
      assert Run(Step(w, x), [y]) == Run(Step(Step(w, x), y), []);
    } else {
      assert (run + [x, y])[1..] == run[1..] + [x, y];
      RunSplit(Step(w, run[0]), run[1..], x, y);
    }
  }
}
