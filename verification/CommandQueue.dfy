/** The durable command queue of one node: the `node_commands` rows, the delivery
    tick and the replies, with one live connection. Times are database timestamps
    in microseconds. Every SQL statement and every socket write is one step, so replies
    and inserts interleave with the rows of a tick, and a tick can stop between a write
    and its row update. */
module CommandQueue {
  import opened Options

  type Id = string
  type Time = int

  const SECOND: int := 1_000_000
  const DAY: int := 86_400 * SECOND
  const BATCH := 50
  const MAX_WRITES := 344
  const TICK: int := 2 * SECOND

  datatype Status = Pending | Sent | Acked | Nacked | Expired

  datatype Command = Command(created: Time, expires: Time, notBefore: Time, attempts: nat, status: Status)

  /** A delivery tick between its query and its expiry sweep. `rows` are still to be
      updated, `sent` says that the first of them is on the socket already, and `skipped`
      remembers the due commands that did not fit into the batch. */
  datatype Tick = Tick(asked: Time, rows: seq<Id>, sent: bool, skipped: set<Id>)

  /** `fired` is when the ticker last fired for a delivery and `asked` when that was taken up. */
  datatype Queue = Queue(commands: map<Id, Command>, tick: Option<Tick>, fired: Time, asked: Time, clock: Time)

  function Pow2(n: nat): (r: nat)
    ensures r >= 1
  {
    if n == 0 then 1 else 2 * Pow2(n - 1)
  }

  /** The pause a write with this many earlier attempts imposes. */
  function Gap(attempts: nat): (r: Time)
    ensures TICK <= r <= 300 * SECOND
  {
    var pause := 2 * SECOND * Pow2(if attempts < 7 then attempts else 7);
    if pause < 300 * SECOND then pause else 300 * SECOND
  }

  predicate Open(c: Command)
  {
    c.status == Pending || c.status == Sent
  }

  predicate Due(c: Command, now: Time)
  {
    Open(c) && c.notBefore <= now && c.expires > now
  }

  /** A possible answer of the delivery query: oldest due commands first, at most fifty. */
  ghost predicate Selection(commands: map<Id, Command>, now: Time, batch: seq<Id>)
  {
    && |batch| <= BATCH
    && (forall i, j :: 0 <= i < j < |batch| ==> batch[i] != batch[j])
    && (forall i :: 0 <= i < |batch| ==> batch[i] in commands && Due(commands[batch[i]], now))
    && (forall i, j :: 0 <= i < j < |batch| ==> commands[batch[i]].created <= commands[batch[j]].created)
    && (forall id :: id in commands && Due(commands[id], now) && id !in batch ==>
          |batch| == BATCH && forall i :: 0 <= i < |batch| ==> commands[batch[i]].created <= commands[id].created)
  }

  datatype Action =
    | Insert(id: Id, t: Time)
    | Reply(id: Id, ok: bool, t: Time)
    | Query(batch: seq<Id>, fired: Time, t: Time)
    | Write(t: Time)
    | Update(t: Time)
    | Miss(t: Time)
    | Sweep(swept: bool, t: Time)
    | Break

  function Written(c: Command, t: Time): Command
  {
    c.(status := Sent, attempts := c.attempts + 1, notBefore := t + Gap(c.attempts))
  }

  function Swept(commands: map<Id, Command>, t: Time): map<Id, Command>
  {
    map id | id in commands ::
      if Open(commands[id]) && commands[id].expires <= t then commands[id].(status := Expired) else commands[id]
  }

  /** The first row of the tick was written to the socket and not updated yet. */
  predicate OnSocket(q: Queue)
  {
    q.tick.Some? && q.tick.value.sent && q.tick.value.rows != []
  }

  function NextRow(tick: Tick): Tick
    requires tick.rows != []
  {
    tick.(rows := tick.rows[1..], sent := false)
  }

  /** The ticker of a connection fires every two seconds and keeps at most one firing that was
      not taken up yet; a new connection has a new ticker. So firings are two seconds apart, and
      one that is taken up fired no earlier than the last one was. */
  predicate Fires(q: Queue, fired: Time, t: Time)
  {
    q.fired + TICK <= fired <= t && q.asked <= fired
  }

  /** `Miss` is a row update that fails, which the loop ignores; a failed sweep is ignored
      likewise. `Break` is a failed socket write or the end of the process, at any point. */
  ghost function Step(q: Queue, a: Action): Queue
  {
    if !a.Break? && a.t < q.clock then q else
    match a
    case Insert(id, t) =>
      if id in q.commands then q
      else q.(commands := q.commands[id := Command(t, t + DAY, t, 0, Pending)], clock := t)
    case Reply(id, ok, t) =>
      if id !in q.commands then q
      else q.(commands := q.commands[id := q.commands[id].(status := if ok then Acked else Nacked)], clock := t)
    case Query(batch, fired, t) =>
      if q.tick.Some? || !Fires(q, fired, t) || !Selection(q.commands, t, batch) then q
      else Queue(q.commands,
                 Some(Tick(t, batch, false, set id | id in q.commands && Due(q.commands[id], t) && id !in batch)),
                 fired, t, t)
    case Write(t) =>
      if q.tick.Some? && q.tick.value.rows != [] && !q.tick.value.sent
      then q.(tick := Some(q.tick.value.(sent := true)), clock := t)
      else q
    case Update(t) =>
      if OnSocket(q) && q.tick.value.rows[0] in q.commands then
        var id := q.tick.value.rows[0];
        q.(commands := q.commands[id := Written(q.commands[id], t)], tick := Some(NextRow(q.tick.value)), clock := t)
      else q
    case Miss(t) => if OnSocket(q) then q.(tick := Some(NextRow(q.tick.value)), clock := t) else q
    case Sweep(swept, t) =>
      if q.tick.Some? && q.tick.value.rows == []
      then q.(commands := if swept then Swept(q.commands, t) else q.commands, tick := None, clock := t)
      else q
    case Break => q.(tick := None)
  }

  ghost function Run(q: Queue, run: seq<Action>): Queue
    decreases |run|
  {
    if run == [] then q else Run(Step(q, run[0]), run[1..])
  }

  function Start(clock: Time): Queue
  {
    Queue(map[], None, clock, clock, clock)
  }

  // ---- The delivery loop --------------------------------------------------

  /** A row that was reached: when, and whether its update went through. */
  datatype Reached = Reached(t: Time, updated: bool)

  function RowSteps(r: Reached): seq<Action>
  {
    [Write(r.t), if r.updated then Update(r.t) else Miss(r.t)]
  }

  function Writes(rows: seq<Reached>): seq<Action>
  {
    if rows == [] then [] else RowSteps(rows[0]) + Writes(rows[1..])
  }

  /** How a tick ends: the sweep, or a break, possibly with one more row on the socket. */
  datatype End = Finished(swept: bool) | Broken(written: bool)

  function EndSteps(e: End, t: Time): seq<Action>
  {
    match e
    case Finished(swept) => [Sweep(swept, t)]
    case Broken(written) => if written then [Write(t), Break] else [Break]
  }

  function TickScript(batch: seq<Id>, fired: Time, now: Time, rows: seq<Reached>, e: End, t: Time): seq<Action>
  {
    [Query(batch, fired, now)] + (Writes(rows) + EndSteps(e, t))
  }

  ghost predicate Stamped(now: Time, rows: seq<Reached>, end: Time)
  {
    && (forall i :: 0 <= i < |rows| ==> now <= rows[i].t <= end)
    && (forall i, j :: 0 <= i < j < |rows| ==> rows[i].t <= rows[j].t)
    && now <= end
  }

  /** The rows after the first |rows| commands of the batch were reached. */
  function RowsWritten(commands: map<Id, Command>, batch: seq<Id>, rows: seq<Reached>): map<Id, Command>
    requires |rows| <= |batch|
    decreases |rows|
  {
    if rows == [] || batch[0] !in commands then commands
    else RowsWritten(AfterRow(commands, batch[0], rows[0]), batch[1..], rows[1..])
  }

  function AfterRow(commands: map<Id, Command>, id: Id, r: Reached): map<Id, Command>
    requires id in commands
  {
    if r.updated then commands[id := Written(commands[id], r.t)] else commands
  }

  lemma {:induction false} RunAppend(q: Queue, a: seq<Action>, b: seq<Action>)
    ensures Run(q, a + b) == Run(Run(q, a), b)
    decreases |a|
  {
    if a == [] {
      assert a + b == b;
    } else {
      assert (a + b)[1..] == a[1..] + b;
      RunAppend(Step(q, a[0]), a[1..], b);
    }
  }

  lemma RunTwo(q: Queue, a: Action, b: Action)
    ensures Run(q, [a, b]) == Step(Step(q, a), b)
  {
    assert [a, b][1..] == [b] && [b][1..] == [];
    assert Run(q, [a, b]) == Run(Step(q, a), [b]);
  }

  lemma RunOne(q: Queue, a: Action)
    ensures Run(q, [a]) == Step(q, a)
  {
    assert [a][1..] == [];
  }

  lemma RowRun(q: Queue, r: Reached)
    requires q.tick.Some? && q.tick.value.rows != [] && !q.tick.value.sent
    requires q.tick.value.rows[0] in q.commands && q.clock <= r.t
    ensures Run(q, RowSteps(r))
            == q.(commands := AfterRow(q.commands, q.tick.value.rows[0], r), tick := Some(NextRow(q.tick.value)), clock := r.t)
  {
    RunTwo(q, Write(r.t), if r.updated then Update(r.t) else Miss(r.t));
  }

  function LastAt(now: Time, rows: seq<Reached>): Time
  {
    if rows == [] then now else rows[|rows| - 1].t
  }

  lemma {:induction false} WritesRun(q: Queue, rows: seq<Reached>, end: Time)
    requires q.tick.Some? && |rows| <= |q.tick.value.rows| && !q.tick.value.sent
    requires forall i :: 0 <= i < |q.tick.value.rows| ==> q.tick.value.rows[i] in q.commands
    requires Stamped(q.clock, rows, end)
    ensures var r := Run(q, Writes(rows));
            && r.commands == RowsWritten(q.commands, q.tick.value.rows, rows)
            && r.tick == Some(q.tick.value.(rows := q.tick.value.rows[|rows|..]))
            && r.clock == LastAt(q.clock, rows) <= end && r.fired == q.fired && r.asked == q.asked
    decreases |rows|
  {
    if rows != [] {
      RunAppend(q, RowSteps(rows[0]), Writes(rows[1..]));
      RowRun(q, rows[0]);
      WritesRun(Run(q, RowSteps(rows[0])), rows[1..], end);
    }
  }

  ghost predicate Ends(batch: seq<Id>, rows: seq<Reached>, e: End)
  {
    |rows| <= |batch| && (e.Finished? <==> |rows| == |batch|)
  }

  lemma EndRun(q: Queue, e: End, t: Time)
    requires q.tick.Some? && q.clock <= t && !q.tick.value.sent
    requires e.Finished? <==> q.tick.value.rows == []
    ensures var r := Run(q, EndSteps(e, t));
            && r.tick == None && r.fired == q.fired && r.asked == q.asked
            && r.clock == (if e == Broken(false) then q.clock else t)
            && r.commands == if e.Finished? && e.swept then Swept(q.commands, t) else q.commands
  {
    match e
    case Finished(swept) => RunOne(q, Sweep(swept, t));
    case Broken(written) =>
      RunOne(q, Break);
      RunTwo(q, Write(t), Break);
  }

  /** The queue after a whole tick. */
  function AfterTick(q: Queue, batch: seq<Id>, fired: Time, now: Time, rows: seq<Reached>, e: End, t: Time): Queue
    requires |rows| <= |batch|
  {
    var written := RowsWritten(q.commands, batch, rows);
    Queue(if e.Finished? && e.swept then Swept(written, t) else written, None, fired, now,
          if e == Broken(false) then LastAt(now, rows) else t)
  }

  /** A tick has the effect of its statements one by one, wherever it ends. */
  lemma ScriptRun(q: Queue, batch: seq<Id>, fired: Time, now: Time, rows: seq<Reached>, e: End, t: Time)
    requires q.tick == None && q.clock <= now && Fires(q, fired, now) && Selection(q.commands, now, batch)
    requires Ends(batch, rows, e) && Stamped(now, rows, t)
    ensures Run(q, TickScript(batch, fired, now, rows, e, t)) == AfterTick(q, batch, fired, now, rows, e, t)
  {
    var script := TickScript(batch, fired, now, rows, e, t);
    var p := Step(q, script[0]);
    assert script[1..] == Writes(rows) + EndSteps(e, t);
    RunAppend(p, Writes(rows), EndSteps(e, t));
    WritesRun(p, rows, t);
    EndRun(Run(p, Writes(rows)), e, t);
  }

  class DeliveryQueue {
    var commands: map<Id, Command>
    ghost var fired: Time
    ghost var asked: Time
    ghost var clock: Time

    /** The queue between two ticks. */
    ghost function Value(): Queue
      reads this
    {
      Queue(commands, None, fired, asked, clock)
    }

    constructor (ghost now: Time)
      ensures Value() == Start(now)
    {
      commands, fired, asked, clock := map[], now, now, now;
    }

    /** One tick. The database answers the query with `batch`; `rows` are the rows reached
        before the tick ended as `e` says. */
    method Deliver(batch: seq<Id>, ghost when: Time, now: Time, rows: seq<Reached>, e: End, t: Time)
      requires clock <= now && Fires(Value(), when, now) && Selection(commands, now, batch)
      requires Ends(batch, rows, e) && Stamped(now, rows, t)
      modifies this
      ensures Value() == Run(old(Value()), TickScript(batch, when, now, rows, e, t))
    {
      ScriptRun(Value(), batch, when, now, rows, e, t);
      WriteRows(batch, rows);
      if e.Finished? && e.swept {
        SweepExpired(t);
      }
      fired, asked, clock := when, now, if e == Broken(false) then LastAt(now, rows) else t;
      assert Value() == AfterTick(old(Value()), batch, when, now, rows, e, t);
    }

    method SweepExpired(t: Time)
      modifies this`commands
      ensures commands == Swept(old(commands), t)
    {
      commands := map id | id in commands ::
        if (commands[id].status == Pending || commands[id].status == Sent) && commands[id].expires <= t
        then commands[id].(status := Expired) else commands[id];
    }

    method WriteRows(batch: seq<Id>, rows: seq<Reached>)
      requires |rows| <= |batch|
      requires forall i :: 0 <= i < |batch| ==> batch[i] in commands
      modifies this`commands
      ensures commands == RowsWritten(old(commands), batch, rows)
    {
      var i := 0;
      while i < |rows|
        invariant 0 <= i <= |rows|
        invariant forall k :: 0 <= k < |batch| ==> batch[k] in commands
        invariant RowsWritten(commands, batch[i..], rows[i..]) == RowsWritten(old(commands), batch, rows)
      {
        assert batch[i..][1..] == batch[i + 1..] && rows[i..][1..] == rows[i + 1..];
        if rows[i].updated {
          var c := commands[batch[i]];
          var pause := 2 * SECOND * Pow2(if c.attempts < 7 then c.attempts else 7);
          if pause > 300 * SECOND {
            pause := 300 * SECOND;
          }
          commands := commands[batch[i] := Command(c.created, c.expires, rows[i].t + pause, c.attempts + 1, Sent)];
        }
        i := i + 1;
      }
    }
  }

  // ---- Backoff ------------------------------------------------------------

  /** The least age at which a command with this many attempts may be written again. */
  function GapSum(attempts: nat): Time
  {
    if attempts == 0 then 0 else GapSum(attempts - 1) + Gap(attempts - 1)
  }

  lemma {:induction false} GapSumClosed(n: nat)
    ensures GapSum(7 + n) == (254 + 256 * n) * SECOND
  {
    if n == 0 {
      assert Pow2(0) == 1 && Pow2(1) == 2 && Pow2(2) == 4 && Pow2(3) == 8;
      assert Pow2(4) == 16 && Pow2(5) == 32 && Pow2(6) == 64 && Pow2(7) == 128;
      assert GapSum(0) == 0 && GapSum(1) == 2 * SECOND && GapSum(2) == 6 * SECOND && GapSum(3) == 14 * SECOND;
      assert GapSum(4) == 30 * SECOND && GapSum(5) == 62 * SECOND && GapSum(6) == 126 * SECOND;
    } else {
      GapSumClosed(n - 1);
      assert Pow2(4) == 16 && Pow2(5) == 32 && Pow2(6) == 64 && Pow2(7) == 128;
      assert Gap(7 + n - 1) == 256 * SECOND;
    }
  }

  lemma {:induction false} GapSumMonotone(a: nat, b: nat)
    requires a <= b
    ensures GapSum(a) <= GapSum(b)
    decreases b - a
  {
    if a < b {
      GapSumMonotone(a, b - 1);
    }
  }

  /** What every statement keeps about one command. */
  predicate Paced(c: Command)
  {
    && c.expires == c.created + DAY
    && c.created + GapSum(c.attempts) <= c.notBefore
    && (c.attempts > 0 ==> c.created + GapSum(c.attempts - 1) < c.expires)
  }

  ghost predicate Inv(q: Queue)
  {
    && (forall id :: id in q.commands ==> Paced(q.commands[id]))
    && (q.tick.Some? ==> Ready(q.commands, q.tick.value, q.clock))
  }

  /** The rows of a tick are still to be written at the pace they were selected with. */
  ghost predicate Ready(commands: map<Id, Command>, tick: Tick, clock: Time)
  {
    && tick.asked <= clock
    && (forall i, j :: 0 <= i < j < |tick.rows| ==> tick.rows[i] != tick.rows[j])
    && (forall i :: 0 <= i < |tick.rows| ==>
          tick.rows[i] in commands
          && commands[tick.rows[i]].notBefore <= tick.asked < commands[tick.rows[i]].expires)
  }

  lemma UpdateInv(q: Queue, t: Time)
    requires Inv(q) && OnSocket(q) && t >= q.clock
    ensures Inv(Step(q, Update(t)))
  {
    var tick := q.tick.value;
    var c := q.commands[tick.rows[0]];
    assert Paced(Written(c, t));
    assert Ready(Step(q, Update(t)).commands, NextRow(tick), t);
  }

  lemma InsertInv(q: Queue, id: Id, t: Time)
    requires Inv(q)
    ensures Inv(Step(q, Insert(id, t)))
  {
    var r := Step(q, Insert(id, t));
    if r != q {
      assert Paced(r.commands[id]);
    }
  }

  lemma ReplyInv(q: Queue, id: Id, ok: bool, t: Time)
    requires Inv(q)
    ensures Inv(Step(q, Reply(id, ok, t)))
  {
    assert id in q.commands ==> Paced(q.commands[id]);
  }

  lemma QueryInv(q: Queue, batch: seq<Id>, fired: Time, t: Time)
    requires Inv(q)
    ensures Inv(Step(q, Query(batch, fired, t)))
  {
  }

  lemma SweepInv(q: Queue, swept: bool, t: Time)
    requires Inv(q)
    ensures Inv(Step(q, Sweep(swept, t)))
  {
    var r := Step(q, Sweep(swept, t));
    forall id | id in r.commands
      ensures Paced(r.commands[id])
    {
      assert Paced(q.commands[id]);
    }
  }

  lemma TickInv(q: Queue, a: Action)
    requires Inv(q) && (a.Write? || a.Miss? || a.Break?)
    ensures Inv(Step(q, a))
  {
    var r := Step(q, a);
    assert r.commands == q.commands;
    if r.tick.Some? && r != q {
      assert Ready(q.commands, q.tick.value, q.clock);
      assert Ready(r.commands, r.tick.value, r.clock);
    }
  }

  lemma StepInv(q: Queue, a: Action)
    requires Inv(q)
    ensures Inv(Step(q, a))
  {
    match a
    case Insert(id, t) => InsertInv(q, id, t);
    case Reply(id, ok, t) => ReplyInv(q, id, ok, t);
    case Query(batch, fired, t) => QueryInv(q, batch, fired, t);
    case Update(t) => if OnSocket(q) && t >= q.clock { UpdateInv(q, t); }
    case Sweep(swept, t) => SweepInv(q, swept, t);
    case _ => TickInv(q, a);
  }

  lemma {:induction false} RunInv(q: Queue, run: seq<Action>)
    requires Inv(q)
    ensures Inv(Run(q, run))
    decreases |run|
  {
    if run != [] {
      StepInv(q, run[0]);
      RunInv(Step(q, run[0]), run[1..]);
    }
  }

  lemma PacedBound(c: Command)
    requires Paced(c)
    ensures c.attempts <= MAX_WRITES
  {
    if c.attempts > MAX_WRITES {
      GapSumClosed(337);
      GapSumMonotone(344, c.attempts - 1);
    }
  }

  /** The step puts command id on the socket. */
  predicate Puts(q: Queue, a: Action, id: Id)
  {
    a.Write? && a.t >= q.clock && q.tick.Some? && !q.tick.value.sent && q.tick.value.rows != []
      && q.tick.value.rows[0] == id
  }

  /** The step leaves command id on the socket without an update of its row. */
  predicate Loses(q: Queue, a: Action, id: Id)
  {
    InFlight(q, id) == 1 && ((a.Miss? && a.t >= q.clock) || a.Break?)
  }

  function InFlight(q: Queue, id: Id): nat
  {
    if OnSocket(q) && q.tick.value.rows[0] == id then 1 else 0
  }

  ghost function WriteCount(q: Queue, run: seq<Action>, id: Id): nat
    decreases |run|
  {
    if run == [] then 0
    else (if Puts(q, run[0], id) then 1 else 0) + WriteCount(Step(q, run[0]), run[1..], id)
  }

  ghost function LossCount(q: Queue, run: seq<Action>, id: Id): nat
    decreases |run|
  {
    if run == [] then 0
    else (if Loses(q, run[0], id) then 1 else 0) + LossCount(Step(q, run[0]), run[1..], id)
  }

  lemma StepCounts(q: Queue, a: Action, id: Id)
    requires Inv(q)
    ensures Attempts(Step(q, a), id) + InFlight(Step(q, a), id) + (if Loses(q, a, id) then 1 else 0)
            == Attempts(q, id) + InFlight(q, id) + if Puts(q, a, id) then 1 else 0
  {
  }

  /** Every socket write is followed by its update, lost, or still waiting for it. */
  lemma {:induction false} WritesAreAttempts(q: Queue, run: seq<Action>, id: Id)
    requires Inv(q)
    ensures var r := Run(q, run);
            Attempts(r, id) + InFlight(r, id) + LossCount(q, run, id)
            == Attempts(q, id) + InFlight(q, id) + WriteCount(q, run, id)
    decreases |run|
  {
    if run != [] {
      StepInv(q, run[0]);
      StepCounts(q, run[0], id);
      WritesAreAttempts(Step(q, run[0]), run[1..], id);
    }
  }

  /** A command on the socket has at most 343 updates behind it. */
  lemma InFlightBound(q: Queue, id: Id)
    requires Inv(q)
    ensures Attempts(q, id) + InFlight(q, id) <= MAX_WRITES
  {
    if id in q.commands {
      var c := q.commands[id];
      PacedBound(c);
      if InFlight(q, id) == 1 {
        assert c.notBefore <= q.tick.value.asked < c.expires;
        WriteBoundExact(c.attempts);
      }
    }
  }

  // ---- Ticks --------------------------------------------------------------

  /** The step starts a tick with command id in its batch. */
  ghost predicate Picks(q: Queue, a: Action, id: Id)
  {
    a.Query? && a.t >= q.clock && q.tick.None? && Fires(q, a.fired, a.t) && Selection(q.commands, a.t, a.batch)
      && id in a.batch
  }

  ghost function PickCount(q: Queue, run: seq<Action>, id: Id): nat
    decreases |run|
  {
    if run == [] then 0
    else (if Picks(q, run[0], id) then 1 else 0) + PickCount(Step(q, run[0]), run[1..], id)
  }

  /** The tick in progress will still put command id on the socket. */
  function Awaits(q: Queue, id: Id): nat
  {
    if q.tick.Some? && id in (if OnSocket(q) then q.tick.value.rows[1..] else q.tick.value.rows) then 1 else 0
  }

  lemma StepPicks(q: Queue, a: Action, id: Id)
    requires Inv(q)
    ensures Awaits(Step(q, a), id) + (if Puts(q, a, id) then 1 else 0)
            <= Awaits(q, id) + if Picks(q, a, id) then 1 else 0
  {
    if q.tick.Some? && q.tick.value.rows != [] {
      var rows := q.tick.value.rows;
      assert rows == [rows[0]] + rows[1..];
      assert rows[0] !in rows[1..];
    }
  }

  lemma {:induction false} OncePerTick(q: Queue, run: seq<Action>, id: Id)
    requires Inv(q)
    ensures WriteCount(q, run, id) <= Awaits(q, id) + PickCount(q, run, id)
    decreases |run|
  {
    if run != [] {
      StepInv(q, run[0]);
      StepPicks(q, run[0], id);
      OncePerTick(Step(q, run[0]), run[1..], id);
    }
  }

  /** After n ticks with command id: the firings since the first of them are two seconds apart,
      and the last was before the command expired. */
  ghost predicate Spread(q: Queue, id: Id, n: nat)
  {
    n > 0 ==>
      && id in q.commands && q.commands[id].created <= q.asked
      && (n > 1 ==> q.commands[id].created + TICK * (n - 2) <= q.fired)
      && TICK * (n - 2) < DAY
  }

  lemma StepSpread(q: Queue, a: Action, id: Id, n: nat)
    requires Inv(q) && Spread(q, id, n)
    ensures Spread(Step(q, a), id, n + if Picks(q, a, id) then 1 else 0)
  {
    if Picks(q, a, id) {
      var c := q.commands[id];
      assert Due(c, a.t) && Paced(c);
      GapSumMonotone(0, c.attempts);
      assert n > 1 ==> c.created + TICK * (n - 2) + TICK <= a.fired;
    }
  }

  lemma {:induction false} TicksSpread(q: Queue, run: seq<Action>, id: Id, n: nat)
    requires Inv(q) && Spread(q, id, n)
    ensures Spread(Run(q, run), id, n + PickCount(q, run, id))
    decreases |run|
  {
    if run != [] {
      StepInv(q, run[0]);
      StepSpread(q, run[0], id, n);
      TicksSpread(Step(q, run[0]), run[1..], id, n + if Picks(q, run[0], id) then 1 else 0);
    }
  }

  /** In every run a command is put on the socket at most 344 times, and once more for each
      write whose row update did not happen; and never more often than ticks fit into its
      24 hours. */
  lemma WritesBounded(clock: Time, run: seq<Action>, id: Id)
    ensures WriteCount(Start(clock), run, id) <= MAX_WRITES + LossCount(Start(clock), run, id)
    ensures WriteCount(Start(clock), run, id) <= 43_201
    ensures Attempts(Run(Start(clock), run), id) <= MAX_WRITES
  {
    RunInv(Start(clock), run);
    WritesAreAttempts(Start(clock), run, id);
    InFlightBound(Run(Start(clock), run), id);
    OncePerTick(Start(clock), run, id);
    TicksSpread(Start(clock), run, id, 0);
  }

  /** The bound is where the backoff schedule puts it: a 344th write still fits into
      the 24 hours of a command, a 345th does not. */
  lemma WriteBoundExact(n: nat)
    ensures GapSum(n) < DAY <==> n + 1 <= MAX_WRITES
  {
    GapSumClosed(336);
    GapSumClosed(337);
    if n <= 343 {
      GapSumMonotone(n, 343);
    } else {
      GapSumMonotone(344, n);
    }
  }

  // Runs that reach the bound: one command, written at every tick while its row updates fail,
  // and then again as soon as it is due.

  const ONLY := "c"

  function Cycle(t: Time, updated: bool): seq<Action>
  {
    [Query([ONLY], t, t)] + (RowSteps(Reached(t, updated)) + [Sweep(true, t)])
  }

  /** When the n-th update goes through, after the losses. */
  function Slot(losses: nat, n: nat): Time
  {
    TICK * (losses + 1) + GapSum(n)
  }

  function Cycles(losses: nat, n: nat): seq<Action>
  {
    if n > 0 then Cycles(losses, n - 1) + Cycle(Slot(losses, n - 1), true)
    else if losses > 0 then Cycles(losses - 1, 0) + Cycle(TICK * losses, false)
    else [Insert(ONLY, 0)]
  }

  /** The losses and the updates all come before the command expires. */
  predicate Fits(losses: nat, n: nat)
  {
    TICK * losses < DAY && (n > 0 ==> Slot(losses, n - 1) < DAY)
  }

  function AfterCycles(losses: nat, n: nat): Command
  {
    Command(0, DAY, if n == 0 then 0 else Slot(losses, n), n, if n == 0 then Pending else Sent)
  }

  ghost predicate Cycled(q: Queue, losses: nat, n: nat)
  {
    && q.commands == map[ONLY := AfterCycles(losses, n)] && q.tick == None
    && q.fired == q.asked && q.clock <= q.fired + TICK <= Slot(losses, n)
    && (n == 0 ==> q.fired == TICK * losses)
  }

  lemma CycleSteps(q: Queue, t: Time, updated: bool)
    ensures Run(q, Cycle(t, updated))
            == Step(Run(Step(q, Query([ONLY], t, t)), RowSteps(Reached(t, updated))), Sweep(true, t))
  {
    var c, row := Cycle(t, updated), RowSteps(Reached(t, updated));
    var p := Step(q, Query([ONLY], t, t));
    assert c[0] == Query([ONLY], t, t) && c[1..] == row + [Sweep(true, t)];
    RunAppend(p, row, [Sweep(true, t)]);
    RunOne(Run(p, row), Sweep(true, t));
  }

  ghost predicate CanCycle(q: Queue, t: Time)
  {
    && q.commands.Keys == {ONLY} && Due(q.commands[ONLY], t)
    && q.tick == None && q.clock <= t && Fires(q, t, t)
  }

  lemma CycleRun(q: Queue, t: Time, updated: bool)
    requires CanCycle(q, t)
    ensures Run(q, Cycle(t, updated))
            == Queue(map[ONLY := if updated then Written(q.commands[ONLY], t) else q.commands[ONLY]], None, t, t, t)
  {
    assert Selection(q.commands, t, [ONLY]);
    CycleSteps(q, t, updated);
    RowRun(Step(q, Query([ONLY], t, t)), Reached(t, updated));
  }

  lemma {:induction false} LossAppend(q: Queue, a: seq<Action>, b: seq<Action>, id: Id)
    ensures LossCount(q, a + b, id) == LossCount(q, a, id) + LossCount(Run(q, a), b, id)
    decreases |a|
  {
    if a == [] {
      assert a + b == b;
    } else {
      assert (a + b)[1..] == a[1..] + b;
      LossAppend(Step(q, a[0]), a[1..], b, id);
    }
  }

  lemma CycleLoss(q: Queue, t: Time, updated: bool)
    requires CanCycle(q, t)
    ensures LossCount(q, Cycle(t, updated), ONLY) == if updated then 0 else 1
  {
    assert Selection(q.commands, t, [ONLY]);
    var p := Step(q, Query([ONLY], t, t));
    var row, last := RowSteps(Reached(t, updated)), [Sweep(true, t)];
    assert Cycle(t, updated)[0] == Query([ONLY], t, t) && Cycle(t, updated)[1..] == row + last;
    LossAppend(p, row, last, ONLY);
    assert last[1..] == [];
    var w := Step(p, row[0]);
    assert row[1..] == [row[1]] && row[1..][1..] == [];
    assert LossCount(p, row, ONLY) == LossCount(w, row[1..], ONLY);
    assert LossCount(w, row[1..], ONLY) == if Loses(w, row[1], ONLY) then 1 else 0;
  }

  lemma CycledOn(q: Queue, losses: nat, n: nat)
    requires Cycled(q, losses, n) && Fits(losses, n + 1)
    ensures CanCycle(q, Slot(losses, n))
    ensures Cycled(Run(q, Cycle(Slot(losses, n), true)), losses, n + 1)
  {
    GapSumMonotone(0, n);
    CycleRun(q, Slot(losses, n), true);
  }

  lemma CycledLossy(q: Queue, losses: nat)
    requires Cycled(q, losses, 0) && Fits(losses + 1, 0)
    ensures CanCycle(q, TICK * (losses + 1))
    ensures Cycled(Run(q, Cycle(TICK * (losses + 1), false)), losses + 1, 0)
  {
    CycleRun(q, TICK * (losses + 1), false);
  }

  lemma FitsBefore(losses: nat, n: nat)
    requires Fits(losses, n)
    ensures n > 0 ==> Fits(losses, n - 1)
    ensures losses > 0 ==> Fits(losses - 1, 0)
  {
    if n > 1 {
      GapSumMonotone(n - 2, n - 1);
    }
  }

  lemma {:induction false} CyclesRun(losses: nat, n: nat)
    requires Fits(losses, n)
    ensures Cycled(Run(Start(0), Cycles(losses, n)), losses, n)
    ensures LossCount(Start(0), Cycles(losses, n), ONLY) == losses
    decreases n, losses
  {
    FitsBefore(losses, n);
    if n > 0 {
      var before, t := Cycles(losses, n - 1), Slot(losses, n - 1);
      CyclesRun(losses, n - 1);
      CyclesNext(before, t, true);
      CycledOn(Run(Start(0), before), losses, n - 1);
      CycleLoss(Run(Start(0), before), t, true);
    } else if losses > 0 {
      var before, t := Cycles(losses - 1, 0), TICK * losses;
      CyclesRun(losses - 1, 0);
      CyclesNext(before, t, false);
      CycledLossy(Run(Start(0), before), losses - 1);
      CycleLoss(Run(Start(0), before), t, false);
    } else {
      RunOne(Start(0), Insert(ONLY, 0));
      assert [Insert(ONLY, 0)][1..] == [];
    }
  }

  lemma CyclesNext(before: seq<Action>, t: Time, updated: bool)
    ensures Run(Start(0), before + Cycle(t, updated)) == Run(Run(Start(0), before), Cycle(t, updated))
    ensures LossCount(Start(0), before + Cycle(t, updated), ONLY)
            == LossCount(Start(0), before, ONLY) + LossCount(Run(Start(0), before), Cycle(t, updated), ONLY)
  {
    RunAppend(Start(0), before, Cycle(t, updated));
    LossAppend(Start(0), before, Cycle(t, updated), ONLY);
  }

  /** Whatever fits into the 24 hours is reached: a run with so many losses that writes its
      command n times more. */
  lemma WriteBoundReached(losses: nat, n: nat)
    requires Fits(losses, n)
    ensures LossCount(Start(0), Cycles(losses, n), ONLY) == losses
    ensures WriteCount(Start(0), Cycles(losses, n), ONLY) == n + losses
  {
    CyclesRun(losses, n);
    WritesAreAttempts(Start(0), Cycles(losses, n), ONLY);
  }

  /** All 344 updates fit beside up to 63 losses, and 43 199 losses fit alone. */
  lemma FitsExact(losses: nat, n: nat)
    requires n == MAX_WRITES
    ensures Fits(losses, n) <==> losses <= 63
    ensures Fits(losses, 0) <==> losses <= 43_199
  {
    GapSumClosed(n - 8);
  }

  // ---- No starvation ------------------------------------------------------

  /** The sweep that completes a tick which was due for c but left it out. */
  predicate Skips(q: Queue, a: Action, c: Id)
  {
    a.Sweep? && a.t >= q.clock && q.tick.Some? && q.tick.value.rows == [] && c in q.tick.value.skipped
  }

  ghost function SkipCount(q: Queue, run: seq<Action>, c: Id): nat
    decreases |run|
  {
    if run == [] then 0
    else (if Skips(q, run[0], c) then 1 else 0) + SkipCount(Step(q, run[0]), run[1..], c)
  }

  function Attempts(q: Queue, id: Id): nat
  {
    if id in q.commands then q.commands[id].attempts else 0
  }

  ghost function Total(q: Queue, ids: set<Id>): nat
  {
    if ids == {} then 0 else
      var id :| id in ids;
      Attempts(q, id) + Total(q, ids - {id})
  }

  lemma {:induction false} TotalSplit(q: Queue, ids: set<Id>, id: Id)
    requires id in ids
    ensures Total(q, ids) == Attempts(q, id) + Total(q, ids - {id})
  {
    var x :| x in ids && Total(q, ids) == Attempts(q, x) + Total(q, ids - {x});
    if x != id {
      TotalSplit(q, ids - {x}, id);
      TotalSplit(q, ids - {id}, x);
      assert ids - {x} - {id} == ids - {id} - {x};
    }
  }

  lemma {:induction false} TotalSame(q: Queue, r: Queue, ids: set<Id>)
    requires forall id :: id in ids ==> Attempts(q, id) == Attempts(r, id)
    ensures Total(q, ids) == Total(r, ids)
  {
    if ids != {} {
      var id :| id in ids;
      TotalSplit(q, ids, id);
      TotalSplit(r, ids, id);
      TotalSame(q, r, ids - {id});
    }
  }

  lemma {:induction false} TotalAtMost(q: Queue, ids: set<Id>)
    requires forall id :: id in ids ==> Attempts(q, id) <= MAX_WRITES
    ensures Total(q, ids) <= MAX_WRITES * |ids|
  {
    if ids != {} {
      var id :| id in ids;
      TotalSplit(q, ids, id);
      TotalAtMost(q, ids - {id});
    }
  }

  /** Writes already made by a tick in progress that left c out. */
  function Progress(q: Queue, c: Id): int
  {
    if q.tick.Some? && c in q.tick.value.skipped then BATCH - |q.tick.value.rows| else 0
  }

  ghost predicate Older(q: Queue, c: Id, id: Id)
  {
    id != c && c in q.commands && id in q.commands && q.commands[id].created <= q.commands[c].created
  }

  /** A tick that leaves c out is full, and full of older commands. */
  ghost predicate FullOfOlder(q: Queue, c: Id)
  {
    q.tick.Some? && c in q.tick.value.skipped ==>
      && |q.tick.value.rows| <= BATCH
      && (forall i :: 0 <= i < |q.tick.value.rows| ==> Older(q, c, q.tick.value.rows[i]))
  }

  lemma StepFull(q: Queue, a: Action, c: Id)
    requires Inv(q) && FullOfOlder(q, c)
    ensures FullOfOlder(Step(q, a), c)
  {
    var r := Step(q, a);
    if r.tick.Some? && c in r.tick.value.skipped {
      if a.Query? && q.tick.None? {
        assert Selection(q.commands, a.t, a.batch);
        assert c !in a.batch;
      } else {
        assert q.tick.Some? && c in q.tick.value.skipped;
        forall i | 0 <= i < |r.tick.value.rows|
          ensures Older(r, c, r.tick.value.rows[i])
        {
          var rows := q.tick.value.rows;
          var k := |rows| - |r.tick.value.rows|;
          assert r.tick.value.rows == rows[k..];
          assert Older(q, c, rows[i + k]);
        }
      }
    }
  }

  /** The step passes over a written command without counting the attempt. */
  predicate Overlooks(q: Queue, a: Action, ids: set<Id>)
  {
    a.Miss? && a.t >= q.clock && OnSocket(q) && q.tick.value.rows[0] in ids
  }

  ghost function OverlookCount(q: Queue, run: seq<Action>, ids: set<Id>): nat
    decreases |run|
  {
    if run == [] then 0
    else (if Overlooks(q, run[0], ids) then 1 else 0) + OverlookCount(Step(q, run[0]), run[1..], ids)
  }

  lemma UpdateTotal(q: Queue, a: Action, ids: set<Id>)
    requires Inv(q) && a.Update? && a.t >= q.clock && OnSocket(q)
    ensures Total(Step(q, a), ids) == Total(q, ids) + if q.tick.value.rows[0] in ids then 1 else 0
  {
    var r := Step(q, a);
    var id := q.tick.value.rows[0];
    TotalSame(q, r, ids - {id});
    if id in ids {
      TotalSplit(q, ids, id);
      TotalSplit(r, ids, id);
    } else {
      assert ids - {id} == ids;
    }
  }

  lemma StepTotal(q: Queue, a: Action, c: Id, ids: set<Id>)
    requires Inv(q) && FullOfOlder(q, c)
    requires forall id :: Older(q, c, id) ==> id in ids
    ensures var r := Step(q, a);
            Total(q, ids) + (if Skips(q, a, c) then BATCH else 0) + Progress(r, c)
            <= Total(r, ids) + Progress(q, c) + if Overlooks(q, a, ids) then 1 else 0
  {
    var r := Step(q, a);
    assert OnSocket(q) && c in q.tick.value.skipped ==> Older(q, c, q.tick.value.rows[0]);
    if a.Update? && a.t >= q.clock && OnSocket(q) {
      UpdateTotal(q, a, ids);
    } else {
      TotalSame(q, r, ids);
    }
  }

  /** Older commands of a state stay older commands: rows are never deleted or re-dated. */
  lemma {:induction false} OlderStays(q: Queue, run: seq<Action>, c: Id, id: Id)
    requires Older(q, c, id)
    ensures Older(Run(q, run), c, id)
    decreases |run|
  {
    if run != [] {
      OlderStays(Step(q, run[0]), run[1..], c, id);
    }
  }

  lemma {:induction false} SkipsPaid(q: Queue, run: seq<Action>, c: Id, ids: set<Id>)
    requires Inv(q) && FullOfOlder(q, c)
    requires forall id :: Older(Run(q, run), c, id) ==> id in ids
    ensures Total(q, ids) + BATCH * SkipCount(q, run, c) + Progress(Run(q, run), c)
            <= Total(Run(q, run), ids) + Progress(q, c) + OverlookCount(q, run, ids)
    decreases |run|
  {
    if run != [] {
      forall id | Older(q, c, id)
        ensures id in ids
      {
        OlderStays(q, run, c, id);
      }
      StepInv(q, run[0]);
      StepFull(q, run[0], c);
      StepTotal(q, run[0], c, ids);
      SkipsPaid(Step(q, run[0]), run[1..], c, ids);
    }
  }

  /** No starvation: over a whole run, the completed ticks that were due for c and
      left it out number at most (344*m + x)/50, where m counts the other commands created no
      later and x their row updates that failed. */
  lemma NoStarvation(clock: Time, run: seq<Action>, c: Id, older: set<Id>)
    requires forall id :: id in older <==> Older(Run(Start(clock), run), c, id)
    ensures SkipCount(Start(clock), run, c)
            <= (MAX_WRITES * |older| + OverlookCount(Start(clock), run, older)) / BATCH
  {
    var q := Start(clock);
    var r := Run(q, run);
    RunInv(q, run);
    SkipsPaid(q, run, c, older);
    FullRun(q, run, c);
    forall id | id in older
      ensures Attempts(r, id) <= MAX_WRITES
    {
      WritesBounded(clock, run, id);
    }
    TotalAtMost(r, older);
    assert Progress(r, c) >= 0;
    assert BATCH * SkipCount(q, run, c) <= MAX_WRITES * |older| + OverlookCount(q, run, older);
  }

  lemma {:induction false} FullRun(q: Queue, run: seq<Action>, c: Id)
    requires Inv(q) && FullOfOlder(q, c)
    ensures FullOfOlder(Run(q, run), c)
    decreases |run|
  {
    if run != [] {
      StepInv(q, run[0]);
      StepFull(q, run[0], c);
      FullRun(Step(q, run[0]), run[1..], c);
    }
  }
}
