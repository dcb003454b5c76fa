/** What the statements of a delivery tick do, written out on the rows of the queue. */
module DeliveryTerms {
  import opened CommandQueue
  import opened Options

  predicate Waits(c: Command, t: Time)
  {
    (c.status == Pending || c.status == Sent) && c.notBefore <= t < c.expires
  }

  /** A tick starts when the ticker has fired, two seconds after the last firing and not before
      that was taken up. It takes commands that wait for an ack, are due and not past their
      24 hours, oldest first; at most fifty, and if it leaves one out, fifty that are no younger. */
  lemma PickedExact(q: Queue, batch: seq<Id>, fired: Time, t: Time)
    requires q.tick.None?
    ensures Step(q, Query(batch, fired, t)).tick.Some? <==>
            && q.clock <= t && q.fired + 2_000_000 <= fired <= t && q.asked <= fired
            && |batch| <= 50
            && (forall i, j :: 0 <= i < j < |batch| ==> batch[i] != batch[j])
            && (forall i :: 0 <= i < |batch| ==> batch[i] in q.commands && Waits(q.commands[batch[i]], t))
            && (forall i, j :: 0 <= i < j < |batch| ==>
                  q.commands[batch[i]].created <= q.commands[batch[j]].created)
            && (forall id :: id in q.commands && id !in batch && Waits(q.commands[id], t) ==>
                  |batch| == 50 && forall i :: 0 <= i < 50 ==> q.commands[batch[i]].created <= q.commands[id].created)
    ensures Step(q, Query(batch, fired, t)).tick.Some? ==>
              var r := Step(q, Query(batch, fired, t));
              && r.commands == q.commands && r.fired == fired && r.asked == r.clock == t
              && r.tick.value.rows == batch && !r.tick.value.sent
  {
  }

  /** The rows of a tick go one by one: on the socket, then updated or not. */
  lemma RowExact(q: Queue, t: Time)
    requires q.tick.Some? && q.tick.value.rows != [] && q.clock <= t
    ensures var tick := q.tick.value;
            && (!tick.sent ==> Step(q, Write(t)) == q.(tick := Some(tick.(sent := true)), clock := t))
            && (tick.sent ==> Step(q, Miss(t)) == q.(tick := Some(tick.(rows := tick.rows[1..], sent := false)), clock := t))
            && (tick.sent && tick.rows[0] in q.commands ==>
                  Step(q, Update(t)) == q.(commands := q.commands[tick.rows[0] := Written(q.commands[tick.rows[0]], t)],
                                           tick := Some(tick.(rows := tick.rows[1..], sent := false)), clock := t))
  {
  }

  /** The oldest of some commands. */
  lemma {:induction false} Oldest(commands: map<Id, Command>, ids: set<Id>) returns (id: Id)
    requires ids != {} && ids <= commands.Keys
    ensures id in ids && forall x :: x in ids ==> commands[id].created <= commands[x].created
    decreases |ids|
  {
    id :| id in ids;
    var rest := ids - {id};
    if rest != {} {
      var other := Oldest(commands, rest);
      if commands[other].created < commands[id].created {
        id := other;
      }
    }
  }

  /** The k oldest of some commands, or all of them. */
  ghost predicate Front(commands: map<Id, Command>, ids: set<Id>, k: nat, batch: seq<Id>)
  {
    && |batch| <= k && ids <= commands.Keys
    && (forall i, j :: 0 <= i < j < |batch| ==> batch[i] != batch[j])
    && (forall i :: 0 <= i < |batch| ==> batch[i] in ids)
    && (forall i, j :: 0 <= i < j < |batch| ==> commands[batch[i]].created <= commands[batch[j]].created)
    && (forall id :: id in ids && id !in batch ==>
          |batch| == k && forall i :: 0 <= i < |batch| ==> commands[batch[i]].created <= commands[id].created)
  }

  lemma {:induction false} FrontExists(commands: map<Id, Command>, ids: set<Id>, k: nat) returns (batch: seq<Id>)
    requires ids <= commands.Keys
    ensures Front(commands, ids, k, batch)
    decreases k
  {
    if k == 0 || ids == {} {
      batch := [];
    } else {
      var id := Oldest(commands, ids);
      var rest := FrontExists(commands, ids - {id}, k - 1);
      batch := [id] + rest;
      assert forall i :: 0 < i < |batch| ==> batch[i] == rest[i - 1];
      forall x | x in ids && x !in batch
        ensures |batch| == k && forall i :: 0 <= i < |batch| ==> commands[batch[i]].created <= commands[x].created
      {
        assert x in ids - {id} && x !in rest;
      }
    }
  }

  /** Whatever the table holds, the query has an answer. */
  lemma TickPossible(commands: map<Id, Command>, t: Time) returns (batch: seq<Id>)
    ensures Selection(commands, t, batch)
  {
    var due := set id | id in commands && Due(commands[id], t);
    batch := FrontExists(commands, due, BATCH);
  }

  /** A row update marks the command sent, counts the attempt and puts it off by two seconds,
      doubled for each attempt up to the seventh. */
  lemma UpdateExact(c: Command, t: Time)
    ensures Written(c, t)
            == Command(c.created, c.expires, t + 2_000_000 * Doubled(if c.attempts < 7 then c.attempts else 7),
                       c.attempts + 1, Sent)
  {
    var n := if c.attempts < 7 then c.attempts else 7;
    DoubledIs(n);
    DoubledGrows(n);
  }

  function Doubled(n: nat): nat
  {
    if n == 0 then 1 else Doubled(n - 1) + Doubled(n - 1)
  }

  lemma {:induction false} DoubledIs(n: nat)
    ensures Pow2(n) == Doubled(n)
  {
    if n > 0 {
      DoubledIs(n - 1);
    }
  }

  lemma {:induction false} DoubledGrows(n: nat)
    requires n <= 7
    ensures Doubled(n) <= 128
    decreases 7 - n
  {
    assert Doubled(3) == 8 && Doubled(5) == 32 && Doubled(7) == 128;
    if n < 7 {
      DoubledGrows(n + 1);
    }
  }

  /** The sweep expires exactly the commands that wait for an ack and are past their time. */
  lemma SweepExact(commands: map<Id, Command>, t: Time, id: Id)
    requires id in commands
    ensures var c := commands[id];
            && Swept(commands, t).Keys == commands.Keys
            && Swept(commands, t)[id]
               == if (c.status == Pending || c.status == Sent) && c.expires <= t
                  then Command(c.created, c.expires, c.notBefore, c.attempts, Expired) else c
  {
  }

  /** A new command waits, is due at once and lives for 24 hours; a reply sets the status of its
      command, whatever it was. */
  lemma QueueExact(q: Queue, id: Id, ok: bool, t: Time)
    requires t >= q.clock
    ensures id !in q.commands ==>
              Step(q, Insert(id, t)) == q.(commands := q.commands[id := Command(t, t + 86_400_000_000, t, 0, Pending)], clock := t)
    ensures id in q.commands ==>
              var c := q.commands[id];
              Step(q, Reply(id, ok, t))
              == q.(commands := q.commands[id := Command(c.created, c.expires, c.notBefore, c.attempts, if ok then Acked else Nacked)],
                    clock := t)
  {
  }
}
