/** The admission gate of core/server/priority.go: a counting gate with four FIFO
    wait queues. Each mutex section of the source is one atomic operation. */
module PriorityGate {
  import opened Options

  /** The identity of the channel a waiting session blocks on. */
  type Waiter = nat

  const CLASSES := 4

  /** The fields guarded by the mutex, as a value. */
  datatype Gate = Gate(capacity: nat, active: nat, queues: seq<seq<Waiter>>)

  function Clamp(priority: nat): (c: nat)
    ensures c < CLASSES
  {
    if priority > 3 then 3 else priority
  }

  function Without(queue: seq<Waiter>, w: Waiter): seq<Waiter>
  {
    if queue == [] then []
    else if queue[0] == w then queue[1..]
    else [queue[0]] + Without(queue[1..], w)
  }

  /** The non-empty class a slot goes to, or -1. */
  function Best(queues: seq<seq<Waiter>>): (c: int)
    ensures -1 <= c < |queues|
    ensures c >= 0 ==> queues[c] != []
    ensures forall k :: c < k < |queues| ==> queues[k] == []
  {
    if queues == [] then -1
    else if queues[|queues| - 1] != [] then |queues| - 1
    else Best(queues[..|queues| - 1])
  }

  function Enter(g: Gate, w: Waiter, c: nat): Gate
    requires c < |g.queues|
  {
    if g.active < g.capacity then g.(active := g.active + 1)
    else g.(queues := g.queues[c := g.queues[c] + [w]])
  }

  function Withdraw(g: Gate, w: Waiter, c: nat): Gate
    requires c < |g.queues|
  {
    g.(queues := g.queues[c := Without(g.queues[c], w)])
  }

  function Release(g: Gate): Gate
  {
    var c := Best(g.queues);
    if c >= 0 then g.(queues := g.queues[c := g.queues[c][1..]])
    else if g.active > 0 then g.(active := g.active - 1)
    else g
  }

  function Granted(g: Gate): Option<Waiter>
  {
    var c := Best(g.queues);
    if c >= 0 then Some(g.queues[c][0]) else None
  }

  /** The gate object. `Wait`, the select between the two sections of Acquire, holds no lock. */
  class SessionGate {
    const capacity: nat
    var active: nat
    const waiters: array<seq<Waiter>>

    ghost predicate Valid()
      reads this
    {
      waiters.Length == CLASSES
    }

    ghost function Value(): Gate
      reads this, waiters
    {
      Gate(capacity, active, waiters[..])
    }

    constructor (capacity: nat)
      ensures Valid() && fresh(waiters)
      ensures Value() == Gate(capacity, 0, [[], [], [], []])
    {
      this.capacity := capacity;
      active := 0;
      waiters := new seq<Waiter>[CLASSES](_ => []);
    }

    /** The first section of Acquire. */
    method Acquire(w: Waiter, priority: nat) returns (admitted: bool)
      requires Valid()
      modifies this`active, waiters
      ensures Value() == Enter(old(Value()), w, Clamp(priority))
      ensures admitted <==> old(active) < capacity
    {
      var p := priority;
      if p > 3 {
        p := 3;
      }
      if active < capacity {
        active := active + 1;
        return true;
      }
      waiters[p] := waiters[p] + [w];
      assert waiters[..] == old(waiters[..])[p := old(waiters[p]) + [w]];
      return false;
    }

    /** The section entered when the context ends: the session either leaves the
        queue or finds it was granted a slot meanwhile. */
    method CancelWait(w: Waiter, priority: nat) returns (left: bool)
      requires Valid()
      modifies waiters
      ensures left <==> w in old(waiters[Clamp(priority)])
      ensures Value() == Withdraw(old(Value()), w, Clamp(priority))
    {
      var p := Clamp(priority);
      var queue := waiters[p];
      var i := 0;
      while i < |queue|
        invariant 0 <= i <= |queue|
        invariant w !in queue[..i]
        invariant waiters[..] == old(waiters[..])
      {
        if queue[i] == w {
          waiters[p] := queue[..i] + queue[i + 1..];
          WithoutAt(queue, w, i);
          assert waiters[..] == old(waiters[..])[p := Without(queue, w)];
          return true;
        }
        i := i + 1;
      }
      assert queue[..i] == queue;
      WithoutAbsent(queue, w);
      assert waiters[..] == old(waiters[..])[p := Without(queue, w)];
      return false;
    }

    /** Hands the slot to the head of the highest non-empty class, or frees it. */
    method ReleaseSlot() returns (woken: Option<Waiter>)
      requires Valid()
      modifies this`active, waiters
      ensures Value() == Release(old(Value()))
      ensures woken == Granted(old(Value()))
    {
      var priority := waiters.Length - 1;
      while priority >= 0
        invariant -1 <= priority < waiters.Length
        invariant forall k :: priority < k < waiters.Length ==> waiters[k] == []
        invariant waiters[..] == old(waiters[..]) && active == old(active)
      {
        if waiters[priority] != [] {
          BestIs(waiters[..], priority);
          woken := Some(waiters[priority][0]);
          waiters[priority] := waiters[priority][1..];
          assert waiters[..] == old(waiters[..])[priority := old(waiters[..])[priority][1..]];
          return;
        }
        priority := priority - 1;
      }
      BestIs(waiters[..], -1);
      woken := None;
      if active > 0 {
        active := active - 1;
      }
    }
  }

  lemma {:induction false} WithoutAt(queue: seq<Waiter>, w: Waiter, i: nat)
    requires i < |queue| && queue[i] == w && w !in queue[..i]
    ensures Without(queue, w) == queue[..i] + queue[i + 1..]
  {
    if i > 0 {
      assert queue[1..][..i - 1] == queue[..i][1..];
      WithoutAt(queue[1..], w, i - 1);
    }
  }

  lemma {:induction false} WithoutAbsent(queue: seq<Waiter>, w: Waiter)
    requires w !in queue
    ensures Without(queue, w) == queue
  {
    if queue != [] {
      WithoutAbsent(queue[1..], w);
    }
  }

  lemma BestIs(queues: seq<seq<Waiter>>, c: int)
    requires -1 <= c < |queues|
    requires c >= 0 ==> queues[c] != []
    requires forall k :: c < k < |queues| ==> queues[k] == []
    ensures Best(queues) == c
  {
  }

  // ---- Every interleaving -------------------------------------------------

  /** What a session that called Acquire is doing. `Woken` means its channel is
      closed but its goroutine has not yet returned from the select. */
  datatype Phase = Waiting(class_: nat) | Woken(class_: nat) | Holding | Gone

  datatype System = System(gate: Gate, phase: map<Waiter, Phase>)

  datatype Action =
    | Arrive(w: Waiter, priority: nat)
    | Wake(w: Waiter)
    | Cancel(w: Waiter)
    | Leave(w: Waiter)

  function Start(capacity: nat): System
  {
    System(Gate(capacity, 0, [[], [], [], []]), map[])
  }

  function Step(s: System, a: Action): System
    requires |s.gate.queues| == CLASSES
  {
    match a
    case Arrive(w, priority) =>
      if w in s.phase then s else
      System(Enter(s.gate, w, Clamp(priority)),
             s.phase[w := if s.gate.active < s.gate.capacity then Holding else Waiting(Clamp(priority))])
    case Wake(w) =>
      if w in s.phase && s.phase[w].Woken? then s.(phase := s.phase[w := Holding]) else s
    case Cancel(w) =>
      if w in s.phase && (s.phase[w].Waiting? || s.phase[w].Woken?) && s.phase[w].class_ < CLASSES then
        var c := s.phase[w].class_;
        System(Withdraw(s.gate, w, c),
               s.phase[w := if w in s.gate.queues[c] then Gone else Holding])
      else s
    case Leave(w) =>
      if w in s.phase && s.phase[w].Holding? then
        System(Release(s.gate), WakeUp(s.phase[w := Gone], Granted(s.gate)))
      else s
  }

  function WakeUp(phase: map<Waiter, Phase>, g: Option<Waiter>): map<Waiter, Phase>
  {
    if g.Some? && g.value in phase && phase[g.value].Waiting?
    then phase[g.value := Woken(phase[g.value].class_)]
    else phase
  }

  function Run(s: System, run: seq<Action>): (t: System)
    requires |s.gate.queues| == CLASSES
    ensures |t.gate.queues| == CLASSES
    decreases |run|
  {
    if run == [] then s else Run(Step(s, run[0]), run[1..])
  }

  /** The sessions a slot is reserved for. */
  ghost function Owners(s: System): set<Waiter>
  {
    set w | w in s.phase && (s.phase[w].Holding? || s.phase[w].Woken?)
  }

  ghost predicate NoDuplicates(queue: seq<Waiter>)
  {
    forall i, j :: 0 <= i < j < |queue| ==> queue[i] != queue[j]
  }

  ghost predicate Queued(s: System)
    requires |s.gate.queues| == CLASSES
  {
    && (forall c :: 0 <= c < CLASSES ==> NoDuplicates(s.gate.queues[c]))
    && (forall c, w :: 0 <= c < CLASSES && w in s.gate.queues[c] ==> w in s.phase && s.phase[w] == Waiting(c))
    && (forall w :: w in s.phase && s.phase[w].Waiting? ==>
          s.phase[w].class_ < CLASSES && w in s.gate.queues[s.phase[w].class_])
    && (forall w :: w in s.phase && s.phase[w].Woken? ==> s.phase[w].class_ < CLASSES)
  }

  /** The safety property: slots taken are exactly the slots owned, never more than
      the capacity, and nobody waits beside a free slot. */
  ghost predicate Safe(s: System)
  {
    && |s.gate.queues| == CLASSES
    && Queued(s)
    && s.gate.active == |Owners(s)|
    && s.gate.active <= s.gate.capacity
    && (forall c :: 0 <= c < CLASSES && s.gate.queues[c] != [] ==> s.gate.active == s.gate.capacity)
  }

  lemma {:induction false} WithoutMembers(queue: seq<Waiter>, w: Waiter)
    requires NoDuplicates(queue)
    ensures forall x :: x in Without(queue, w) <==> x in queue && x != w
    ensures NoDuplicates(Without(queue, w))
  {
    if w in queue {
      var i :| 0 <= i < |queue| && queue[i] == w;
      assert w !in queue[..i];
      WithoutAt(queue, w, i);
    } else {
      WithoutAbsent(queue, w);
    }
  }

  lemma ArriveSafe(s: System, w: Waiter, priority: nat)
    requires Safe(s)
    ensures Safe(Step(s, Arrive(w, priority)))
  {
    var t := Step(s, Arrive(w, priority));
    if w !in s.phase {
      if s.gate.active < s.gate.capacity {
        assert Owners(t) == Owners(s) + {w};
      } else {
        assert Owners(t) == Owners(s);
      }
    }
  }

  lemma WakeSafe(s: System, w: Waiter)
    requires Safe(s)
    ensures Safe(Step(s, Wake(w)))
  {
    assert Owners(Step(s, Wake(w))) == Owners(s);
  }

  lemma CancelSafe(s: System, w: Waiter)
    requires Safe(s)
    ensures Safe(Step(s, Cancel(w)))
  {
    var t := Step(s, Cancel(w));
    if w in s.phase && (s.phase[w].Waiting? || s.phase[w].Woken?) {
      WithoutMembers(s.gate.queues[s.phase[w].class_], w);
    }
    assert Owners(t) == Owners(s);
  }

  lemma TailMembers(q: seq<Waiter>)
    requires q != [] && NoDuplicates(q)
    ensures NoDuplicates(q[1..])
    ensures forall x :: x in q[1..] <==> x in q && x != q[0]
  {
    assert q == [q[0]] + q[1..];
  }

  lemma LeaveQueued(s: System, w: Waiter)
    requires Safe(s) && w in s.phase && s.phase[w].Holding?
    ensures Queued(Step(s, Leave(w)))
  {
    var t := Step(s, Leave(w));
    var c := Best(s.gate.queues);
    if c >= 0 {
      var q := s.gate.queues[c];
      TailMembers(q);
      var h := q[0];
      assert h in q && s.phase[h] == Waiting(c);
      assert t.phase == s.phase[w := Gone][h := Woken(c)];
      assert t.gate.queues == s.gate.queues[c := q[1..]];
    } else {
      assert t.phase == s.phase[w := Gone] && t.gate.queues == s.gate.queues;
    }
  }

  lemma OwnersMove(s: System, t: System, w: Waiter, h: Waiter, c: nat)
    requires w in s.phase && s.phase[w].Holding? && h in s.phase && s.phase[h].Waiting?
    requires t.phase == s.phase[w := Gone][h := Woken(c)]
    ensures |Owners(t)| == |Owners(s)|
  {
    assert w in Owners(s);
    assert Owners(t) == Owners(s) - {w} + {h};
  }

  lemma OwnersDrop(s: System, t: System, w: Waiter)
    requires w in s.phase && s.phase[w].Holding? && t.phase == s.phase[w := Gone]
    ensures |Owners(t)| == |Owners(s)| - 1
  {
    assert w in Owners(s);
    assert Owners(t) == Owners(s) - {w};
  }

  lemma LeaveOwners(s: System, w: Waiter)
    requires Safe(s) && w in s.phase && s.phase[w].Holding?
    ensures |Owners(Step(s, Leave(w)))| == |Owners(s)| - if Best(s.gate.queues) >= 0 then 0 else 1
  {
    var t := Step(s, Leave(w));
    var c := Best(s.gate.queues);
    if c >= 0 {
      var h := s.gate.queues[c][0];
      assert h in s.gate.queues[c] && s.phase[h] == Waiting(c);
      OwnersMove(s, t, w, h, c);
    } else {
      OwnersDrop(s, t, w);
    }
  }

  lemma LeaveSafe(s: System, w: Waiter)
    requires Safe(s)
    ensures Safe(Step(s, Leave(w)))
  {
    if w in s.phase && s.phase[w].Holding? {
      LeaveQueued(s, w);
      LeaveOwners(s, w);
      assert w in Owners(s);
    }
  }

  lemma StepSafe(s: System, a: Action)
    requires Safe(s)
    ensures Safe(Step(s, a))
  {
    match a
    case Arrive(w, p) => ArriveSafe(s, w, p);
    case Wake(w) => WakeSafe(s, w);
    case Cancel(w) => CancelSafe(s, w);
    case Leave(w) => LeaveSafe(s, w);
  }

  lemma {:induction false} RunSafe(s: System, run: seq<Action>)
    requires Safe(s)
    ensures Safe(Run(s, run))
    decreases |run|
  {
    if run != [] {
      StepSafe(s, run[0]);
      RunSafe(Step(s, run[0]), run[1..]);
    }
  }

  /** Safety of every interleaving of arrivals, wake-ups, cancellations and releases. */
  lemma EveryRunSafe(capacity: nat, run: seq<Action>)
    ensures Safe(Run(Start(capacity), run))
  {
    var s := Start(capacity);
    assert Owners(s) == {};
    RunSafe(s, run);
  }

  /** Whatever happened before, once every session is gone no slot is left taken. */
  lemma NoSlotLeaks(capacity: nat, run: seq<Action>)
    requires forall w :: w in Run(Start(capacity), run).phase ==> Run(Start(capacity), run).phase[w] == Gone
    ensures Run(Start(capacity), run).gate == Start(capacity).gate
  {
    EveryRunSafe(capacity, run);
    var t := Run(Start(capacity), run);
    assert Owners(t) == {};
    forall c | 0 <= c < CLASSES
      ensures t.gate.queues[c] == []
    {
      var q := t.gate.queues[c];
      assert forall w :: w in q ==> w in t.phase && t.phase[w] == Waiting(c);
      SomeMember(q);
    }
    CapacityKept(Start(capacity), run);
    assert t.gate.queues == [[], [], [], []];
  }

  lemma SomeMember(q: seq<Waiter>)
    ensures q != [] ==> exists w :: w in q
  {
    if q != [] {
      assert q[0] in q;
    }
  }

  lemma {:induction false} CapacityKept(s: System, run: seq<Action>)
    requires |s.gate.queues| == CLASSES
    ensures Run(s, run).gate.capacity == s.gate.capacity
    decreases |run|
  {
    if run != [] {
      CapacityKept(Step(s, run[0]), run[1..]);
    }
  }

  /** A cancellation either removes the waiter and touches no slot, or finds the
      slot already granted, keeps it, and leaves the gate as it was. */
  lemma CancelRace(s: System, w: Waiter)
    requires Safe(s) && w in s.phase && (s.phase[w].Waiting? || s.phase[w].Woken?)
    ensures var t := Step(s, Cancel(w));
            && t.gate.active == s.gate.active
            && (s.phase[w].Waiting? ==> t.phase[w] == Gone && Owners(t) == Owners(s)
                                        && forall c :: 0 <= c < CLASSES ==> w !in t.gate.queues[c])
            && (s.phase[w].Woken? ==> t.phase[w] == Holding && t.gate == s.gate && w in Owners(t))
  {
    var c := s.phase[w].class_;
    WithoutMembers(s.gate.queues[c], w);
    if s.phase[w].Woken? {
      WithoutAbsent(s.gate.queues[c], w);
      assert s.gate.queues[c := s.gate.queues[c]] == s.gate.queues;
    }
  }

  // ---- Bounded waiting ----------------------------------------------------

  function IndexIn(queue: seq<Waiter>, w: Waiter): (i: nat)
    requires w in queue
    ensures i < |queue| && queue[i] == w
  {
    if queue[0] == w then 0 else 1 + IndexIn(queue[1..], w)
  }

  /** Sessions in classes above c. */
  function Above(queues: seq<seq<Waiter>>, c: nat): nat
  {
    if |queues| <= c + 1 then 0
    else |queues[|queues| - 1]| + Above(queues[..|queues| - 1], c)
  }

  /** Sessions that a release serves before w. */
  function Ahead(s: System, w: Waiter): nat
    requires |s.gate.queues| == CLASSES
    requires w in s.phase && s.phase[w].Waiting? && s.phase[w].class_ < CLASSES
    requires w in s.gate.queues[s.phase[w].class_]
  {
    Above(s.gate.queues, s.phase[w].class_) + IndexIn(s.gate.queues[s.phase[w].class_], w)
  }

  predicate Releases(s: System, a: Action)
  {
    a.Leave? && a.w in s.phase && s.phase[a.w].Holding?
  }

  function ReleaseCount(s: System, run: seq<Action>): nat
    requires |s.gate.queues| == CLASSES
    decreases |run|
  {
    if run == [] then 0
    else (if Releases(s, run[0]) then 1 else 0) + ReleaseCount(Step(s, run[0]), run[1..])
  }

  /** The run never cancels w and admits no session of a class above c. */
  ghost predicate Undisturbed(run: seq<Action>, w: Waiter, c: nat)
  {
    && (forall i :: 0 <= i < |run| ==> run[i] != Cancel(w))
    && (forall i :: 0 <= i < |run| && run[i].Arrive? ==> Clamp(run[i].priority) <= c)
  }

  lemma {:induction false} AboveChange(q: seq<seq<Waiter>>, r: seq<seq<Waiter>>, c: nat, k: nat)
    requires |q| == |r| && k < |q|
    requires forall i :: 0 <= i < |q| && i != k ==> q[i] == r[i]
    ensures Above(r, c) == Above(q, c) + if k > c then |r[k]| - |q[k]| else 0
  {
    if |q| > c + 1 {
      if k == |q| - 1 {
        assert q[..|q| - 1] == r[..|q| - 1];
      } else {
        AboveChange(q[..|q| - 1], r[..|q| - 1], c, k);
      }
    }
  }

  lemma {:induction false} AboveZero(q: seq<seq<Waiter>>, c: nat)
    requires forall i :: c < i < |q| ==> q[i] == []
    ensures Above(q, c) == 0
  {
    if |q| > c + 1 {
      AboveZero(q[..|q| - 1], c);
    }
  }

  lemma {:induction false} IndexUnique(queue: seq<Waiter>, w: Waiter, i: nat)
    requires NoDuplicates(queue) && i < |queue| && queue[i] == w
    ensures IndexIn(queue, w) == i
  {
    var j := IndexIn(queue, w);
    assert queue[j] == w;
  }

  lemma {:induction false} IndexAfterRemoval(queue: seq<Waiter>, x: Waiter, w: Waiter)
    requires w in queue && x != w
    ensures w in Without(queue, x)
    ensures IndexIn(Without(queue, x), w) <= IndexIn(queue, w)
  {
    if queue[0] != x && queue[0] != w {
      IndexAfterRemoval(queue[1..], x, w);
      assert ([queue[0]] + Without(queue[1..], x))[1..] == Without(queue[1..], x);
    }
  }

  /** A waiter that is still waiting after an undisturbing step is no further back,
      and strictly closer after a release. */
  lemma AheadStep(s: System, a: Action, w: Waiter)
    requires Safe(s) && w in s.phase && s.phase[w].Waiting? && a != Cancel(w)
    requires a.Arrive? ==> Clamp(a.priority) <= s.phase[w].class_
    ensures var t := Step(s, a);
            && Safe(t) && w in t.phase
            && (t.phase[w].Waiting? ==>
                  && t.phase[w] == s.phase[w]
                  && Ahead(t, w) + (if Releases(s, a) then 1 else 0) <= Ahead(s, w))
            && (!t.phase[w].Waiting? ==> t.phase[w].Woken? && Releases(s, a) && Ahead(s, w) == 0)
  {
    StepSafe(s, a);
    match a
    case Arrive(x, p) => AheadArrive(s, x, p, w);
    case Wake(x) =>
    case Cancel(x) => AheadCancel(s, x, w);
    case Leave(x) => AheadLeave(s, x, w);
  }

  lemma AheadArrive(s: System, x: Waiter, p: nat, w: Waiter)
    requires Safe(s) && w in s.phase && s.phase[w].Waiting? && Clamp(p) <= s.phase[w].class_
    requires Safe(Step(s, Arrive(x, p)))
    ensures var t := Step(s, Arrive(x, p));
            w in t.phase && t.phase[w] == s.phase[w] && Ahead(t, w) <= Ahead(s, w)
  {
    var t := Step(s, Arrive(x, p));
    var c := s.phase[w].class_;
    AboveChange(s.gate.queues, t.gate.queues, c, Clamp(p));
    IndexUnique(t.gate.queues[c], w, IndexIn(s.gate.queues[c], w));
  }

  lemma AheadCancel(s: System, x: Waiter, w: Waiter)
    requires Safe(s) && w in s.phase && s.phase[w].Waiting? && x != w
    requires Safe(Step(s, Cancel(x)))
    ensures var t := Step(s, Cancel(x));
            w in t.phase && t.phase[w] == s.phase[w] && Ahead(t, w) <= Ahead(s, w)
  {
    var t := Step(s, Cancel(x));
    var c := s.phase[w].class_;
    if x in s.phase && (s.phase[x].Waiting? || s.phase[x].Woken?) {
      var k := s.phase[x].class_;
      AboveChange(s.gate.queues, t.gate.queues, c, k);
      WithoutShorter(s.gate.queues[k], x);
      if k == c {
        IndexAfterRemoval(s.gate.queues[c], x, w);
      }
    }
  }

  lemma {:induction false} WithoutShorter(queue: seq<Waiter>, w: Waiter)
    ensures |Without(queue, w)| <= |queue|
  {
    if queue != [] {
      WithoutShorter(queue[1..], w);
    }
  }

  lemma AheadLeave(s: System, x: Waiter, w: Waiter)
    requires Safe(s) && w in s.phase && s.phase[w].Waiting?
    requires Safe(Step(s, Leave(x)))
    ensures var t := Step(s, Leave(x));
            && w in t.phase
            && (t.phase[w].Waiting? ==>
                  && t.phase[w] == s.phase[w]
                  && Ahead(t, w) + (if Releases(s, Leave(x)) then 1 else 0) <= Ahead(s, w))
            && (!t.phase[w].Waiting? ==> t.phase[w].Woken? && Releases(s, Leave(x)) && Ahead(s, w) == 0)
  {
    if Releases(s, Leave(x)) {
      var t := Step(s, Leave(x));
      var c := s.phase[w].class_;
      var q := s.gate.queues;
      var b := Best(q);
      assert b >= c;
      assert q[b][0] in q[b];
      if b == c {
        AboveZero(q, c);
        AboveZero(t.gate.queues, c);
        var i := IndexIn(q[c], w);
        IndexUnique(q[c], w, i);
        if i > 0 {
          IndexUnique(t.gate.queues[c], w, i - 1);
        }
      } else {
        AboveChange(q, t.gate.queues, c, b);
      }
    }
  }

  lemma {:induction false} AheadRun(s: System, run: seq<Action>, w: Waiter, c: nat)
    requires Safe(s) && w in s.phase && s.phase[w] == Waiting(c)
    requires Undisturbed(run, w, c)
    ensures var t := Run(s, run);
            && Safe(t) && w in t.phase
            && (t.phase[w].Waiting? ==> t.phase[w] == Waiting(c) && Ahead(t, w) + ReleaseCount(s, run) <= Ahead(s, w))
    decreases |run|
  {
    RunSafe(s, run);
    if run != [] {
      var t := Step(s, run[0]);
      AheadStep(s, run[0], w);
      if t.phase[w].Waiting? {
        AheadRun(t, run[1..], w, c);
      } else {
        NotWaitingAgain(t, run[1..], w);
      }
    }
  }

  lemma {:induction false} NotWaitingAgain(s: System, run: seq<Action>, w: Waiter)
    requires Safe(s) && w in s.phase && !s.phase[w].Waiting?
    ensures w in Run(s, run).phase && !Run(s, run).phase[w].Waiting?
    decreases |run|
  {
    if run != [] {
      StepSafe(s, run[0]);
      NotWaitingAgain(Step(s, run[0]), run[1..], w);
    }
  }

  /** A waiter with k sessions ahead of it is granted a slot within k+1 releases,
      as long as it does not cancel and no session of a higher class arrives. */
  lemma GrantedWithin(s: System, run: seq<Action>, w: Waiter, c: nat)
    requires Safe(s) && w in s.phase && s.phase[w] == Waiting(c)
    requires Undisturbed(run, w, c)
    requires ReleaseCount(s, run) >= Ahead(s, w) + 1
    ensures w in Run(s, run).phase && !Run(s, run).phase[w].Waiting?
  {
    AheadRun(s, run, w, c);
  }

  /** In the top class nothing can overtake: only the waiter's own cancellation matters. */
  lemma TopClassGrantedWithin(s: System, run: seq<Action>, w: Waiter)
    requires Safe(s) && w in s.phase && s.phase[w] == Waiting(3)
    requires forall i :: 0 <= i < |run| ==> run[i] != Cancel(w)
    requires ReleaseCount(s, run) >= IndexIn(s.gate.queues[3], w) + 1
    ensures w in Run(s, run).phase && !Run(s, run).phase[w].Waiting?
  {
    assert Undisturbed(run, w, 3);
    assert Above(s.gate.queues, 3) == 0;
    GrantedWithin(s, run, w, 3);
  }

  // ---- Priority and order -------------------------------------------------

  /** Where in the run the session arrived, or the length of the run if it did not. */
  function Arrival(run: seq<Action>, w: Waiter): (k: nat)
    ensures k <= |run|
    ensures k < |run| ==> run[k].Arrive? && run[k].w == w
  {
    if run == [] then 0
    else
      var init := run[..|run| - 1];
      var k := Arrival(init, w);
      if k < |init| then k
      else if run[|init|].Arrive? && run[|init|].w == w then |init|
      else |run|
  }

  lemma ArrivalMore(run: seq<Action>, a: Action, w: Waiter)
    ensures Arrival(run + [a], w)
            == if Arrival(run, w) < |run| then Arrival(run, w)
               else if a.Arrive? && a.w == w then |run| else |run| + 1
  {
    assert (run + [a])[..|run|] == run;
  }

  /** The session waits, or was woken, in the class of the priority it asked for. */
  ghost predicate InItsClass(s: System, run: seq<Action>, w: Waiter)
  {
    var k := Arrival(run, w);
    && (w in s.phase <==> k < |run|)
    && (w in s.phase && (s.phase[w].Waiting? || s.phase[w].Woken?) ==>
          s.phase[w].class_ == if run[k].priority <= 3 then run[k].priority else 3)
  }

  /** Each queue is in the order of arrival. */
  ghost predicate Ordered(queue: seq<Waiter>, run: seq<Action>)
  {
    forall i, j :: 0 <= i < j < |queue| ==> Arrival(run, queue[i]) < Arrival(run, queue[j])
  }

  ghost predicate Tracked(s: System, run: seq<Action>)
  {
    && Safe(s)
    && (forall w :: InItsClass(s, run, w))
    && (forall c :: 0 <= c < CLASSES ==> Ordered(s.gate.queues[c], run))
  }

  lemma ClassStep(s: System, run: seq<Action>, a: Action, w: Waiter)
    requires Safe(s) && InItsClass(s, run, w)
    ensures InItsClass(Step(s, a), run + [a], w)
  {
    ArrivalMore(run, a, w);
    assert Arrival(run, w) < |run| ==> (run + [a])[Arrival(run, w)] == run[Arrival(run, w)];
  }

  /** Known sessions keep their order when the run goes on. */
  lemma OrderKept(s: System, run: seq<Action>, a: Action, queue: seq<Waiter>)
    requires Ordered(queue, run) && forall i :: 0 <= i < |queue| ==> Arrival(run, queue[i]) < |run|
    ensures Ordered(queue, run + [a])
  {
    forall i, j | 0 <= i < j < |queue|
      ensures Arrival(run + [a], queue[i]) < Arrival(run + [a], queue[j])
    {
      ArrivalMore(run, a, queue[i]);
      ArrivalMore(run, a, queue[j]);
    }
  }

  lemma KnownOne(s: System, run: seq<Action>, c: nat, w: Waiter)
    requires |s.gate.queues| == CLASSES && Queued(s) && InItsClass(s, run, w)
    requires c < CLASSES && w in s.gate.queues[c]
    ensures Arrival(run, w) < |run|
  {
  }

  lemma QueueKnown(s: System, run: seq<Action>, c: nat)
    requires |s.gate.queues| == CLASSES && Queued(s) && (forall w :: InItsClass(s, run, w)) && c < CLASSES
    ensures forall i :: 0 <= i < |s.gate.queues[c]| ==> Arrival(run, s.gate.queues[c][i]) < |run|
  {
    var q := s.gate.queues[c];
    forall i | 0 <= i < |q|
      ensures Arrival(run, q[i]) < |run|
    {
      assert InItsClass(s, run, q[i]);
      KnownOne(s, run, c, q[i]);
    }
  }

  lemma {:induction false} WithoutOrdered(queue: seq<Waiter>, w: Waiter, run: seq<Action>)
    requires Ordered(queue, run) && NoDuplicates(queue)
    ensures Ordered(Without(queue, w), run)
  {
    if w in queue {
      var i :| 0 <= i < |queue| && queue[i] == w;
      assert w !in queue[..i];
      WithoutAt(queue, w, i);
    } else {
      WithoutAbsent(queue, w);
    }
  }

  lemma PushOrdered(queue: seq<Waiter>, w: Waiter, run: seq<Action>)
    requires Ordered(queue, run) && forall i :: 0 <= i < |queue| ==> Arrival(run, queue[i]) < Arrival(run, w)
    ensures Ordered(queue + [w], run)
  {
  }

  /** One queue after a step is the old one, with one session added, taken out or served. */
  lemma OrderStep(s: System, run: seq<Action>, a: Action, c: nat)
    requires Tracked(s, run) && c < CLASSES
    ensures Ordered(Step(s, a).gate.queues[c], run + [a])
  {
    var q := s.gate.queues[c];
    QueueKnown(s, run, c);
    OrderKept(s, run, a, q);
    match a
    case Arrive(w, priority) =>
      if w !in s.phase {
        assert InItsClass(s, run, w);
        ArrivalMore(run, a, w);
        forall i | 0 <= i < |q|
          ensures Arrival(run + [a], q[i]) < Arrival(run + [a], w)
        {
          ArrivalMore(run, a, q[i]);
        }
        PushOrdered(q, w, run + [a]);
      }
    case Cancel(w) => WithoutOrdered(q, w, run + [a]);
    case Leave(w) => TailOrdered(q, run + [a]);
    case _ =>
  }

  lemma TailOrdered(queue: seq<Waiter>, run: seq<Action>)
    requires Ordered(queue, run)
    ensures queue != [] ==> Ordered(queue[1..], run)
  {
  }

  lemma TrackedStep(s: System, run: seq<Action>, a: Action)
    requires Tracked(s, run)
    ensures Tracked(Step(s, a), run + [a])
  {
    StepSafe(s, a);
    forall w ensures InItsClass(Step(s, a), run + [a], w) {
      assert InItsClass(s, run, w);
      ClassStep(s, run, a, w);
    }
    forall c | 0 <= c < CLASSES ensures Ordered(Step(s, a).gate.queues[c], run + [a]) {
      OrderStep(s, run, a, c);
    }
  }

  lemma {:induction false} RunMore(s: System, run: seq<Action>, a: Action)
    requires |s.gate.queues| == CLASSES
    ensures Run(s, run + [a]) == Step(Run(s, run), a)
    decreases |run|
  {
    if run == [] {
      assert [] + [a] == [a] && [a][1..] == [];
    } else {
      assert (run + [a])[1..] == run[1..] + [a];
      RunMore(Step(s, run[0]), run[1..], a);
    }
  }

  lemma {:induction false} RunTracked(capacity: nat, run: seq<Action>)
    ensures Tracked(Run(Start(capacity), run), run)
    decreases |run|
  {
    if run == [] {
      EveryRunSafe(capacity, run);
    } else {
      var init, a := run[..|run| - 1], run[|run| - 1];
      assert run == init + [a];
      RunTracked(capacity, init);
      RunMore(Start(capacity), init, a);
      TrackedStep(Run(Start(capacity), init), init, a);
    }
  }

  /** In every run a session waits in the class it asked for, priorities above 3 in class 3. */
  lemma WaitsInItsClass(capacity: nat, run: seq<Action>, w: Waiter)
    requires w in Run(Start(capacity), run).phase && Run(Start(capacity), run).phase[w].Waiting?
    ensures var k := Arrival(run, w);
            && k < |run| && run[k].Arrive? && run[k].w == w
            && Run(Start(capacity), run).phase[w].class_ == (if run[k].priority <= 3 then run[k].priority else 3)
  {
    RunTracked(capacity, run);
    assert InItsClass(Run(Start(capacity), run), run, w);
  }

  /** The release wakes y. */
  ghost predicate Wakes(s: System, x: Waiter, y: Waiter)
    requires |s.gate.queues| == CLASSES
  {
    && y in s.phase && s.phase[y].Waiting?
    && y in Step(s, Leave(x)).phase && Step(s, Leave(x)).phase[y].Woken?
  }

  ghost predicate ArrivedWith(run: seq<Action>, w: Waiter, priority: nat)
  {
    Arrival(run, w) < |run| && run[Arrival(run, w)].priority == priority
  }

  lemma HeadWoken(s: System, x: Waiter, w: Waiter)
    requires Safe(s) && x in s.phase && s.phase[x].Holding? && w in s.phase && s.phase[w].Waiting?
    ensures var c := Best(s.gate.queues);
            && 0 <= s.phase[w].class_ <= c && w in s.gate.queues[s.phase[w].class_]
            && var h := s.gate.queues[c][0];
               h in s.phase && s.phase[h] == Waiting(c) && forall y :: Wakes(s, x, y) <==> y == h
  {
    var c := Best(s.gate.queues);
    assert w in s.gate.queues[s.phase[w].class_];
    var h := s.gate.queues[c][0];
    assert h in s.gate.queues[c];
    assert Granted(s.gate) == Some(h);
  }

  /** A release while a session waits wakes exactly one. */
  lemma HandsOver(capacity: nat, run: seq<Action>, x: Waiter, w: Waiter)
    requires var s := Run(Start(capacity), run);
             x in s.phase && s.phase[x].Holding? && w in s.phase && s.phase[w].Waiting?
    ensures exists y :: Wakes(Run(Start(capacity), run), x, y)
    ensures forall y, z :: Wakes(Run(Start(capacity), run), x, y) && Wakes(Run(Start(capacity), run), x, z) ==> y == z
  {
    EveryRunSafe(capacity, run);
    var s := Run(Start(capacity), run);
    HeadWoken(s, x, w);
    assert Wakes(s, x, s.gate.queues[Best(s.gate.queues)][0]);
  }

  /** The one it wakes asked for no lower priority than any that goes on waiting, and came first
      among those of its own; all from 3 up are the same. */
  lemma ServedInOrder(capacity: nat, run: seq<Action>, x: Waiter, y: Waiter, p: nat, w: Waiter, q: nat)
    requires var s := Run(Start(capacity), run);
             && x in s.phase && s.phase[x].Holding? && Wakes(s, x, y)
             && w != y && w in s.phase && s.phase[w].Waiting?
    requires ArrivedWith(run, y, p) && ArrivedWith(run, w, q)
    ensures p >= q || p >= 3
    ensures p == q || (p >= 3 && q >= 3) ==> Arrival(run, y) < Arrival(run, w)
  {
    RunTracked(capacity, run);
    var s := Run(Start(capacity), run);
    HeadWoken(s, x, w);
    assert InItsClass(s, run, w) && InItsClass(s, run, y);
    var c := Best(s.gate.queues);
    if s.phase[w].class_ == c {
      var i :| 0 <= i < |s.gate.queues[c]| && s.gate.queues[c][i] == w;
      assert Ordered(s.gate.queues[c], run);
    }
  }

  /** A session that was woken holds its slot once it goes on; one that is admitted at once holds
      it from the start. */
  lemma HoldsSlot(s: System, w: Waiter, priority: nat)
    requires |s.gate.queues| == CLASSES
    ensures w in s.phase && s.phase[w].Woken? ==>
              Step(s, Wake(w)).phase == s.phase[w := Holding] && Step(s, Wake(w)).gate == s.gate
    ensures w !in s.phase && s.gate.active < s.gate.capacity ==>
              Step(s, Arrive(w, priority)).phase == s.phase[w := Holding]
  {
  }
}
