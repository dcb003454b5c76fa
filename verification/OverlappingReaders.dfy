/** Deduplication when readers overlap: a reader whose connection has ended finishes the
    message it is handling while the reader of the next connection is at work. Looking an id
    up, handling the message and remembering the id are separate steps. */
module OverlappingReaders {
  import CC = ControlClient

  type MsgId = CC.MsgId

  /** The shared seen set, the ids remembered since it was last flushed, and the message each
      busy reader is handling. */
  datatype Pool = Pool(seen: set<MsgId>, window: seq<MsgId>, marks: nat, flushes: nat, busy: map<nat, MsgId>)

  const START := Pool({}, [], 0, 0, map[])

  datatype Action =
    | Take(reader: nat, id: MsgId)
    | Finish(reader: nat, ok: bool)

  function Remember(p: Pool, id: MsgId): Pool
  {
    var full := |p.seen| > CC.WINDOW;
    p.(seen := (if full then {} else p.seen) + {id},
       window := (if full then [] else p.window) + [id],
       marks := p.marks + 1,
       flushes := p.flushes + if full then 1 else 0)
  }

  function Step(p: Pool, a: Action): Pool
  {
    match a
    case Take(r, id) => if r in p.busy || id == "" || id in p.seen then p else p.(busy := p.busy[r := id])
    case Finish(r, ok) =>
      if r !in p.busy then p
      else
        var q := if ok then Remember(p, p.busy[r]) else p;
        q.(busy := p.busy - {r})
  }

  function Run(p: Pool, run: seq<Action>): Pool
    decreases |run|
  {
    if run == [] then p else Run(Step(p, run[0]), run[1..])
  }

  /** How often an id was applied since the last flush. */
  function Times(window: seq<MsgId>, id: MsgId): nat
  {
    if window == [] then 0
    else Times(window[..|window| - 1], id) + if window[|window| - 1] == id then 1 else 0
  }

  ghost function Handling(p: Pool, id: MsgId): set<nat>
  {
    set r | r in p.busy && p.busy[r] == id
  }

  /** Applications so far and under way together. */
  ghost predicate Few(p: Pool, id: MsgId, readers: nat)
  {
    Times(p.window, id) + |Handling(p, id)| <= readers
  }

  ghost predicate Counted(p: Pool)
  {
    && |p.seen| <= |p.window| && |p.seen| <= CC.WINDOW + 1
    && p.marks >= (CC.WINDOW + 1) * p.flushes + |p.window|
  }

  ghost predicate Inv(p: Pool, readers: nat)
  {
    && (forall r :: r in p.busy ==> r < readers)
    && (forall id :: id in p.window <==> id in p.seen)
    && (forall id :: Few(p, id, readers))
    && Counted(p)
  }

  lemma {:induction false} TimesAbsent(window: seq<MsgId>, id: MsgId)
    ensures Times(window, id) > 0 <==> id in window
  {
    if window != [] {
      var init := window[..|window| - 1];
      TimesAbsent(init, id);
      assert window == init + [window[|window| - 1]];
    }
  }

  lemma TimesPush(window: seq<MsgId>, x: MsgId, id: MsgId)
    ensures Times(window + [x], id) == Times(window, id) + if x == id then 1 else 0
  {
    assert (window + [x])[..|window|] == window;
  }

  lemma {:induction false} FewNumbers(s: set<nat>, n: nat)
    requires forall r :: r in s ==> r < n
    ensures |s| <= n
    decreases n
  {
    if n > 0 {
      FewNumbers(s - {n - 1}, n - 1);
      assert s <= s - {n - 1} + {n - 1};
    } else {
      assert s == {};
    }
  }

  lemma TakeOk(p: Pool, r: nat, id: MsgId, readers: nat)
    requires Inv(p, readers) && r < readers
    ensures Inv(Step(p, Take(r, id)), readers)
  {
    var q := Step(p, Take(r, id));
    if q != p {
      forall x ensures Few(q, x, readers) {
        assert Few(p, x, readers);
        if x == id {
          TimesAbsent(p.window, id);
          FewNumbers(Handling(q, id), readers);
        } else {
          assert Handling(q, x) == Handling(p, x);
        }
      }
    }
  }

  lemma RememberFew(p: Pool, q: Pool, r: nat, x: MsgId, readers: nat)
    requires r in p.busy && q == Remember(p, p.busy[r]).(busy := p.busy - {r})
    requires Few(p, x, readers)
    ensures Few(q, x, readers)
  {
    TimesPush(p.window, p.busy[r], x);
    TimesPush([], p.busy[r], x);
    assert [] + [p.busy[r]] == [p.busy[r]];
    DoneHandling(p, q, r, x);
  }

  lemma DoneHandling(p: Pool, q: Pool, r: nat, x: MsgId)
    requires r in p.busy && q.busy == p.busy - {r}
    ensures |Handling(q, x)| == |Handling(p, x)| - if p.busy[r] == x then 1 else 0
  {
    if p.busy[r] == x {
      assert r in Handling(p, x);
      assert Handling(q, x) == Handling(p, x) - {r};
    } else {
      assert Handling(q, x) == Handling(p, x);
    }
  }

  lemma RememberCounted(p: Pool, id: MsgId)
    requires Counted(p)
    ensures Counted(Remember(p, id))
  {
  }

  lemma FinishOk(p: Pool, r: nat, ok: bool, readers: nat)
    requires Inv(p, readers)
    ensures Inv(Step(p, Finish(r, ok)), readers)
  {
    var q := Step(p, Finish(r, ok));
    if r in p.busy {
      forall x ensures Few(q, x, readers) {
        assert Few(p, x, readers);
        if ok {
          RememberFew(p, q, r, x, readers);
        } else {
          DoneHandling(p, q, r, x);
        }
      }
      RememberCounted(p, p.busy[r]);
    }
  }

  ghost predicate Among(run: seq<Action>, readers: nat)
  {
    forall i :: 0 <= i < |run| ==> run[i].reader < readers
  }

  lemma StepOk(p: Pool, a: Action, readers: nat)
    requires Inv(p, readers) && a.reader < readers
    ensures Inv(Step(p, a), readers)
  {
    match a
    case Take(r, id) => TakeOk(p, r, id, readers);
    case Finish(r, ok) => FinishOk(p, r, ok, readers);
  }

  lemma {:induction false} RunOk(p: Pool, run: seq<Action>, readers: nat)
    requires Inv(p, readers) && Among(run, readers)
    ensures Inv(Run(p, run), readers)
    decreases |run|
  {
    if run != [] {
      assert forall i :: 0 <= i < |run[1..]| ==> run[1..][i] == run[i + 1];
      StepOk(p, run[0], readers);
      RunOk(Step(p, run[0]), run[1..], readers);
    }
  }

  /** With up to `readers` overlapping readers the seen set never exceeds 2049 ids, every id is
      applied at most that often between flushes, and n applications flush at most
      (n-1)/2049 times. */
  lemma SharedWindow(run: seq<Action>, readers: nat)
    requires Among(run, readers)
    ensures var p := Run(START, run);
            && |p.seen| <= 2049
            && (forall id :: Times(p.window, id) <= readers)
            && (p.marks >= 1 ==> p.flushes <= (p.marks - 1) / 2049)
  {
    RunOk(START, run, readers);
    var p := Run(START, run);
    forall id ensures Times(p.window, id) <= readers {
      assert Few(p, id, readers);
    }
    NonEmpty(START, run);
    assert p.marks >= 1 ==> p.marks - 1 >= 2049 * p.flushes;
  }

  lemma {:induction false} NonEmpty(p: Pool, run: seq<Action>)
    requires p.marks >= 1 ==> p.window != []
    ensures Run(p, run).marks >= 1 ==> Run(p, run).window != []
    decreases |run|
  {
    if run != [] {
      NonEmpty(Step(p, run[0]), run[1..]);
    }
  }

  // A run that reaches the bound: all readers look the id up before the first remembers it.

  function Takes(readers: nat, id: MsgId): seq<Action>
  {
    if readers == 0 then [] else Takes(readers - 1, id) + [Take(readers - 1, id)]
  }

  function Finishes(readers: nat): seq<Action>
  {
    if readers == 0 then [] else [Finish(readers - 1, true)] + Finishes(readers - 1)
  }

  lemma {:induction false} RunOneMore(p: Pool, run: seq<Action>, a: Action)
    ensures Run(p, run + [a]) == Step(Run(p, run), a)
    decreases |run|
  {
    if run == [] {
      assert [] + [a] == [a] && [a][1..] == [];
    } else {
      assert (run + [a])[1..] == run[1..] + [a];
      RunOneMore(Step(p, run[0]), run[1..], a);
    }
  }

  lemma {:induction false} RunConcat(p: Pool, a: seq<Action>, b: seq<Action>)
    ensures Run(p, a + b) == Run(Run(p, a), b)
    decreases |a|
  {
    if a == [] {
      assert a + b == b;
    } else {
      assert (a + b)[1..] == a[1..] + b;
      RunConcat(Step(p, a[0]), a[1..], b);
    }
  }

  /** Exactly the first `readers` readers are busy, all with the same message. */
  ghost predicate AllBusy(p: Pool, readers: nat, id: MsgId)
  {
    && (forall r: nat :: r in p.busy <==> r < readers)
    && (forall r :: r in p.busy ==> p.busy[r] == id)
  }

  lemma {:induction false} TakesRun(readers: nat, id: MsgId)
    requires id != ""
    ensures var p := Run(START, Takes(readers, id));
            AllBusy(p, readers, id) && p.seen == {} && p.window == []
  {
    if readers > 0 {
      TakesRun(readers - 1, id);
      RunOneMore(START, Takes(readers - 1, id), Take(readers - 1, id));
    }
  }

  lemma {:induction false} FinishesRun(p: Pool, readers: nat, id: MsgId)
    requires AllBusy(p, readers, id) && p.seen <= {id}
    ensures Times(Run(p, Finishes(readers)).window, id) == Times(p.window, id) + readers
    decreases readers
  {
    if readers > 0 {
      SmallSet(p.seen, id);
      TimesPush(p.window, id, id);
      assert Finishes(readers)[1..] == Finishes(readers - 1);
      FinishesRun(Step(p, Finish(readers - 1, true)), readers - 1, id);
    }
  }

  lemma SmallSet(s: set<MsgId>, id: MsgId)
    requires s <= {id}
    ensures |s| <= 1
  {
    if id in s {
      assert s == {id};
    } else {
      assert s == {};
    }
  }

  /** Every number of readers can apply one id that often within a window; a single reader
      applies it once. */
  lemma SharedReached(readers: nat, id: MsgId)
    requires id != ""
    ensures Times(Run(START, Takes(readers, id) + Finishes(readers)).window, id) == readers
  {
    TakesRun(readers, id);
    RunConcat(START, Takes(readers, id), Finishes(readers));
    FinishesRun(Run(START, Takes(readers, id)), readers, id);
  }

  /** Remembering an id: counted once, added to the set, which is emptied first if it holds more
      than 2048 ids. */
  lemma RememberExact(p: Pool, id: MsgId)
    ensures Remember(p, id)
            == if |p.seen| <= 2048
               then Pool(p.seen + {id}, p.window + [id], p.marks + 1, p.flushes, p.busy)
               else Pool({id}, [id], p.marks + 1, p.flushes + 1, p.busy)
  {
    assert {} + {id} == {id} && [] + [id] == [id];
  }
}
