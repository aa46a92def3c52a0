/** What every run of the proactor guarantees. */
module ProactorTheorems {
  import opened Proactor
  import opened ProactorLifetime
  import opened ProactorPlaces
  import opened ProactorOrder
  import opened ProactorReadiness

  ghost predicate Good(s: State) {
    Core(s) && OnePlace(s) && Filed(s) && InLine(s) && PushOrder(s) && AbortsFail(s)
  }

  lemma InitGood(s: State)
    requires Init(s)
    ensures Good(s) && NoLostReadiness(s)
  {
    InitPlaces(s);
    InitCore(s);
  }

  lemma InitPlaces(s: State)
    requires Init(s)
    ensures OnePlace(s)
  {
    var loc: map<nat, Place> := map[];
    assert Placed(s, loc);
  }

  lemma InitCore(s: State)
    requires Init(s)
    ensures Core(s)
  {
    forall d: nat ensures Shared(s.descs, d) == InFlight(s.agents, s.queue, s.loop.ops, s.loop.cur, d) {
      assert Holders(s.agents, d) == {};
    }
  }

  lemma StepGood(s: State, l: Label)
    requires Good(s) && Enabled(s, l)
    ensures Good(Apply(s, l))
  {
    KeepCore(s, l);
    KeepPlaces(s, l);
    KeepFiled(s, l);
    forall d: nat, dir ensures Mine(Apply(s, l).joined, d, dir) == LineOf(Apply(s, l), d, dir) {
      KeepLine(s, l, d, dir);
    }
    KeepPushOrder(s, l);
    KeepAborts(s, l);
  }

  lemma {:induction false} RunGood(tr: seq<State>, ls: seq<Label>, i: nat)
    requires IsRun(tr, ls) && i < |tr|
    ensures Good(tr[i])
  {
    if i == 0 {
      InitGood(tr[0]);
    } else {
      RunGood(tr, ls, i - 1);
      assert StepAt(tr, ls, i - 1);
      StepGood(tr[i-1], ls[i-1]);
    }
  }

  // ---------------------------------------------------------------- exactly once

  /** In every state of every run, every submitted operation is in exactly one place, once. */
  lemma ExactlyOnePlace(tr: seq<State>, ls: seq<Label>, i: nat, id: nat)
    requires IsRun(tr, ls) && i < |tr| && id < tr[i].nextOp
    ensures exists p :: Occurs(tr[i], p, id) == 1 && forall p' :: p' != p ==> Occurs(tr[i], p', id) == 0
  {
    RunGood(tr, ls, i);
    var loc: map<nat, Place> :| Placed(tr[i], loc);
    assert Occurs(tr[i], loc[id], id) == 1;
  }

  lemma StepKeepsFinished(s: State, l: Label)
    requires Enabled(s, l)
    ensures s.finished <= Apply(s, l).finished
  {
    if RunStep(l) {
      RunKeepsFinished(s, l);
    } else {
      assert Apply(s, l).finished == s.finished;
    }
  }

  lemma RunKeepsFinished(s: State, l: Label)
    requires Enabled(s, l) && RunStep(l)
    ensures s.finished <= Apply(s, l).finished
  {
    if l.Start? {
      StartKeepsFinished(s);
    } else if l.Done? {
      DoneKeepsFinished(s, s.loop.cur.d, s.loop.cur.dirs[0], l.e);
    }
  }

  lemma StartKeepsFinished(s: State)
    ensures s.finished <= DoStart(s).finished
  {
  }

  lemma DoneKeepsFinished(s: State, d: nat, dir: Dir, e: Err)
    ensures s.finished <= DoDone(s, d, dir, e).finished
  {
  }

  lemma PrefixTrans(a: seq<Op>, b: seq<Op>, c: seq<Op>)
    requires a <= b && b <= c
    ensures a <= c
  {
  }

  /** What has finished stays finished, in the same order. */
  lemma {:induction false} FinishedStays(tr: seq<State>, ls: seq<Label>, i: nat, j: nat)
    requires IsRun(tr, ls) && i <= j < |tr|
    ensures tr[i].finished <= tr[j].finished
  {
    if i < j {
      FinishedStays(tr, ls, i, j - 1);
      assert StepAt(tr, ls, j - 1);
      StepKeepsFinished(tr[j-1], ls[j-1]);
      PrefixTrans(tr[i].finished, tr[j-1].finished, tr[j].finished);
    }
  }

  /** Nothing finishes twice. */
  lemma FinishesAtMostOnce(tr: seq<State>, ls: seq<Label>, i: nat, id: nat)
    requires IsRun(tr, ls) && i < |tr|
    ensures OpOcc(tr[i].finished, id) <= 1
  {
    RunGood(tr, ls, i);
    var loc: map<nat, Place> :| Placed(tr[i], loc);
    assert Occurs(tr[i], Finished, id) <= 1;
  }

  // ---------------------------------------------------------------- descriptor lifetime

  /** In every state of every run the reference count of a live descriptor is the number of its
      references, and a freed descriptor has none: no submitter, no queued or running entry. */
  lemma RefcountExact(tr: seq<State>, ls: seq<Label>, i: nat, d: nat)
    requires IsRun(tr, ls) && i < |tr|
    ensures var s := tr[i];
            var inFlight := InFlight(s.agents, s.queue, s.loop.ops, s.loop.cur, d);
            if d in s.descs then s.descs[d].rc == inFlight + (if s.descs[d].owner != Gone then 1 else 0)
            else inFlight == 0
  {
    RunGood(tr, ls, i);
    var s := tr[i];
    assert Shared(s.descs, d) == InFlight(s.agents, s.queue, s.loop.ops, s.loop.cur, d);
  }

  /** No step of any run reads or writes the memory of a freed descriptor. */
  lemma NoUseAfterFree(tr: seq<State>, ls: seq<Label>, i: nat, d: nat)
    requires IsRun(tr, ls) && i < |ls| && Touches(tr[i], ls[i], d)
    ensures d in tr[i].descs
  {
    RunGood(tr, ls, i);
    assert StepAt(tr, ls, i);
    TouchedAlive(tr[i], ls[i], d);
  }

  lemma TouchedAlive(s: State, l: Label, d: nat)
    requires Core(s) && Enabled(s, l) && Touches(s, l, d)
    ensures d in s.descs
  {
    if l.Start? {
      HeadAlive(s, d);
    } else if RunStep(l) {
      CurAlive(s);
    }
  }

  /** No entry of the current event batch names a freed or deregistered descriptor. */
  lemma BatchAlive(tr: seq<State>, ls: seq<Label>, i: nat, k: nat)
    requires IsRun(tr, ls) && i < |tr| && k < |tr[i].loop.batch| && tr[i].loop.batch[k].Evs?
    ensures tr[i].loop.batch[k].d in tr[i].descs && tr[i].descs[tr[i].loop.batch[k].d].registered
  {
    RunGood(tr, ls, i);
  }

  lemma StepKeepsFreed(s: State, l: Label, d: nat)
    requires Core(s) && Enabled(s, l) && d < s.nextDesc && d !in s.descs
    ensures d !in Apply(s, l).descs && d < Apply(s, l).nextDesc
  {
    if RunStep(l) {
      WorkKeepsFreed(s, l, d);
    } else if LoopStep(l) || PostStep(l) {
      PollKeepsFreed(s, l, d);
    } else {
      SubmitKeepsFreed(s, l, d);
    }
  }

  lemma WorkKeepsFreed(s: State, l: Label, d: nat)
    requires Core(s) && Enabled(s, l) && RunStep(l) && d !in s.descs
    ensures d !in Apply(s, l).descs && Apply(s, l).nextDesc == s.nextDesc
  {
    if l.Start? {
      StartKeepsDescs(s);
    } else {
      CurAlive(s);
      RunKeepsFreed(s, l, d);
    }
  }

  lemma PollKeepsFreed(s: State, l: Label, d: nat)
    requires Enabled(s, l) && ((LoopStep(l) && !RunStep(l)) || PostStep(l)) && d !in s.descs
    ensures d !in Apply(s, l).descs && Apply(s, l).nextDesc == s.nextDesc
  {
  }

  lemma SubmitKeepsFreed(s: State, l: Label, d: nat)
    requires Core(s) && Enabled(s, l) && !LoopStep(l) && !PostStep(l) && d < s.nextDesc && d !in s.descs
    ensures d !in Apply(s, l).descs && d < Apply(s, l).nextDesc
  {
  }

  lemma RunKeepsFreed(s: State, l: Label, d: nat)
    requires Enabled(s, l) && RunStep(l) && !l.Start? && d !in s.descs && s.loop.cur.d in s.descs
    ensures d !in Apply(s, l).descs && Apply(s, l).nextDesc == s.nextDesc
  {
  }

  lemma StartKeepsDescs(s: State)
    requires Core(s) && s.loop.ops != []
    ensures DoStart(s).descs.Keys == s.descs.Keys && DoStart(s).nextDesc == s.nextDesc
  {
    if !s.loop.ops[0].Run? {
      HeadAlive(s, s.loop.ops[0].d);
    }
  }

  /** A freed descriptor stays freed: it is freed at most once. */
  lemma {:induction false} FreedForever(tr: seq<State>, ls: seq<Label>, i: nat, j: nat, d: nat)
    requires IsRun(tr, ls) && i <= j < |tr| && d < tr[i].nextDesc && d !in tr[i].descs
    ensures d !in tr[j].descs && d < tr[j].nextDesc
  {
    if i < j {
      FreedForever(tr, ls, i, j - 1, d);
      RunGood(tr, ls, j - 1);
      assert StepAt(tr, ls, j - 1);
      StepKeepsFreed(tr[j-1], ls[j-1], d);
    }
  }

  /** The error that operation `id`, waiting on the descriptor `d`, carries when the step drains
      it: the one it had, except that a failed `bind` first writes its own to the connect operation. */
  function ErrorAtDrain(s: State, l: Label, d: nat, id: nat): Err {
    if l.BindFail? && Get(s, d).wr != [] && Get(s, d).wr[0].id == id then l.e else ErrAt(s.err, id)
  }

  /** The thread `t` holds all of `w` to post again, in order. */
  predicate Holding(s: State, t: nat, w: seq<Op>) {
    w != [] ==> t in s.agents && s.agents[t].Posting? && Runs(w) <= s.agents[t].todo
  }

  /** The step that frees a descriptor drops its only reference and leaves nothing behind: the
      operations still waiting go, in order, to the thread that posts them again, each with the
      error it already carried, and with `Aborted` exactly when it carried none. */
  lemma NothingLeftBehind(tr: seq<State>, ls: seq<Label>, i: nat, d: nat)
    requires IsRun(tr, ls) && i < |ls| && d in tr[i].descs && d !in tr[i+1].descs
    ensures tr[i].descs[d].rc == 1 && d in tr[i+1].aborter
    ensures Holding(tr[i+1], tr[i+1].aborter[d], Waiting(tr[i].descs[d]))
    ensures forall o :: o in Waiting(tr[i].descs[d]) ==>
              ErrAt(tr[i+1].err, o.id)
              == var e := ErrorAtDrain(tr[i], ls[i], d, o.id); if e == Success then Aborted else e
  {
    RunGood(tr, ls, i);
    var s, l := tr[i], ls[i];
    assert StepAt(tr, ls, i);
    FreeingStep(s, l, d);
    if l.Last? {
      Drained(WithCur(s, NoCur), LOOP, d, []);
    } else {
      assert s.agents[l.t].carry.Some? ==> Waiting(s.descs[d]) == [];
      BindFailDrains(s, l.t, d, s.agents[l.t].carry, l.e);
    }
  }

  lemma Drained(s: State, t: nat, d: nat, extra: seq<Item>)
    requires d in s.descs
    ensures var s', w := Destroy(s, t, d, extra), Waiting(s.descs[d]);
            && s'.aborter == s.aborter[d := t] && Holding(s', t, w)
            && forall o :: o in w ==> ErrAt(s'.err, o.id) == if ErrAt(s.err, o.id) == Success then Aborted else ErrAt(s.err, o.id)
  {
    var w := Waiting(s.descs[d]);
    forall o | o in w
      ensures ErrAt(MarkAborted(s.err, w), o.id) == if ErrAt(s.err, o.id) == Success then Aborted else ErrAt(s.err, o.id)
    {
      MarkedAborted(s.err, w, o.id);
    }
  }

  lemma BindFailDrains(s: State, t: nat, d: nat, carry: Option<nat>, e: Err)
    requires d in s.descs && (carry.Some? ==> Waiting(s.descs[d]) == [])
    ensures var s', w := DoBindFail(s, t, d, carry, e), Waiting(s.descs[d]);
            && s'.aborter == s.aborter[d := t] && Holding(s', t, w)
            && forall o :: o in w ==>
                 ErrAt(s'.err, o.id) == var e0 := ErrorAtDrain(s, BindFail(t, e), d, o.id); if e0 == Success then Aborted else e0
  {
    var s1 := if Get(s, d).wr != [] then s.(err := s.err[Get(s, d).wr[0].id := e]) else s;
    match carry
    case None => Drained(s1, t, d, []);
    case Some(id) => Drained(s1.(err := s1.err[id := e]), t, d, [Run(Plain(id))]);
  }

  lemma FreeingStep(s: State, l: Label, d: nat)
    requires Core(s) && Enabled(s, l) && d in s.descs && d !in Apply(s, l).descs
    ensures (l.Last? && s.loop.cur.d == d) || (l.BindFail? && s.agents[l.t].d == d)
    ensures s.descs[d].rc == 1
  {
    if l.Start? {
      StartKeepsDescs(s);
    } else if RunStep(l) && !l.Last? {
      RunFreesNothing(s, l, d);
    } else if LoopStep(l) && !l.Last? {
      PollFreesNothing(s, l, d);
    } else if !l.Last? && !l.BindFail? {
      SubmitFreesNothing(s, l, d);
    }
  }

  lemma RunFreesNothing(s: State, l: Label, d: nat)
    requires Enabled(s, l) && RunStep(l) && !l.Start? && !l.Last? && d in s.descs
    ensures d in Apply(s, l).descs
  {
  }

  lemma PollFreesNothing(s: State, l: Label, d: nat)
    requires Enabled(s, l) && LoopStep(l) && !RunStep(l) && d in s.descs
    ensures d in Apply(s, l).descs
  {
  }

  lemma SubmitFreesNothing(s: State, l: Label, d: nat)
    requires Enabled(s, l) && !LoopStep(l) && !l.BindFail? && d in s.descs
    ensures d in Apply(s, l).descs
  {
  }

  // ---------------------------------------------------------------- engine count

  /** The engine count, plus a thread between the push and the bump of `op_add`, is the number of
      live descriptors plus the queued and not yet started entries; it is never negative. */
  lemma EngineCount(tr: seq<State>, ls: seq<Label>, i: nat)
    requires IsRun(tr, ls) && i < |tr|
    ensures var s := tr[i];
            s.count + InOpAdd(s.agents, s.lock) == |s.descs| + |s.queue| + |s.loop.ops|
    ensures tr[i].count >= 0
  {
    RunGood(tr, ls, i);
  }

  /** No thread has an operation in its hands. */
  ghost predicate EmptyHanded(s: State) {
    forall t: nat, id: nat :: Occurs(s, AtThread(t), id) == 0
  }

  ghost predicate AllFinishedOnce(s: State) {
    forall id: nat :: OpOcc(s.finished, id) == One(id < s.nextOp)
  }

  /** Whenever `engine::run` returns, no descriptor and no swapped-out entry is left. The queue is empty
      exactly when no thread is between the push and the bump of `op_add`, and every operation ever
      submitted has finished exactly once if and only if, besides, no thread has one in its hands. */
  lemma ReturnsWhenDone(tr: seq<State>, ls: seq<Label>, i: nat)
    requires IsRun(tr, ls) && i < |ls| && ls[i] == Return
    ensures tr[i].descs == map[] && tr[i].loop.ops == []
    ensures tr[i].queue == [] <==> InOpAdd(tr[i].agents, tr[i].lock) == 0
    ensures AllFinishedOnce(tr[i]) <==> tr[i].queue == [] && EmptyHanded(tr[i])
  {
    RunGood(tr, ls, i);
    var s := tr[i];
    assert StepAt(tr, ls, i);
    assert |s.descs| + |s.queue| + |s.loop.ops| == InOpAdd(s.agents, s.lock);
    assert |s.descs| == 0 && s.loop.ops == [];
    if s.queue == [] && EmptyHanded(s) {
      NowhereElse(s);
    }
    if AllFinishedOnce(s) {
      NothingElsewhere(s);
      if s.queue != [] {
        QueuedRun(s);
      }
    }
  }

  /** Operations that are nowhere else have finished. */
  lemma NowhereElse(s: State)
    requires OnePlace(s) && s.descs == map[] && s.loop.ops == [] && s.queue == [] && EmptyHanded(s)
    ensures AllFinishedOnce(s)
  {
    var loc: map<nat, Place> :| Placed(s, loc);
    forall id: nat ensures OpOcc(s.finished, id) == One(id < s.nextOp) {
      assert Occurs(s, Finished, id) == One(id in loc && loc[id] == Finished);
      if id in loc {
        assert Occurs(s, loc[id], id) == 1;
      }
    }
  }

  /** Operations that have all finished are nowhere else. */
  lemma NothingElsewhere(s: State)
    requires OnePlace(s) && AllFinishedOnce(s)
    ensures EmptyHanded(s) && forall id: nat :: Occurs(s, InQueue, id) == 0
  {
    var loc: map<nat, Place> :| Placed(s, loc);
    forall p, id: nat | p != Finished ensures Occurs(s, p, id) == 0 {
      assert Occurs(s, Finished, id) == OpOcc(s.finished, id) == One(id < s.nextOp);
      assert Occurs(s, Finished, id) == One(id in loc && loc[id] == Finished);
    }
  }

  /** With no descriptor left, what is queued is an operation to call. */
  lemma QueuedRun(s: State)
    requires Core(s) && s.descs == map[] && s.queue != []
    ensures s.queue[0].Run? && Occurs(s, InQueue, s.queue[0].op.id) > 0
  {
    forall d: nat ensures !Names(s.queue[0], d) {
      assert Shared(s.descs, d) == InFlight(s.agents, s.queue, s.loop.ops, s.loop.cur, d);
    }
    assert s.queue[0].Run? || Names(s.queue[0], s.queue[0].d);
  }

  // ---------------------------------------------------------------- wake-ups and readiness

  /** In every state of every run, a non-empty run queue implies a byte in the pipe, a thread that
      has pushed and not yet written, or a loop that has read the pipe and not yet swapped. */
  lemma WakeUpNeverLost(tr: seq<State>, ls: seq<Label>, i: nat)
    requires IsRun(tr, ls) && i < |tr| && tr[i].queue != []
    ensures WakePending(tr[i].pipe, tr[i].agents, tr[i].loop.exec)
  {
    RunGood(tr, ls, i);
  }

  /** A partial answer on a direction that has no other dispatch to come: no undelivered edge, no
      entry of the batch, not again in the dispatch under way. */
  predicate Loses(s: State, l: Label) {
    && l.Partial? && Trying(s) && Get(s, s.loop.cur.d).registered
    && var d, dir := s.loop.cur.d, s.loop.cur.dirs[0];
       dir !in Get(s, d).edge && !InBatchFor(s.loop.batch, d, dir) && dir !in s.loop.cur.dirs[1..]
  }

  /** A partial answer loses readiness exactly then. */
  lemma PartialLoses(s: State)
    requires Core(s) && NoLostReadiness(s) && Enabled(s, Partial)
    ensures NoLostReadiness(Apply(s, Partial)) <==> !Loses(s, Partial)
  {
    CurAlive(s);
    var s', d, dir := Apply(s, Partial), s.loop.cur.d, s.loop.cur.dirs[0];
    if Get(s, d).registered {
      assert Stuck(s'.descs, d, dir);
    }
    if !Loses(s, Partial) {
      EdgesLoop(s.descs, s.loop.batch, s.loop.cur, s'.loop.batch, s'.loop.cur);
    }
  }

  /** Over whole runs: every ready waiting direction is attended in all states of a run if and only if
      none of its steps is such an answer. */
  lemma ReadinessAlways(tr: seq<State>, ls: seq<Label>)
    requires IsRun(tr, ls)
    ensures (forall n :: 0 <= n < |tr| ==> NoLostReadiness(tr[n])) <==> (forall n :: 0 <= n < |ls| ==> !Loses(tr[n], ls[n]))
  {
    if forall n :: 0 <= n < |tr| ==> NoLostReadiness(tr[n]) {
      forall n | 0 <= n < |ls| ensures !Loses(tr[n], ls[n]) {
        RunGood(tr, ls, n);
        assert StepAt(tr, ls, n) && NoLostReadiness(tr[n]) && NoLostReadiness(tr[n+1]);
        if ls[n].Partial? {
          PartialLoses(tr[n]);
        }
      }
    }
    if forall n :: 0 <= n < |ls| ==> !Loses(tr[n], ls[n]) {
      forall n | 0 <= n < |tr| ensures NoLostReadiness(tr[n]) {
        ReadinessUpTo(tr, ls, n);
      }
    }
  }

  /** In particular, if `post_proc` answers false only when the call would block, a waiting operation on
      a ready registered direction always has an undelivered edge or a dispatch still to come. */
  lemma ReadinessNeverLost(tr: seq<State>, ls: seq<Label>, i: nat)
    requires IsRun(tr, ls) && i < |tr|
    requires forall k :: 0 <= k < i ==> !ls[k].Partial?
    ensures NoLostReadiness(tr[i])
  {
    ReadinessUpTo(tr, ls, i);
  }

  lemma {:induction false} ReadinessUpTo(tr: seq<State>, ls: seq<Label>, n: nat)
    requires IsRun(tr, ls) && n < |tr| && forall k :: 0 <= k < n ==> !Loses(tr[k], ls[k])
    ensures NoLostReadiness(tr[n])
  {
    if n == 0 {
      InitGood(tr[0]);
    } else {
      ReadinessUpTo(tr, ls, n - 1);
      RunGood(tr, ls, n - 1);
      assert StepAt(tr, ls, n - 1);
      if ls[n-1].Partial? {
        PartialLoses(tr[n-1]);
      } else {
        KeepReadiness(tr[n-1], ls[n-1]);
      }
    }
  }

  // ---------------------------------------------------------------- order

  /** Closures run in the order in which they were pushed. */
  lemma ClosuresRunInOrder(tr: seq<State>, ls: seq<Label>, i: nat)
    requires IsRun(tr, ls) && i < |tr|
    ensures tr[i].pushed == tr[i].started + tr[i].loop.ops + tr[i].queue
  {
    RunGood(tr, ls, i);
  }

  /** The operations of one descriptor and direction finish in the order in which they joined its
      queue, across normal completion, close, late submission and abort. */
  lemma OperationsFinishInOrder(tr: seq<State>, ls: seq<Label>, i: nat, d: nat, dir: Dir)
    requires IsRun(tr, ls) && i < |tr|
    ensures Mine(tr[i].finished, d, dir) <= Mine(tr[i].joined, d, dir)
  {
    RunGood(tr, ls, i);
  }
}
