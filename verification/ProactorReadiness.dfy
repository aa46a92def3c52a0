/** No lost readiness under edge triggering, and the error codes of aborted operations. */
module ProactorReadiness {
  import opened Proactor
  import opened ProactorLifetime
  import opened ProactorPlaces

  // ---------------------------------------------------------------- edges

  predicate InBatchFor(batch: seq<Ev>, d: nat, dir: Dir) {
    exists i :: 0 <= i < |batch| && batch[i].Evs? && batch[i].d == d && dir in batch[i].mask
  }

  predicate AtWork(cur: Cur, d: nat, dir: Dir) {
    cur.Dispatch? && cur.d == d && dir in cur.dirs
  }

  /** An operation is waiting on a direction that could make progress now. */
  predicate Stuck(descs: map<nat, Desc>, d: nat, dir: Dir) {
    d in descs && descs[d].registered && dir in descs[d].ready && Q(descs[d], dir) != []
  }

  /** The direction has an undelivered edge, or its dispatch is still to come. */
  predicate Attended(descs: map<nat, Desc>, batch: seq<Ev>, cur: Cur, d: nat, dir: Dir) {
    (d in descs && dir in descs[d].edge) || InBatchFor(batch, d, dir) || AtWork(cur, d, dir)
  }

  ghost predicate EdgesOk(descs: map<nat, Desc>, batch: seq<Ev>, cur: Cur) {
    forall d: nat, dir :: Stuck(descs, d, dir) ==> Attended(descs, batch, cur, d, dir)
  }

  ghost predicate NoLostReadiness(s: State) {
    EdgesOk(s.descs, s.loop.batch, s.loop.cur)
  }

  /** One descriptor changes; nothing becomes stuck there that is not attended. */
  lemma EdgesDesc(descs: map<nat, Desc>, descs': map<nat, Desc>, batch: seq<Ev>, cur: Cur, d: nat, x: Desc)
    requires EdgesOk(descs, batch, cur) && descs' == descs[d := x]
    requires forall dir :: Stuck(descs', d, dir) ==> Attended(descs', batch, cur, d, dir)
    ensures EdgesOk(descs', batch, cur)
  {
    forall k: nat, dir | Stuck(descs', k, dir) ensures Attended(descs', batch, cur, k, dir) {
      if k != d {
        assert Stuck(descs, k, dir);
        assert Attended(descs, batch, cur, k, dir);
      }
    }
  }

  /** Shrinking what is ready or waiting on one descriptor, or adding edges to it. */
  lemma EdgesShrink(descs: map<nat, Desc>, batch: seq<Ev>, cur: Cur, d: nat, x: Desc)
    requires EdgesOk(descs, batch, cur) && d in descs
    requires x.registered ==> descs[d].registered && x.edge >= descs[d].edge && x.ready <= descs[d].ready + x.edge
    requires x.registered ==> forall dir :: Q(x, dir) != [] ==> Q(descs[d], dir) != []
    ensures EdgesOk(descs[d := x], batch, cur)
  {
    var descs' := descs[d := x];
    forall dir | Stuck(descs', d, dir) ensures Attended(descs', batch, cur, d, dir) {
      if dir in descs[d].ready {
        assert Stuck(descs, d, dir);
        assert Attended(descs, batch, cur, d, dir);
      }
    }
    EdgesDesc(descs, descs', batch, cur, d, x);
  }

  lemma EdgesSubmit(s: State, l: Label)
    requires NoLostReadiness(s) && Enabled(s, l)
    requires l.Submit? || l.SubmitCarried? || l.Unbind? || l.Ready? || l.Unready?
    ensures NoLostReadiness(Apply(s, l))
  {
    var d := if l.SubmitCarried? then s.agents[l.t].d else l.d;
    EdgesShrink(s.descs, s.loop.batch, s.loop.cur, d, Apply(s, l).descs[d]);
  }

  lemma EdgesBind(s: State, l: Label)
    requires Core(s) && NoLostReadiness(s) && Enabled(s, l) && (l.Create? || l.BindOk? || l.BindIgnored?)
    ensures NoLostReadiness(Apply(s, l))
  {
    var s', d := Apply(s, l), if l.Create? then s.nextDesc else s.agents[l.t].d;
    assert forall dir :: Stuck(s'.descs, d, dir) ==> dir in s'.descs[d].edge;
    EdgesDesc(s.descs, s'.descs, s.loop.batch, s.loop.cur, d, s'.descs[d]);
  }

  lemma EdgesDestroy(descs: map<nat, Desc>, batch: seq<Ev>, cur: Cur, d: nat)
    requires EdgesOk(descs, batch, cur)
    ensures EdgesOk(descs - {d}, batch, cur)
  {
    var descs' := descs - {d};
    forall k: nat, dir | Stuck(descs', k, dir) ensures Attended(descs', batch, cur, k, dir) {
      assert Stuck(descs, k, dir);
      assert Attended(descs, batch, cur, k, dir);
    }
  }

  lemma EdgesPoll(s: State, evs: seq<Ev>)
    requires Core(s) && NoLostReadiness(s) && LoopAt(s, Top) && Deliverable(s, evs)
    ensures NoLostReadiness(DoPoll(s, evs))
  {
    var s' := DoPoll(s, evs);
    forall d: nat, dir | Stuck(s'.descs, d, dir) ensures Attended(s'.descs, evs, NoCur, d, dir) {
      assert Stuck(s.descs, d, dir);
      assert Attended(s.descs, s.loop.batch, s.loop.cur, d, dir);
      if i :| 0 <= i < |evs| && evs[i].Evs? && evs[i].d == d {
        assert dir in evs[i].mask;
      }
    }
  }

  /** The loop's bookkeeping changes; every attended stuck direction stays attended. */
  lemma EdgesLoop(descs: map<nat, Desc>, batch: seq<Ev>, cur: Cur, batch': seq<Ev>, cur': Cur)
    requires EdgesOk(descs, batch, cur)
    requires forall d: nat, dir :: Stuck(descs, d, dir) && (InBatchFor(batch, d, dir) || AtWork(cur, d, dir)) ==>
               Attended(descs, batch', cur', d, dir)
    ensures EdgesOk(descs, batch', cur')
  {
    forall d: nat, dir | Stuck(descs, d, dir) ensures Attended(descs, batch', cur', d, dir) {
      assert Attended(descs, batch, cur, d, dir);
    }
  }

  lemma EdgesStartEvent(s: State)
    requires NoLostReadiness(s) && Enabled(s, StartEvent)
    ensures NoLostReadiness(DoStartEvent(s))
  {
    var s', batch := DoStartEvent(s), s.loop.batch;
    forall d: nat, dir | InBatchFor(batch, d, dir) ensures Attended(s.descs, s'.loop.batch, s'.loop.cur, d, dir) {
      var i :| 0 <= i < |batch| && batch[i].Evs? && batch[i].d == d && dir in batch[i].mask;
      if i > 0 {
        assert s'.loop.batch[i-1] == batch[i];
      } else {
        match dir { case Rd => case Wr => case Pr => }
      }
    }
    EdgesLoop(s.descs, batch, NoCur, s'.loop.batch, s'.loop.cur);
  }

  lemma EdgesReadPipe(s: State)
    requires NoLostReadiness(s) && Enabled(s, ReadPipe)
    ensures NoLostReadiness(DoReadPipe(s))
  {
    var s', batch := DoReadPipe(s), s.loop.batch;
    forall d: nat, dir | InBatchFor(batch, d, dir) ensures InBatchFor(s'.loop.batch, d, dir) {
      var i :| 0 <= i < |batch| && batch[i].Evs? && batch[i].d == d && dir in batch[i].mask;
      assert s'.loop.batch[i-1] == batch[i];
    }
    EdgesLoop(s.descs, batch, s.loop.cur, s'.loop.batch, s'.loop.cur);
  }

  /** Moving on to the next direction: its queue is empty, or it would block. */
  lemma EdgesNextDir(s: State)
    requires NoLostReadiness(s) && Trying(s) && !Stuck(s.descs, s.loop.cur.d, s.loop.cur.dirs[0])
    ensures NoLostReadiness(DoNextDir(s))
  {
    EdgesLoop(s.descs, s.loop.batch, s.loop.cur, s.loop.batch, DoNextDir(s).loop.cur);
  }

  lemma EdgesDone(s: State, e: Err)
    requires Core(s) && NoLostReadiness(s) && Enabled(s, Done(e))
    ensures NoLostReadiness(Apply(s, Done(e)))
  {
    CurAlive(s);
    var d := s.loop.cur.d;
    EdgesShrink(s.descs, s.loop.batch, s.loop.cur, d, Apply(s, Done(e)).descs[d]);
  }

  lemma EdgesJoin(s: State)
    requires Core(s) && NoLostReadiness(s) && Enabled(s, Start) && s.loop.ops[0].Join?
    ensures NoLostReadiness(DoStart(s))
  {
    var s', d := DoStart(s), s.loop.ops[0].d;
    HeadAlive(s, d);
    forall dir | Stuck(s'.descs, d, dir) ensures Attended(s'.descs, s.loop.batch, s'.loop.cur, d, dir) {
      if dir != s.loop.ops[0].dir {
        assert Stuck(s.descs, d, dir);
        assert Attended(s.descs, s.loop.batch, NoCur, d, dir);
      }
    }
    EdgesLoop(s.descs, s.loop.batch, NoCur, s.loop.batch, s'.loop.cur);
    EdgesDesc(s.descs, s'.descs, s.loop.batch, s'.loop.cur, d, s'.descs[d]);
  }

  lemma EdgesStart(s: State)
    requires Core(s) && NoLostReadiness(s) && Enabled(s, Start)
    ensures NoLostReadiness(DoStart(s))
  {
    var s', item := DoStart(s), s.loop.ops[0];
    match item
    case Run(_) =>
    case Join(_, _, _) => EdgesJoin(s);
    case Close(d) =>
      HeadAlive(s, d);
      EdgesLoop(s.descs, s.loop.batch, NoCur, s.loop.batch, s'.loop.cur);
      EdgesShrink(s.descs, s.loop.batch, s'.loop.cur, d, s'.descs[d]);
  }

  lemma EdgesDrop(s: State)
    requires Core(s) && NoLostReadiness(s) && Enabled(s, Drop)
    ensures NoLostReadiness(Apply(s, Drop))
  {
    CurAlive(s);
    var d := s.loop.cur.d;
    EdgesLoop(s.descs, s.loop.batch, s.loop.cur, s.loop.batch, NoCur);
    EdgesShrink(s.descs, s.loop.batch, NoCur, d, Apply(s, Drop).descs[d]);
  }

  lemma EdgesLast(s: State)
    requires NoLostReadiness(s) && Enabled(s, Last)
    ensures NoLostReadiness(Apply(s, Last))
  {
    EdgesLoop(s.descs, s.loop.batch, s.loop.cur, s.loop.batch, NoCur);
    EdgesDestroy(s.descs, s.loop.batch, NoCur, s.loop.cur.d);
  }

  /** Every step except a partial answer keeps every ready direction attended. */
  lemma KeepReadiness(s: State, l: Label)
    requires Core(s) && NoLostReadiness(s) && Enabled(s, l) && !l.Partial?
    ensures NoLostReadiness(Apply(s, l))
  {
    if RunStep(l) {
      KeepRunReadiness(s, l);
    } else if LoopStep(l) {
      KeepPollReadiness(s, l);
    } else if l.BindFail? {
      EdgesDestroy(s.descs, s.loop.batch, s.loop.cur, s.agents[l.t].d);
    } else if l.Create? || l.BindOk? || l.BindIgnored? {
      EdgesBind(s, l);
    } else if !PostStep(l) && !l.Execute? {
      EdgesSubmit(s, l);
    }
  }

  lemma KeepRunReadiness(s: State, l: Label)
    requires Core(s) && NoLostReadiness(s) && Enabled(s, l) && RunStep(l) && !l.Partial?
    ensures NoLostReadiness(Apply(s, l))
  {
    if l.Start? {
      EdgesStart(s);
    } else if l.Done? {
      EdgesDone(s, l.e);
    } else if l.Drop? {
      EdgesDrop(s);
    } else if l.Last? {
      EdgesLast(s);
    } else {
      KeepTryReadiness(s, l);
    }
  }

  lemma KeepTryReadiness(s: State, l: Label)
    requires NoLostReadiness(s) && Enabled(s, l) && (l.Block? || l.NextDir? || l.EndDispatch?)
    ensures NoLostReadiness(Apply(s, l))
  {
    if l.EndDispatch? {
      EdgesEnd(s);
    } else {
      EdgesNextDir(s);
    }
  }

  lemma EdgesEnd(s: State)
    requires NoLostReadiness(s) && s.loop.cur.Dispatch? && s.loop.cur.dirs == []
    ensures NoLostReadiness(DoEndDispatch(s))
  {
    EdgesLoop(s.descs, s.loop.batch, s.loop.cur, s.loop.batch, DoEndDispatch(s).loop.cur);
  }

  lemma KeepPollReadiness(s: State, l: Label)
    requires Core(s) && NoLostReadiness(s) && Enabled(s, l) && LoopStep(l) && !RunStep(l)
    ensures NoLostReadiness(Apply(s, l))
  {
    if l.Poll? {
      EdgesPoll(s, l.evs);
    } else if l.StartEvent? {
      EdgesStartEvent(s);
    } else if l.ReadPipe? {
      EdgesReadPipe(s);
    }
  }

  // ---------------------------------------------------------------- errors of aborted operations

  /** Requeued operations carry an error. */
  predicate Failing(items: seq<Item>, err: map<nat, Err>) {
    forall i :: 0 <= i < |items| && items[i].Run? && items[i].op.Io? ==> ErrAt(err, items[i].op.id) != Success
  }

  ghost predicate AbortsFail(s: State) {
    && Failing(s.queue, s.err)
    && Failing(s.loop.ops, s.err)
    && forall t :: t in s.agents && s.agents[t].Posting? ==> Failing(s.agents[t].todo, s.err)
  }

  lemma {:induction false} OccMember(items: seq<Item>, i: nat, id: nat)
    requires i < |items| && Carries(items[i], id)
    ensures ItemOcc(items, id) > 0
  {
    if i > 0 {
      OccMember(items[1..], i - 1, id);
    }
  }

  lemma {:induction false} OpMember(q: seq<Op>, i: nat)
    requires i < |q|
    ensures OpOcc(q, q[i].id) > 0
  {
    if i > 0 {
      OpMember(q[1..], i - 1);
    }
  }

  lemma FailingSet(items: seq<Item>, err: map<nat, Err>, id: nat, e: Err)
    requires Failing(items, err) && ItemOcc(items, id) == 0
    ensures Failing(items, err[id := e])
  {
    forall i | 0 <= i < |items| && items[i].Run? && items[i].op.Io?
      ensures ErrAt(err[id := e], items[i].op.id) != Success
    {
      if items[i].op.id == id {
        OccMember(items, i, id);
      }
    }
  }

  /** Writing the error of an operation that is not in any run queue or posting thread. */
  lemma ErrElsewhere(s: State, id: nat, e: Err)
    requires AbortsFail(s) && OnePlace(s)
    requires id >= s.nextOp || (exists d, dir :: Occurs(s, Waits(d, dir), id) > 0)
             || (exists t :: t in s.agents && !s.agents[t].Posting? && Occurs(s, AtThread(t), id) > 0)
    ensures AbortsFail(s.(err := s.err[id := e]))
  {
    var loc: map<nat, Place> :| Placed(s, loc);
    assert Occurs(s, InQueue, id) == 0 && Occurs(s, InRun, id) == 0;
    FailingSet(s.queue, s.err, id, e);
    FailingSet(s.loop.ops, s.err, id, e);
    forall t | t in s.agents && s.agents[t].Posting? ensures Failing(s.agents[t].todo, s.err[id := e]) {
      assert Occurs(s, AtThread(t), id) == 0;
      FailingSet(s.agents[t].todo, s.err, id, e);
    }
  }

  /** Draining marks exactly the drained operations that carried no error. */
  lemma MarkedAborted(err: map<nat, Err>, q: seq<Op>, id: nat)
    ensures ErrAt(MarkAborted(err, q), id)
            == if (exists i :: 0 <= i < |q| && q[i].id == id) && ErrAt(err, id) == Success then Aborted else ErrAt(err, id)
  {
    assert (exists o :: o in q && o.id == id) <==> (exists i :: 0 <= i < |q| && q[i].id == id);
  }

  lemma FailingMarked(items: seq<Item>, err: map<nat, Err>, q: seq<Op>)
    requires Failing(items, err)
    ensures Failing(items, MarkAborted(err, q))
  {
    forall i | 0 <= i < |items| && items[i].Run? && items[i].op.Io?
      ensures ErrAt(MarkAborted(err, q), items[i].op.id) != Success
    {
      MarkedAborted(err, q, items[i].op.id);
    }
  }

  lemma DrainedFail(err: map<nat, Err>, q: seq<Op>)
    ensures Failing(Runs(q), MarkAborted(err, q))
  {
    forall i | 0 <= i < |q| ensures ErrAt(MarkAborted(err, q), q[i].id) != Success {
      MarkedAborted(err, q, q[i].id);
    }
  }

  lemma FailDestroy(s: State, t: nat, d: nat, extra: seq<Item>)
    requires AbortsFail(s) && d in s.descs
    requires forall i :: 0 <= i < |extra| ==> extra[i].Run? && extra[i].op.Plain?
    ensures AbortsFail(Destroy(s, t, d, extra))
  {
    var q := Waiting(s.descs[d]);
    FailingMarked(s.queue, s.err, q);
    FailingMarked(s.loop.ops, s.err, q);
    DrainedFail(s.err, q);
    forall k | k in s.agents && s.agents[k].Posting? ensures Failing(s.agents[k].todo, MarkAborted(s.err, q)) {
      FailingMarked(s.agents[k].todo, s.err, q);
    }
  }

  lemma FailBindFail(s: State, t: nat, d: nat, carry: Option<nat>, e: Err)
    requires Core(s) && OnePlace(s) && AbortsFail(s) && t in s.agents && s.agents[t] == Binding(d, carry)
    ensures AbortsFail(DoBindFail(s, t, d, carry, e))
  {
    var s1 := if Get(s, d).wr != [] then s.(err := s.err[Get(s, d).wr[0].id := e]) else s;
    if Get(s, d).wr != [] {
      OpMember(s.descs[d].wr, 0);
      assert Occurs(s, Waits(d, Wr), s.descs[d].wr[0].id) > 0;
      ErrElsewhere(s, s.descs[d].wr[0].id, e);
    }
    SameParts(s, s1);
    match carry
    case None => FailDestroy(s1, t, d, []);
    case Some(id) =>
      assert Occurs(s1, AtThread(t), id) > 0;
      ErrElsewhere(s1, id, e);
      FailDestroy(s1.(err := s1.err[id := e]), t, d, [Run(Plain(id))]);
  }

  lemma FailTry(s: State, e: Err)
    requires Core(s) && OnePlace(s) && AbortsFail(s) && Trying(s) && TryQ(s) != []
    ensures AbortsFail(s.(err := s.err[TryQ(s)[0].id := e]))
  {
    CurAlive(s);
    OpMember(TryQ(s), 0);
    assert Occurs(s, Waits(s.loop.cur.d, s.loop.cur.dirs[0]), TryQ(s)[0].id) > 0;
    ErrElsewhere(s, TryQ(s)[0].id, e);
  }

  lemma FailPost(s: State, l: Label)
    requires AbortsFail(s) && Enabled(s, l) && PostStep(l)
    ensures AbortsFail(Apply(s, l))
  {
  }

  lemma FailSubmit(s: State, l: Label)
    requires Core(s) && OnePlace(s) && AbortsFail(s) && Enabled(s, l) && !PostStep(l) && !LoopStep(l) && !l.BindFail?
    ensures AbortsFail(Apply(s, l))
  {
    if l.Execute? {
      ErrElsewhere(s, s.nextOp, l.e);
    }
  }

  lemma FailControl(s: State, l: Label)
    requires AbortsFail(s) && Enabled(s, l) && LoopStep(l) && !RunStep(l)
    ensures AbortsFail(Apply(s, l))
  {
  }

  lemma FailRun(s: State, l: Label)
    requires AbortsFail(s) && Enabled(s, l) && (l.Partial? || l.NextDir? || l.EndDispatch? || l.Drop?)
    ensures AbortsFail(Apply(s, l))
  {
    FailSame(s, Apply(s, l));
  }

  lemma FailSame(s: State, s': State)
    requires AbortsFail(s) && s'.queue == s.queue && s'.loop.ops == s.loop.ops && s'.agents == s.agents && s'.err == s.err
    ensures AbortsFail(s')
  {
  }

  lemma FailStart(s: State)
    requires AbortsFail(s) && s.loop.ops != []
    ensures AbortsFail(DoStart(s))
  {
    match s.loop.ops[0]
    case Run(_) =>
    case Join(_, _, _) =>
    case Close(_) =>
  }

  lemma FailWork(s: State, l: Label)
    requires Core(s) && OnePlace(s) && AbortsFail(s) && Enabled(s, l) && RunStep(l)
    ensures AbortsFail(Apply(s, l))
  {
    if l.Last? {
      CurAlive(s);
      FailDestroy(WithCur(s, NoCur), LOOP, s.loop.cur.d, []);
    } else if l.Done? {
      FailTry(s, l.e);
    } else if l.Block? {
      FailTry(s, Success);
    } else if l.Start? {
      FailStart(s);
    } else {
      FailRun(s, l);
    }
  }

  /** Every step keeps an error on every requeued operation. */
  lemma KeepAborts(s: State, l: Label)
    requires Core(s) && OnePlace(s) && AbortsFail(s) && Enabled(s, l)
    ensures AbortsFail(Apply(s, l))
  {
    if RunStep(l) {
      FailWork(s, l);
    } else if LoopStep(l) {
      FailControl(s, l);
    } else if PostStep(l) {
      FailPost(s, l);
    } else if l.BindFail? {
      FailBindFail(s, l.t, s.agents[l.t].d, s.agents[l.t].carry, l.e);
    } else {
      FailSubmit(s, l);
    }
  }
}
