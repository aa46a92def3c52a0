/** FIFO order over whole runs: closures run in push order, and the operations of one
    descriptor and direction finish in the order in which they joined its queue. */
module ProactorOrder {
  import opened Proactor
  import opened ProactorLifetime

  predicate Is(op: Op, d: nat, dir: Dir) {
    op.Io? && op.d == d && op.dir == dir
  }

  /** The operations of one descriptor and direction, in order. */
  function Mine(q: seq<Op>, d: nat, dir: Dir): seq<Op> {
    if q == [] then [] else Pick(q[0], d, dir) + Mine(q[1..], d, dir)
  }

  function Pick(op: Op, d: nat, dir: Dir): seq<Op> {
    if Is(op, d, dir) then [op] else []
  }

  function Abort(item: Item, d: nat, dir: Dir): seq<Op> {
    if item.Run? then Pick(item.op, d, dir) else []
  }

  /** The requeued (aborted) operations of one descriptor and direction, in order. */
  function Aborts(items: seq<Item>, d: nat, dir: Dir): seq<Op> {
    if items == [] then [] else Abort(items[0], d, dir) + Aborts(items[1..], d, dir)
  }

  lemma Assoc<T>(a: seq<T>, b: seq<T>, c: seq<T>)
    ensures (a + b) + c == a + (b + c)
  {
  }

  lemma {:induction false} MineConcat(a: seq<Op>, b: seq<Op>, d: nat, dir: Dir)
    ensures Mine(a + b, d, dir) == Mine(a, d, dir) + Mine(b, d, dir)
  {
    if a == [] {
      assert a + b == b;
    } else {
      MineConcat(a[1..], b, d, dir);
      assert (a + b)[0] == a[0] && (a + b)[1..] == a[1..] + b;
      Assoc(Pick(a[0], d, dir), Mine(a[1..], d, dir), Mine(b, d, dir));
    }
  }

  lemma {:induction false} AbortsConcat(a: seq<Item>, b: seq<Item>, d: nat, dir: Dir)
    ensures Aborts(a + b, d, dir) == Aborts(a, d, dir) + Aborts(b, d, dir)
  {
    if a == [] {
      assert a + b == b;
    } else {
      AbortsConcat(a[1..], b, d, dir);
      assert (a + b)[0] == a[0] && (a + b)[1..] == a[1..] + b;
      Assoc(Abort(a[0], d, dir), Aborts(a[1..], d, dir), Aborts(b, d, dir));
    }
  }

  lemma {:induction false} AbortsRuns(q: seq<Op>, d: nat, dir: Dir)
    ensures Aborts(Runs(q), d, dir) == Mine(q, d, dir)
  {
    if q != [] {
      AbortsRuns(q[1..], d, dir);
      assert Runs(q)[1..] == Runs(q[1..]);
    }
  }

  predicate Keyed(q: seq<Op>, d: nat, dir: Dir) {
    forall i :: 0 <= i < |q| ==> Is(q[i], d, dir)
  }

  lemma {:induction false} MineKeyed(q: seq<Op>, d: nat, dir: Dir, d': nat, dir': Dir)
    requires Keyed(q, d, dir)
    ensures Mine(q, d', dir') == if d' == d && dir' == dir then q else []
  {
    if q != [] {
      MineKeyed(q[1..], d, dir, d', dir');
      assert q == [q[0]] + q[1..];
    }
  }

  /** A requeued operation belongs to a descriptor whose last reference was released. */
  predicate Dead(item: Item, aborter: map<nat, nat>) {
    item.Run? && item.op.Io? ==> item.op.d in aborter
  }

  predicate AllDead(items: seq<Item>, aborter: map<nat, nat>) {
    forall i :: 0 <= i < |items| ==> Dead(items[i], aborter)
  }

  lemma {:induction false} NoAborts(items: seq<Item>, d: nat, dir: Dir)
    requires forall i :: 0 <= i < |items| && items[i].Run? && items[i].op.Io? ==> items[i].op.d != d
    ensures Aborts(items, d, dir) == []
  {
    if items != [] {
      NoAborts(items[1..], d, dir);
    }
  }

  /** What is still in the hands of the thread that released `d`. */
  function Unposted(agents: map<nat, Agent>, aborter: map<nat, nat>, d: nat): seq<Item> {
    if d in aborter && aborter[d] in agents && agents[aborter[d]].Posting? then agents[aborter[d]].todo else []
  }

  function Concat5(f: seq<Op>, o: seq<Op>, q: seq<Op>, u: seq<Op>, w: seq<Op>): seq<Op> {
    f + o + q + u + w
  }

  /** All operations of `(d, dir)` in the order in which they finish: finished ones, then
      requeued ones from the oldest stage to the newest, then those still waiting. */
  function LineOf(s: State, d: nat, dir: Dir): seq<Op> {
    Concat5(Mine(s.finished, d, dir), Aborts(s.loop.ops, d, dir), Aborts(s.queue, d, dir),
            Aborts(Unposted(s.agents, s.aborter, d), d, dir), Q(Get(s, d), dir))
  }

  ghost predicate InLine(s: State) {
    forall d: nat, dir :: Mine(s.joined, d, dir) == LineOf(s, d, dir)
  }

  predicate DescKeyed(x: Desc, d: nat) {
    Keyed(x.rd, d, Rd) && Keyed(x.wr, d, Wr) && Keyed(x.pr, d, Pr)
  }

  ghost predicate AllKeyed(descs: map<nat, Desc>) {
    forall d :: d in descs ==> DescKeyed(descs[d], d)
  }

  /** Requeued operations in a thread's hands were put there by its own last release. */
  predicate OwnAborts(t: nat, a: Agent, aborter: map<nat, nat>) {
    a.Posting? ==>
      forall i :: 0 <= i < |a.todo| ==>
        Dead(a.todo[i], aborter) && (a.todo[i].Run? && a.todo[i].op.Io? ==> aborter[a.todo[i].op.d] == t)
  }

  ghost predicate AllOwn(agents: map<nat, Agent>, aborter: map<nat, nat>) {
    forall t :: t in agents ==> OwnAborts(t, agents[t], aborter)
  }

  ghost predicate Buried(aborter: map<nat, nat>, descs: map<nat, Desc>, nextDesc: nat) {
    forall d :: d in aborter ==> d !in descs && d < nextDesc
  }

  ghost predicate Filed(s: State) {
    && AllKeyed(s.descs)
    && AllDead(s.queue, s.aborter)
    && AllDead(s.loop.ops, s.aborter)
    && AllOwn(s.agents, s.aborter)
    && Buried(s.aborter, s.descs, s.nextDesc)
  }

  /** Closures run in the order in which they were pushed. */
  predicate PushOrder(s: State) {
    s.pushed == s.started + s.loop.ops + s.queue
  }

  // ---------------------------------------------------------------- preservation of Filed

  lemma FiledDestroy(s: State, t: nat, d: nat, extra: seq<Item>)
    requires Filed(s) && d in s.descs && d < s.nextDesc
    requires t in s.agents ==> s.agents[t].Binding?
    requires forall i :: 0 <= i < |extra| ==> extra[i].Run? && extra[i].op.Plain?
    ensures Filed(Destroy(s, t, d, extra))
  {
    var aborter, todo := s.aborter[d := t], Runs(Waiting(s.descs[d])) + extra;
    assert DescKeyed(s.descs[d], d);
    DeadGrows(s.queue, s.aborter, d, t);
    DeadGrows(s.loop.ops, s.aborter, d, t);
    OwnGrows(s.agents, s.aborter, d, t);
    DrainedOwn(s.descs[d], d, t, extra, aborter);
    OwnUpdate(s.agents, aborter, t, Posting(todo, WantLock, 0));
    BuriedGrows(s.aborter, s.descs, s.nextDesc, d, t);
  }

  lemma DeadGrows(items: seq<Item>, aborter: map<nat, nat>, d: nat, t: nat)
    requires AllDead(items, aborter)
    ensures AllDead(items, aborter[d := t])
  {
  }

  /** What a thread drains from a descriptor is its own. */
  lemma DrainedOwn(x: Desc, d: nat, t: nat, extra: seq<Item>, aborter: map<nat, nat>)
    requires DescKeyed(x, d) && d in aborter && aborter[d] == t
    requires forall i :: 0 <= i < |extra| ==> extra[i].Run? && extra[i].op.Plain?
    ensures OwnAborts(t, Posting(Runs(Waiting(x)) + extra, WantLock, 0), aborter)
  {
    var w := Waiting(x);
    assert forall i :: 0 <= i < |w| ==> w[i].Io? && w[i].d == d;
  }

  lemma OwnUpdate(agents: map<nat, Agent>, aborter: map<nat, nat>, t: nat, a: Agent)
    requires AllOwn(agents, aborter) && OwnAborts(t, a, aborter)
    ensures AllOwn(agents[t := a], aborter) && AllOwn(agents - {t}, aborter)
  {
  }

  lemma BuriedGrows(aborter: map<nat, nat>, descs: map<nat, Desc>, nextDesc: nat, d: nat, t: nat)
    requires Buried(aborter, descs, nextDesc) && d < nextDesc
    ensures Buried(aborter[d := t], descs - {d}, nextDesc)
  {
  }

  lemma OwnGrows(agents: map<nat, Agent>, aborter: map<nat, nat>, d: nat, t: nat)
    requires AllOwn(agents, aborter) && d !in aborter
    ensures AllOwn(agents, aborter[d := t])
  {
    forall k | k in agents ensures OwnAborts(k, agents[k], aborter[d := t]) {
      assert OwnAborts(k, agents[k], aborter);
    }
  }

  /** Only the waiting operations of a descriptor matter here. */
  lemma FiledDesc(s: State, d: nat, x: Desc)
    requires Filed(s) && d in s.descs && DescKeyed(x, d)
    ensures Filed(WithDesc(s, d, x))
  {
  }

  lemma FiledUnlink(s: State, d: nat, x: Desc)
    requires Filed(s) && d in s.descs
    requires x.rd == s.descs[d].rd && x.wr == s.descs[d].wr && x.pr == s.descs[d].pr
    ensures Filed(WithDesc(s, d, x))
  {
    assert DescKeyed(s.descs[d], d);
    FiledDesc(s, d, x);
  }

  lemma FiledAgent(s: State, t: nat, a: Agent)
    requires Filed(s) && OwnAborts(t, a, s.aborter)
    ensures Filed(WithAgent(s, t, a))
  {
  }

  lemma FiledSubmit(s: State, l: Label)
    requires Core(s) && Filed(s) && Enabled(s, l)
    requires l.Submit? || l.SubmitCarried? || l.Execute? || l.Unbind?
    ensures Filed(Apply(s, l))
  {
    if l.Submit? || l.Unbind? {
      FiledUnlink(s, l.d, Apply(s, l).descs[l.d]);
    } else if l.SubmitCarried? {
      FiledUnlink(s, s.agents[l.t].d, Apply(s, l).descs[s.agents[l.t].d]);
    }
    FiledAgent(s.(descs := Apply(s, l).descs), l.t, Apply(s, l).agents[l.t]);
  }

  lemma FiledCreate(s: State, t: nat, kind: CreateKind)
    requires Core(s) && Filed(s)
    ensures Filed(DoCreate(s, t, kind))
  {
  }

  lemma FiledKernel(s: State, l: Label)
    requires Filed(s) && Enabled(s, l) && (l.Ready? || l.Unready?)
    ensures Filed(Apply(s, l))
  {
    FiledUnlink(s, l.d, Apply(s, l).descs[l.d]);
  }

  lemma FiledBound(s: State, l: Label)
    requires Core(s) && Filed(s) && Enabled(s, l) && (l.BindOk? || l.BindIgnored?)
    ensures Filed(Apply(s, l))
  {
    var d := s.agents[l.t].d;
    FiledUnlink(s, d, Apply(s, l).descs[d]);
  }

  lemma FiledBind(s: State, l: Label)
    requires Core(s) && Filed(s) && Enabled(s, l)
    requires l.Create? || l.BindOk? || l.BindIgnored? || l.Ready? || l.Unready?
    ensures Filed(Apply(s, l))
  {
    if l.Create? {
      FiledCreate(s, l.t, l.kind);
    } else if l.Ready? || l.Unready? {
      FiledKernel(s, l);
    } else {
      FiledBound(s, l);
    }
  }

  lemma FiledPush(s: State, t: nat)
    requires Filed(s) && InPhase(s, t, Holding) && s.agents[t].todo != []
    ensures Filed(DoPush(s, t, s.agents[t].todo, s.agents[t].sent))
  {
    assert OwnAborts(t, s.agents[t], s.aborter);
  }

  lemma FiledPost(s: State, l: Label)
    requires Filed(s) && Enabled(s, l) && PostStep(l)
    ensures Filed(Apply(s, l))
  {
    assert OwnAborts(l.t, s.agents[l.t], s.aborter);
    if l.Push? {
      FiledPush(s, l.t);
    }
  }

  lemma FiledPop(s: State)
    requires Filed(s) && s.loop.ops != []
    ensures Filed(s.(loop := s.loop.(ops := s.loop.ops[1..])))
  {
  }

  lemma FiledStart(s: State)
    requires Core(s) && Filed(s) && s.loop.ops != []
    ensures Filed(DoStart(s))
  {
    var s1 := s.(loop := s.loop.(ops := s.loop.ops[1..]));
    FiledPop(s);
    match s.loop.ops[0]
    case Run(_) =>
    case Join(id, d, dir) =>
      HeadAlive(s, d);
      assert DescKeyed(s.descs[d], d);
      var x := s.descs[d];
      FiledDesc(s1, d, SetQ(x, dir, Q(x, dir) + [Io(id, d, dir)]));
    case Close(d) =>
      HeadAlive(s, d);
      FiledUnlink(s1, d, DoClose(s1, d).descs[d]);
  }

  lemma FiledDone(s: State, d: nat, dir: Dir, e: Err)
    requires Filed(s) && d in s.descs
    ensures Filed(DoDone(s, d, dir, e))
  {
  }

  /** Steps that leave alone everything that is filed. */
  lemma FiledSame(s: State, s': State)
    requires Filed(s) && s'.descs == s.descs && s'.queue == s.queue && s'.loop.ops == s.loop.ops
    requires s'.agents == s.agents && s'.aborter == s.aborter && s'.nextDesc == s.nextDesc
    ensures Filed(s')
  {
  }

  lemma FiledSwap(s: State)
    requires Filed(s)
    ensures Filed(DoSwap(s))
  {
  }

  lemma FiledControl(s: State, l: Label)
    requires Filed(s) && Enabled(s, l) && LoopStep(l) && !RunStep(l)
    ensures Filed(Apply(s, l))
  {
    if l.Poll? {
      FiledPoll(s, l.evs);
    } else if l.Swap? {
      FiledSwap(s);
    } else {
      FiledSame(s, Apply(s, l));
    }
  }

  lemma FiledNextDir(s: State)
    requires Filed(s)
    ensures Filed(DoNextDir(s))
  {
    FiledSame(s, DoNextDir(s));
  }

  lemma FiledEnd(s: State)
    requires Filed(s)
    ensures Filed(DoEndDispatch(s))
  {
    FiledSame(s, DoEndDispatch(s));
  }

  lemma FiledBlock(s: State)
    requires Filed(s) && Enabled(s, Block)
    ensures Filed(Apply(s, Block))
  {
    FiledNextDir(s);
    FiledSame(DoNextDir(s), Apply(s, Block));
  }

  lemma FiledTry(s: State, l: Label)
    requires Filed(s) && Enabled(s, l) && (l.Block? || l.Partial? || l.NextDir? || l.EndDispatch?)
    ensures Filed(Apply(s, l))
  {
    if l.Block? {
      FiledBlock(s);
    } else if l.EndDispatch? {
      FiledEnd(s);
    } else {
      FiledNextDir(s);
    }
  }

  lemma FiledPoll(s: State, evs: seq<Ev>)
    requires Filed(s)
    ensures Filed(DoPoll(s, evs).(loop := s.loop))
  {
  }

  lemma KeepFiled(s: State, l: Label)
    requires Core(s) && Filed(s) && Enabled(s, l)
    ensures Filed(Apply(s, l))
  {
    if l.BindFail? || l.Last? {
      FiledFree(s, l);
    } else if l.Start? || l.Done? || l.Drop? {
      FiledWork(s, l);
    } else {
      KeepFiledRest(s, l);
    }
  }

  lemma FiledFree(s: State, l: Label)
    requires Core(s) && Filed(s) && Enabled(s, l) && (l.BindFail? || l.Last?)
    ensures Filed(Apply(s, l))
  {
    if l.BindFail? {
      FiledBindFail(s, l.t, s.agents[l.t].d, s.agents[l.t].carry, l.e);
    } else {
      CurAlive(s);
      FiledDestroy(WithCur(s, NoCur), LOOP, s.loop.cur.d, []);
    }
  }

  lemma FiledWork(s: State, l: Label)
    requires Core(s) && Filed(s) && Enabled(s, l) && (l.Start? || l.Done? || l.Drop?)
    ensures Filed(Apply(s, l))
  {
    if l.Start? {
      FiledStart(s);
    } else if l.Done? {
      CurAlive(s);
      FiledDone(s, s.loop.cur.d, s.loop.cur.dirs[0], l.e);
    } else {
      CurAlive(s);
      FiledUnlink(s, s.loop.cur.d, DoDrop(s, s.loop.cur.d).descs[s.loop.cur.d]);
    }
  }

  lemma KeepFiledRest(s: State, l: Label)
    requires Core(s) && Filed(s) && Enabled(s, l)
    requires !l.BindFail? && !l.Last? && !l.Start? && !l.Done? && !l.Drop?
    ensures Filed(Apply(s, l))
  {
    if RunStep(l) {
      FiledTry(s, l);
    } else if LoopStep(l) {
      FiledControl(s, l);
    } else if PostStep(l) {
      FiledPost(s, l);
    } else if l.Submit? || l.SubmitCarried? || l.Execute? || l.Unbind? {
      FiledSubmit(s, l);
    } else {
      FiledBind(s, l);
    }
  }

  lemma FiledBindFail(s: State, t: nat, d: nat, carry: Option<nat>, e: Err)
    requires Core(s) && Filed(s) && t in s.agents && s.agents[t] == Binding(d, carry)
    ensures Filed(DoBindFail(s, t, d, carry, e))
  {
    var s1 := if Get(s, d).wr != [] then s.(err := s.err[Get(s, d).wr[0].id := e]) else s;
    match carry
    case None => FiledDestroy(s1, t, d, []);
    case Some(id) => FiledDestroy(s1.(err := s1.err[id := e]), t, d, [Run(Plain(id))]);
  }

  // ---------------------------------------------------------------- preservation of InLine

  /** No requeued operation belongs to a live descriptor. */
  lemma LiveHasNoAborts(s: State, d: nat, dir: Dir)
    requires Filed(s) && d in s.descs
    ensures Aborts(s.loop.ops, d, dir) == [] && Aborts(s.queue, d, dir) == []
    ensures Unposted(s.agents, s.aborter, d) == []
  {
    NoAborts(s.loop.ops, d, dir);
    NoAborts(s.queue, d, dir);
  }

  /** Work that holds no requeued operation adds nothing to any line. */
  lemma NewWork(agents: map<nat, Agent>, aborter: map<nat, nat>, t: nat, a: Agent, d: nat, dir: Dir)
    requires t in agents ==> !agents[t].Posting?
    requires a.Posting? ==> forall i :: 0 <= i < |a.todo| && a.todo[i].Run? ==> !Is(a.todo[i].op, d, dir)
    ensures Aborts(Unposted(agents[t := a], aborter, d), d, dir) == Aborts(Unposted(agents, aborter, d), d, dir)
  {
    if d in aborter && aborter[d] == t && a.Posting? {
      NoAbortsOf(a.todo, d, dir);
    }
  }

  lemma {:induction false} NoAbortsOf(items: seq<Item>, d: nat, dir: Dir)
    requires forall i :: 0 <= i < |items| && items[i].Run? ==> !Is(items[i].op, d, dir)
    ensures Aborts(items, d, dir) == []
  {
    if items != [] {
      NoAbortsOf(items[1..], d, dir);
    }
  }

  lemma Shift(f: seq<Op>, o: seq<Op>, q: seq<Op>, h: seq<Op>, u: seq<Op>, w: seq<Op>)
    ensures Concat5(f, o, q + h, u, w) == Concat5(f, o, q, h + u, w)
    ensures Concat5(f, h + o, q, u, w) == Concat5(f + h, o, q, u, w)
    ensures Concat5(f, [], q, u, w) == Concat5(f, q, [], u, w)
    ensures Concat5(f, o, q, [], w) == Concat5(f, o, q, w, [])
    ensures Concat5(f, [], [], [], h + w) == Concat5(f + h, [], [], [], w)
    ensures Concat5(f, o, q, u, w + h) == Concat5(f, o, q, u, w) + h
  {
  }

  /** Pushing takes the head off the line's unposted part, if it belongs to the line at all. */
  lemma UnpostedPush(s: State, t: nat, a: Agent, d: nat, dir: Dir)
    requires Filed(s) && t in s.agents && s.agents[t].Posting? && s.agents[t].todo != []
    requires a.Posting? && a.todo == s.agents[t].todo[1..]
    ensures Aborts(Unposted(s.agents, s.aborter, d), d, dir)
            == Abort(s.agents[t].todo[0], d, dir) + Aborts(Unposted(s.agents[t := a], s.aborter, d), d, dir)
  {
    assert OwnAborts(t, s.agents[t], s.aborter);
    if !(d in s.aborter && s.aborter[d] == t) {
      assert Abort(s.agents[t].todo[0], d, dir) == [];
    }
  }

  lemma QueuePush(queue: seq<Item>, item: Item, d: nat, dir: Dir)
    ensures Aborts(queue + [item], d, dir) == Aborts(queue, d, dir) + Abort(item, d, dir)
  {
    AbortsConcat(queue, [item], d, dir);
    assert [item][1..] == [];
    assert Aborts([item], d, dir) == Abort(item, d, dir);
  }

  lemma FinishOne(finished: seq<Op>, op: Op, d: nat, dir: Dir)
    ensures Mine(finished + [op], d, dir) == Mine(finished, d, dir) + Pick(op, d, dir)
  {
    MineConcat(finished, [op], d, dir);
    assert [op][1..] == [];
    assert Mine([op], d, dir) == Pick(op, d, dir);
  }

  lemma LinePush(s: State, t: nat, d: nat, dir: Dir)
    requires Filed(s) && InPhase(s, t, Holding) && s.agents[t].todo != []
    ensures LineOf(DoPush(s, t, s.agents[t].todo, s.agents[t].sent), d, dir) == LineOf(s, d, dir)
  {
    var todo := s.agents[t].todo;
    var a := Posting(todo[1..], Added, s.agents[t].sent + 1);
    QueuePush(s.queue, todo[0], d, dir);
    UnpostedPush(s, t, a, d, dir);
    Shift(Mine(s.finished, d, dir), Aborts(s.loop.ops, d, dir), Aborts(s.queue, d, dir), Abort(todo[0], d, dir),
          Aborts(Unposted(s.agents[t := a], s.aborter, d), d, dir), Q(Get(s, d), dir));
  }

  lemma LineStartRun(s: State, d: nat, dir: Dir)
    requires s.loop.ops != [] && s.loop.ops[0].Run?
    ensures LineOf(DoStart(s), d, dir) == LineOf(s, d, dir)
  {
    var s', item := DoStart(s), s.loop.ops[0];
    var f, o, h := Mine(s.finished, d, dir), Aborts(s'.loop.ops, d, dir), Abort(item, d, dir);
    var q, u, w := Aborts(s.queue, d, dir), Aborts(Unposted(s.agents, s.aborter, d), d, dir), Q(Get(s, d), dir);
    calc {
      LineOf(s', d, dir);
      { FinishOne(s.finished, item.op, d, dir); }
      Concat5(f + h, o, q, u, w);
      { Shift(f, o, q, h, u, w); }
      Concat5(f, h + o, q, u, w);
      LineOf(s, d, dir);
    }
  }

  lemma SkipHead(items: seq<Item>, d: nat, dir: Dir)
    requires items != [] && !items[0].Run?
    ensures Aborts(items, d, dir) == Aborts(items[1..], d, dir)
  {
    assert Abort(items[0], d, dir) == [];
  }

  lemma LineStartJoin(s: State, d: nat, dir: Dir)
    requires s.loop.ops != [] && s.loop.ops[0].Join?
    ensures var item := s.loop.ops[0];
            LineOf(DoStart(s), d, dir)
            == LineOf(s, d, dir) + if item.d == d && item.dir == dir then [Io(item.id, d, dir)] else []
  {
    var s', item := DoStart(s), s.loop.ops[0];
    var h := if item.d == d && item.dir == dir then [Io(item.id, d, dir)] else [];
    var f, o := Mine(s.finished, d, dir), Aborts(s.loop.ops, d, dir);
    var q, u, w := Aborts(s.queue, d, dir), Aborts(Unposted(s.agents, s.aborter, d), d, dir), Q(Get(s, d), dir);
    SkipHead(s.loop.ops, d, dir);
    assert Q(Get(s', d), dir) == w + h;
    assert LineOf(s', d, dir) == Concat5(f, o, q, u, w + h);
    Shift(f, o, q, h, u, w);
  }

  lemma LineStartClose(s: State, d: nat, dir: Dir)
    requires s.loop.ops != [] && s.loop.ops[0].Close?
    ensures LineOf(DoStart(s), d, dir) == LineOf(s, d, dir)
  {
    SkipHead(s.loop.ops, d, dir);
    assert Q(Get(DoStart(s), d), dir) == Q(Get(s, d), dir);
  }

  lemma LineStart(s: State, d: nat, dir: Dir)
    requires s.loop.ops != [] && Mine(s.joined, d, dir) == LineOf(s, d, dir)
    ensures Mine(DoStart(s).joined, d, dir) == LineOf(DoStart(s), d, dir)
  {
    match s.loop.ops[0]
    case Run(_) => LineStartRun(s, d, dir);
    case Join(id, d', dir') =>
      FinishOne(s.joined, Io(id, d', dir'), d, dir);
      LineStartJoin(s, d, dir);
    case Close(_) => LineStartClose(s, d, dir);
  }

  lemma LineSwap(s: State, d: nat, dir: Dir)
    requires s.loop.ops == []
    ensures LineOf(DoSwap(s), d, dir) == LineOf(s, d, dir)
  {
    Shift(Mine(s.finished, d, dir), [], Aborts(s.queue, d, dir), [],
          Aborts(Unposted(s.agents, s.aborter, d), d, dir), Q(Get(s, d), dir));
  }

  lemma LineDone(s: State, k: nat, kdir: Dir, e: Err, d: nat, dir: Dir)
    requires Filed(s) && k in s.descs && Q(s.descs[k], kdir) != []
    ensures LineOf(DoDone(s, k, kdir, e), d, dir) == LineOf(s, d, dir)
  {
    var s', q := DoDone(s, k, kdir, e), Q(s.descs[k], kdir);
    assert DescKeyed(s.descs[k], k);
    FinishOne(s.finished, q[0], d, dir);
    if d == k && dir == kdir {
      var f := Mine(s.finished, d, dir);
      LiveHasNoAborts(s, d, dir);
      calc {
        LineOf(s', d, dir);
        Concat5(f + [q[0]], [], [], [], q[1..]);
        { Shift(f, [], [], [q[0]], [], q[1..]); }
        Concat5(f, [], [], [], [q[0]] + q[1..]);
        { assert [q[0]] + q[1..] == q; }
        LineOf(s, d, dir);
      }
    } else {
      assert Mine(s'.finished, d, dir) == Mine(s.finished, d, dir);
      assert Q(Get(s', d), dir) == Q(Get(s, d), dir);
    }
  }

  /** The waiting operations of a descriptor, filtered for one line. */
  lemma WaitingMine(x: Desc, k: nat, d: nat, dir: Dir)
    requires DescKeyed(x, k)
    ensures Mine(Waiting(x), d, dir) == if d == k then Q(x, dir) else []
  {
    MineConcat(x.rd + x.wr, x.pr, d, dir);
    MineConcat(x.rd, x.wr, d, dir);
    MineKeyed(x.rd, k, Rd, d, dir);
    MineKeyed(x.wr, k, Wr, d, dir);
    MineKeyed(x.pr, k, Pr, d, dir);
  }

  /** After the last release, the drained operations are the unposted part of the line of `k`,
      and other lines are not affected. */
  /** What the draining thread takes on for a line is the line's waiting part. */
  lemma DrainedLine(x: Desc, k: nat, extra: seq<Item>, d: nat, dir: Dir)
    requires DescKeyed(x, k) && forall i :: 0 <= i < |extra| ==> extra[i].Run? && extra[i].op.Plain?
    ensures Aborts(Runs(Waiting(x)) + extra, d, dir) == if d == k then Q(x, dir) else []
  {
    WaitingMine(x, k, d, dir);
    AbortsConcat(Runs(Waiting(x)), extra, d, dir);
    AbortsRuns(Waiting(x), d, dir);
    NoAbortsOf(extra, d, dir);
  }

  lemma UnpostedDestroy(s: State, t: nat, k: nat, extra: seq<Item>, d: nat, dir: Dir)
    requires Filed(s) && k in s.descs
    requires t in s.agents ==> s.agents[t].Binding?
    requires forall i :: 0 <= i < |extra| ==> extra[i].Run? && extra[i].op.Plain?
    ensures var s' := Destroy(s, t, k, extra);
            Aborts(Unposted(s'.agents, s'.aborter, d), d, dir)
            == if d == k then Q(s.descs[k], dir) else Aborts(Unposted(s.agents, s.aborter, d), d, dir)
    ensures d == k ==> Unposted(s.agents, s.aborter, d) == []
  {
    assert DescKeyed(s.descs[k], k);
    DrainedLine(s.descs[k], k, extra, d, dir);
  }

  lemma LineDestroy(s: State, t: nat, k: nat, extra: seq<Item>, d: nat, dir: Dir)
    requires Filed(s) && k in s.descs
    requires t in s.agents ==> s.agents[t].Binding?
    requires forall i :: 0 <= i < |extra| ==> extra[i].Run? && extra[i].op.Plain?
    ensures LineOf(Destroy(s, t, k, extra), d, dir) == LineOf(s, d, dir)
  {
    UnpostedDestroy(s, t, k, extra, d, dir);
    if d == k {
      Shift(Mine(s.finished, d, dir), Aborts(s.loop.ops, d, dir), Aborts(s.queue, d, dir), [], [], Q(Get(s, d), dir));
    }
  }

  /** A line depends on these components alone. */
  lemma LineSame(s: State, s': State, d: nat, dir: Dir)
    requires s'.finished == s.finished && s'.loop.ops == s.loop.ops && s'.queue == s.queue
    requires Aborts(Unposted(s'.agents, s'.aborter, d), d, dir) == Aborts(Unposted(s.agents, s.aborter, d), d, dir)
    requires Q(Get(s', d), dir) == Q(Get(s, d), dir)
    ensures LineOf(s', d, dir) == LineOf(s, d, dir)
  {
  }

  lemma LineCreate(s: State, t: nat, kind: CreateKind, d: nat, dir: Dir)
    requires Core(s) && Filed(s) && Idle(s, t) && Mine(s.joined, d, dir) == LineOf(s, d, dir)
    ensures Mine(DoCreate(s, t, kind).joined, d, dir) == LineOf(DoCreate(s, t, kind), d, dir)
  {
    var s', op := DoCreate(s, t, kind), Io(s.nextOp, s.nextDesc, Wr);
    NewWork(s.agents, s.aborter, t, s'.agents[t], d, dir);
    if kind == Connect && d == s.nextDesc && dir == Wr {
      FinishOne(s.joined, op, d, dir);
      assert Q(Get(s, d), dir) + [op] == Q(Get(s', d), dir);
      Shift(Mine(s.finished, d, dir), Aborts(s.loop.ops, d, dir), Aborts(s.queue, d, dir), [op],
            Aborts(Unposted(s.agents, s.aborter, d), d, dir), Q(Get(s, d), dir));
    } else {
      if kind == Connect {
        FinishOne(s.joined, op, d, dir);
      }
      LineSame(s, s', d, dir);
    }
  }

  lemma LineSubmit(s: State, l: Label, d: nat, dir: Dir)
    requires Core(s) && Enabled(s, l) && (l.Submit? || l.SubmitCarried? || l.Execute? || l.Unbind?)
    ensures LineOf(Apply(s, l), d, dir) == LineOf(s, d, dir)
    ensures Apply(s, l).joined == s.joined
  {
    var s' := Apply(s, l);
    NewWork(s.agents, s.aborter, l.t, s'.agents[l.t], d, dir);
    LineSame(s, s', d, dir);
  }

  lemma LineBindOk(s: State, t: nat, k: nat, carry: Option<nat>, ready: set<Dir>, d: nat, dir: Dir)
    requires t in s.agents && s.agents[t].Binding? && k in s.descs
    ensures LineOf(DoBindOk(s, t, k, carry, ready), d, dir) == LineOf(s, d, dir)
    ensures DoBindOk(s, t, k, carry, ready).joined == s.joined
  {
    LineSame(s, DoBindOk(s, t, k, carry, ready), d, dir);
  }

  lemma LineBindIgnored(s: State, t: nat, k: nat, d: nat, dir: Dir)
    requires t in s.agents && s.agents[t].Binding? && k in s.descs
    ensures LineOf(DoBindIgnored(s, t, k), d, dir) == LineOf(s, d, dir)
    ensures DoBindIgnored(s, t, k).joined == s.joined
  {
    LineSame(s, DoBindIgnored(s, t, k), d, dir);
  }

  lemma LineBind(s: State, l: Label, d: nat, dir: Dir)
    requires Core(s) && Enabled(s, l) && (l.BindOk? || l.BindIgnored?)
    ensures LineOf(Apply(s, l), d, dir) == LineOf(s, d, dir)
    ensures Apply(s, l).joined == s.joined
  {
    if l.BindOk? {
      LineBindOk(s, l.t, s.agents[l.t].d, s.agents[l.t].carry, l.ready, d, dir);
    } else {
      LineBindIgnored(s, l.t, s.agents[l.t].d, d, dir);
    }
  }

  lemma LineKernel(s: State, l: Label, d: nat, dir: Dir)
    requires Enabled(s, l) && (l.Ready? || l.Unready?)
    ensures LineOf(Apply(s, l), d, dir) == LineOf(s, d, dir)
    ensures Apply(s, l).joined == s.joined
  {
    LineSame(s, Apply(s, l), d, dir);
  }

  /** A change of phase leaves the work in hand. */
  lemma LinePhase(s: State, t: nat, p: Phase, d: nat, dir: Dir)
    ensures LineOf(SetPhase(s, t, p), d, dir) == LineOf(s, d, dir)
  {
    LineSame(s, SetPhase(s, t, p), d, dir);
  }

  lemma LineGone(s: State, t: nat, d: nat, dir: Dir)
    requires t in s.agents && s.agents[t].Posting? && s.agents[t].todo == []
    ensures LineOf(Remove(s, t), d, dir) == LineOf(s, d, dir)
  {
    LineSame(s, Remove(s, t), d, dir);
  }

  lemma LineLock(s: State, l: Label, d: nat, dir: Dir)
    requires Enabled(s, l) && (l.Acquire? || l.Bump? || l.Unlock?)
    ensures LineOf(Apply(s, l), d, dir) == LineOf(s, d, dir)
    ensures Apply(s, l).joined == s.joined
  {
    LinePhase(s, l.t, if l.Unlock? then NeedWake else Holding, d, dir);
  }

  lemma LinePost(s: State, l: Label, d: nat, dir: Dir)
    requires Core(s) && Enabled(s, l) && PostStep(l) && !l.Push?
    ensures LineOf(Apply(s, l), d, dir) == LineOf(s, d, dir)
    ensures Apply(s, l).joined == s.joined
  {
    if l.WakeUp? {
      LineGone(s, l.t, d, dir);
    } else {
      LineLock(s, l, d, dir);
    }
  }

  lemma LinePoll(s: State, evs: seq<Ev>, d: nat, dir: Dir)
    ensures LineOf(DoPoll(s, evs), d, dir) == LineOf(s, d, dir)
  {
    LineSame(s, DoPoll(s, evs), d, dir);
  }

  /** The loop's control state belongs to no line. */
  lemma LineLoop(s: State, s': State, d: nat, dir: Dir)
    requires s'.finished == s.finished && s'.loop.ops == s.loop.ops && s'.queue == s.queue
    requires s'.agents == s.agents && s'.aborter == s.aborter && s'.descs == s.descs
    ensures LineOf(s', d, dir) == LineOf(s, d, dir)
  {
    LineSame(s, s', d, dir);
  }

  lemma LineControl(s: State, l: Label, d: nat, dir: Dir)
    requires Core(s) && Enabled(s, l) && LoopStep(l) && !RunStep(l) && !l.Swap?
    ensures LineOf(Apply(s, l), d, dir) == LineOf(s, d, dir)
    ensures Apply(s, l).joined == s.joined
  {
    if l.Poll? {
      LinePoll(s, l.evs, d, dir);
    } else {
      LineLoop(s, Apply(s, l), d, dir);
    }
  }

  lemma LineDrop(s: State, k: nat, d: nat, dir: Dir)
    requires k in s.descs
    ensures LineOf(DoDrop(s, k), d, dir) == LineOf(s, d, dir)
  {
    LineSame(s, DoDrop(s, k), d, dir);
  }

  lemma LineStay(s: State, l: Label, d: nat, dir: Dir)
    requires Enabled(s, l) && (l.Block? || l.Partial? || l.NextDir? || l.EndDispatch?)
    ensures LineOf(Apply(s, l), d, dir) == LineOf(s, d, dir)
    ensures Apply(s, l).joined == s.joined
  {
    LineLoop(s, Apply(s, l), d, dir);
  }

  lemma LineTry(s: State, l: Label, d: nat, dir: Dir)
    requires Core(s) && Enabled(s, l) && RunStep(l) && !l.Last? && !l.Start? && !l.Done?
    ensures LineOf(Apply(s, l), d, dir) == LineOf(s, d, dir)
    ensures Apply(s, l).joined == s.joined
  {
    if l.Drop? {
      CurAlive(s);
      LineDrop(s, s.loop.cur.d, d, dir);
    } else {
      LineStay(s, l, d, dir);
    }
  }

  lemma LineBindFail(s: State, t: nat, k: nat, carry: Option<nat>, e: Err, d: nat, dir: Dir)
    requires Core(s) && Filed(s) && t in s.agents && s.agents[t] == Binding(k, carry)
    ensures LineOf(DoBindFail(s, t, k, carry, e), d, dir) == LineOf(s, d, dir)
  {
    var s1 := if Get(s, k).wr != [] then s.(err := s.err[Get(s, k).wr[0].id := e]) else s;
    match carry
    case None => LineDestroy(s1, t, k, [], d, dir);
    case Some(id) => LineDestroy(s1.(err := s1.err[id := e]), t, k, [Run(Plain(id))], d, dir);
  }

  /** Every step keeps every line. */
  lemma KeepLine(s: State, l: Label, d: nat, dir: Dir)
    requires Core(s) && Filed(s) && Enabled(s, l) && Mine(s.joined, d, dir) == LineOf(s, d, dir)
    ensures Mine(Apply(s, l).joined, d, dir) == LineOf(Apply(s, l), d, dir)
  {
    if RunStep(l) {
      KeepRunLine(s, l, d, dir);
    } else if LoopStep(l) || PostStep(l) {
      KeepPostLine(s, l, d, dir);
    } else {
      KeepSubmitLine(s, l, d, dir);
    }
  }

  lemma KeepSubmitLine(s: State, l: Label, d: nat, dir: Dir)
    requires Core(s) && Filed(s) && Enabled(s, l) && Mine(s.joined, d, dir) == LineOf(s, d, dir)
    requires !LoopStep(l) && !PostStep(l)
    ensures Mine(Apply(s, l).joined, d, dir) == LineOf(Apply(s, l), d, dir)
  {
    if l.Create? {
      assert Apply(s, l) == DoCreate(s, l.t, l.kind);
      LineCreate(s, l.t, l.kind, d, dir);
    } else if l.BindFail? {
      assert Apply(s, l) == DoBindFail(s, l.t, s.agents[l.t].d, s.agents[l.t].carry, l.e);
      LineBindFail(s, l.t, s.agents[l.t].d, s.agents[l.t].carry, l.e, d, dir);
    } else if l.BindOk? || l.BindIgnored? {
      LineBind(s, l, d, dir);
    } else if l.Ready? || l.Unready? {
      LineKernel(s, l, d, dir);
    } else {
      LineSubmit(s, l, d, dir);
    }
  }

  lemma KeepPostLine(s: State, l: Label, d: nat, dir: Dir)
    requires Core(s) && Filed(s) && Enabled(s, l) && Mine(s.joined, d, dir) == LineOf(s, d, dir)
    requires (LoopStep(l) && !RunStep(l)) || PostStep(l)
    ensures Mine(Apply(s, l).joined, d, dir) == LineOf(Apply(s, l), d, dir)
  {
    if l.Push? || l.Swap? {
      LineMove(s, l, d, dir);
    } else if PostStep(l) {
      LinePost(s, l, d, dir);
    } else {
      LineControl(s, l, d, dir);
    }
  }

  lemma LineMove(s: State, l: Label, d: nat, dir: Dir)
    requires Core(s) && Filed(s) && Enabled(s, l) && (l.Push? || l.Swap?)
    ensures LineOf(Apply(s, l), d, dir) == LineOf(s, d, dir)
    ensures Apply(s, l).joined == s.joined
  {
    if l.Push? {
      LinePush(s, l.t, d, dir);
    } else {
      LineSwap(s, d, dir);
    }
  }

  lemma KeepRunLine(s: State, l: Label, d: nat, dir: Dir)
    requires Core(s) && Filed(s) && Enabled(s, l) && Mine(s.joined, d, dir) == LineOf(s, d, dir) && RunStep(l)
    ensures Mine(Apply(s, l).joined, d, dir) == LineOf(Apply(s, l), d, dir)
  {
    if l.Start? {
      LineStart(s, d, dir);
    } else if l.Done? || l.Last? {
      LineFinish(s, l, d, dir);
    } else {
      LineTry(s, l, d, dir);
    }
  }

  lemma LineFinish(s: State, l: Label, d: nat, dir: Dir)
    requires Core(s) && Filed(s) && Enabled(s, l) && (l.Done? || l.Last?)
    ensures LineOf(Apply(s, l), d, dir) == LineOf(s, d, dir)
    ensures Apply(s, l).joined == s.joined
  {
    CurAlive(s);
    if l.Done? {
      LineDone(s, s.loop.cur.d, s.loop.cur.dirs[0], l.e, d, dir);
    } else {
      LineDestroy(WithCur(s, NoCur), LOOP, s.loop.cur.d, [], d, dir);
    }
  }

  lemma StartParts(s: State)
    requires s.loop.ops != []
    ensures DoStart(s).started == s.started + [s.loop.ops[0]] && DoStart(s).loop.ops == s.loop.ops[1..]
    ensures DoStart(s).queue == s.queue && DoStart(s).pushed == s.pushed
  {
    match s.loop.ops[0]
    case Run(_) =>
    case Join(_, _, _) =>
    case Close(_) =>
  }

  lemma ShiftHead(a: seq<Item>, b: seq<Item>, c: seq<Item>)
    requires b != []
    ensures a + b + c == a + [b[0]] + b[1..] + c
  {
    assert b == [b[0]] + b[1..];
    Assoc(a, [b[0]], b[1..]);
  }

  lemma PushStart(s: State)
    requires PushOrder(s) && s.loop.ops != []
    ensures PushOrder(DoStart(s))
  {
    StartParts(s);
    ShiftHead(s.started, s.loop.ops, s.queue);
  }

  lemma PushPush(s: State, t: nat)
    requires PushOrder(s) && InPhase(s, t, Holding) && s.agents[t].todo != []
    ensures PushOrder(DoPush(s, t, s.agents[t].todo, s.agents[t].sent))
  {
    Assoc(s.started + s.loop.ops, s.queue, [s.agents[t].todo[0]]);
  }

  lemma PushSwap(s: State)
    requires PushOrder(s) && s.loop.ops == []
    ensures PushOrder(DoSwap(s))
  {
  }

  lemma KeepPushOrder(s: State, l: Label)
    requires Core(s) && PushOrder(s) && Enabled(s, l)
    ensures PushOrder(Apply(s, l))
  {
    if l.Push? {
      PushPush(s, l.t);
    } else if l.Start? {
      PushStart(s);
    } else if l.Swap? {
      PushSwap(s);
    } else {
      PushElse(s, l);
    }
  }

  lemma PushElse(s: State, l: Label)
    requires PushOrder(s) && Enabled(s, l) && !l.Push? && !l.Start? && !l.Swap?
    ensures PushOrder(Apply(s, l))
  {
    var s' := Apply(s, l);
    assert s'.pushed == s.pushed && s'.started == s.started;
    assert s'.queue == s.queue && s'.loop.ops == s.loop.ops;
  }
}
