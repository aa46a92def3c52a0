/** Runs that show where a guarantee of the proactor ends. */
module ProactorWitness {
  import opened Proactor
  import opened ProactorLifetime
  import opened ProactorReadiness
  import opened ProactorTheorems

  const Fresh: State :=
    State(map[], 0, 0, [], None, 0, 0, 0, map[], Loop(Top, [], false, [], NoCur), map[], [], [], [], [], map[])

  ghost predicate Reachable(s: State) {
    exists tr: seq<State>, ls: seq<Label> :: IsRun(tr, ls) && tr[|ls|] == s
  }

  lemma ReachFresh()
    ensures Reachable(Fresh)
  {
    assert IsRun([Fresh], []);
  }

  lemma ReachStep(s: State, l: Label)
    requires Reachable(s) && Enabled(s, l)
    ensures Reachable(Apply(s, l))
  {
    var tr: seq<State>, ls: seq<Label> :| IsRun(tr, ls) && tr[|ls|] == s;
    var tr', ls' := tr + [Apply(s, l)], ls + [l];
    forall i | 0 <= i < |ls'| ensures StepAt(tr', ls', i) {
      assert i < |ls| ==> StepAt(tr, ls, i);
    }
    assert IsRun(tr', ls');
  }

  // ---------------------------------------------------------------- an early return

  /** A thread has pushed its entry and not yet counted it. */
  const HalfAdded: State :=
    Fresh.(nextOp := 1, err := map[0 := Success], lock := Some(1), agents := map[1 := Posting([], Added, 1)],
           queue := [Run(Plain(0))], pushed := [Run(Plain(0))])

  lemma ReachHalfAdded()
    ensures Reachable(HalfAdded)
  {
    ReachFresh();
    ReachStep(Fresh, Execute(1, Success));
    var s1 := Apply(Fresh, Execute(1, Success));
    ReachStep(s1, Acquire(1));
    var s2 := Apply(s1, Acquire(1));
    ReachStep(s2, Push(1));
    assert [Run(Plain(0))][1..] == [];
    assert Apply(s2, Push(1)).agents == HalfAdded.agents;
    assert Apply(s2, Push(1)) == HalfAdded;
  }

  /** There `run` may return, with an entry in the queue. */
  lemma ReturnsEarly()
    ensures Reachable(HalfAdded) && Enabled(HalfAdded, Return) && Apply(HalfAdded, Return).queue != []
    ensures InOpAdd(HalfAdded.agents, HalfAdded.lock) == 1
  {
    ReachHalfAdded();
  }

  // ---------------------------------------------------------------- a lost edge

  function OneDesc(rc: int, rd: seq<Op>, edge: set<Dir>): map<nat, Desc> {
    map[0 := Desc(true, true, rc, Handle, rd, [], [], {Rd}, edge)]
  }

  /** A descriptor that was readable when it was bound. */
  const Readable: State := Fresh.(descs := OneDesc(1, [], {Rd}), nextDesc := 1, count := 1)

  lemma ReachReadable()
    ensures Reachable(Readable)
  {
    ReachFresh();
    ReachStep(Fresh, Create(1, Open));
    var s1 := Apply(Fresh, Create(1, Open));
    ReachStep(s1, BindOk(1, {Rd}));
    assert Apply(s1, BindOk(1, {Rd})).descs == Readable.descs;
    assert Apply(s1, BindOk(1, {Rd})).agents == map[];
  }

  /** A read on it is queued, but neither counted nor announced. */
  const Pushed: State :=
    Readable.(descs := OneDesc(2, [], {Rd}), nextOp := 1, lock := Some(1), agents := map[1 := Posting([], Added, 1)],
              queue := [Join(0, 0, Rd)], pushed := [Join(0, 0, Rd)])

  lemma ReachPushed()
    ensures Reachable(Pushed)
  {
    ReachReadable();
    ReachStep(Readable, Submit(1, 0, Rd));
    var s1 := Apply(Readable, Submit(1, 0, Rd));
    ReachStep(s1, Acquire(1));
    var s2 := Apply(s1, Acquire(1));
    ReachStep(s2, Push(1));
    assert [Join(0, 0, Rd)][1..] == [];
    assert Apply(s2, Push(1)).descs == Pushed.descs;
    assert Apply(s2, Push(1)).agents == Pushed.agents;
  }

  /** Now it is announced. */
  const Queued: State := Pushed.(count := 2, pipe := 1, lock := None, agents := map[])

  lemma ReachQueued()
    ensures Reachable(Queued)
  {
    ReachPushed();
    ReachStep(Pushed, Bump(1));
    var s4 := Apply(Pushed, Bump(1));
    ReachStep(s4, Unlock(1));
    var s5 := Apply(s4, Unlock(1));
    ReachStep(s5, WakeUp(1));
    assert Apply(s5, WakeUp(1)).agents == map[];
  }

  const Events: seq<Ev> := [Evs(0, {Rd}), Wake]

  /** The poll delivers the edge and the wake byte. */
  const Delivered: State :=
    Queued.(descs := OneDesc(2, [], {}), loop := Loop(InBatch, Events, false, [], NoCur))

  lemma ReachDelivered()
    ensures Reachable(Delivered)
  {
    ReachQueued();
    assert Deliverable(Queued, Events);
    ReachStep(Queued, Poll(Events));
    assert Polled(Events, 0) by {
      assert Events[0].Evs? && Events[0].d == 0;
    }
    assert DoPoll(Queued, Events).descs == Delivered.descs;
  }

  /** The dispatch of the edge begins. */
  const Dispatching: State :=
    Delivered.(loop := Loop(InBatch, [Wake], false, [], Dispatch(0, [Rd], false)))

  lemma ReachDispatching()
    ensures Reachable(Dispatching)
  {
    ReachDelivered();
    ReachStep(Delivered, StartEvent);
    assert DirSeq({Rd}) == [Rd] && Events[1..] == [Wake];
  }

  /** It finds nothing to do. */
  const Tried: State := Delivered.(loop := Loop(InBatch, [Wake], false, [], Dispatch(0, [], false)))

  lemma ReachTried()
    ensures Reachable(Tried)
  {
    ReachDispatching();
    ReachStep(Dispatching, NextDir);
    assert [Rd][1..] == [];
  }

  const Dispatched: State := Delivered.(loop := Loop(InBatch, [Wake], false, [], NoCur))

  lemma ReachDispatched()
    ensures Reachable(Dispatched)
  {
    ReachTried();
    ReachStep(Tried, EndDispatch);
  }

  const Swapped: State :=
    Dispatched.(pipe := 0, queue := [], loop := Loop(InOps, [], false, [Join(0, 0, Rd)], NoCur))

  lemma ReachSwapped()
    ensures Reachable(Swapped)
  {
    ReachDispatched();
    ReachStep(Dispatched, ReadPipe);
    assert [Wake][1..] == [];
    ReachStep(Apply(Dispatched, ReadPipe), Swap);
  }

  /** Only then does the read join its queue. */
  const Joined: State :=
    Swapped.(descs := OneDesc(2, [Io(0, 0, Rd)], {}), count := 1,
             loop := Loop(InOps, [], false, [], Dispatch(0, [Rd], true)),
             started := [Join(0, 0, Rd)], joined := [Io(0, 0, Rd)])

  lemma ReachJoined()
    ensures Reachable(Joined)
  {
    ReachSwapped();
    ReachStep(Swapped, Start);
    assert [Join(0, 0, Rd)][1..] == [];
    var s1 := Swapped.(count := 1, started := Joined.started, loop := Swapped.loop.(ops := []));
    assert DoStart(Swapped) == DoJoin(s1, 0, 0, Rd);
    var none: seq<Op> := [];
    assert none + [Io(0, 0, Rd)] == [Io(0, 0, Rd)];
    assert DoJoin(s1, 0, 0, Rd).descs == Joined.descs;
  }

  lemma JoinedAttended()
    ensures NoLostReadiness(Joined) && Loses(Joined, Partial)
  {
    forall d: nat, dir | Stuck(Joined.descs, d, dir) ensures Attended(Joined.descs, [], Joined.loop.cur, d, dir) {
      assert d == 0 && dir == Rd;
    }
  }

  /** A partial answer to it loses the readiness: the descriptor stays ready, the read stays queued, and
      no edge or dispatch is left to come. */
  lemma PartialStrands()
    ensures Reachable(Joined) && NoLostReadiness(Joined) && Enabled(Joined, Partial) && Loses(Joined, Partial)
    ensures !NoLostReadiness(Apply(Joined, Partial))
  {
    ReachJoined();
    JoinedAttended();
    ReachedCore(Joined);
    PartialLoses(Joined);
  }

  lemma ReachedCore(s: State)
    requires Reachable(s)
    ensures Core(s)
  {
    var tr: seq<State>, ls: seq<Label> :| IsRun(tr, ls) && tr[|ls|] == s;
    RunGood(tr, ls, |ls|);
  }
}
