/** With which error every operation finishes, what closing a descriptor does for good, and what the
    submitting and starting steps do, spelled out. */
module ProactorErrors {
  import opened Proactor
  import opened ProactorLifetime
  import opened ProactorPlaces
  import opened ProactorReadiness
  import opened ProactorTheorems

  // ---------------------------------------------------------------- settled operations

  predicate OpIn(q: seq<Op>, id: nat) {
    exists i :: 0 <= i < |q| && q[i].id == id
  }

  /** Some entry is the call of operation `id`. */
  predicate RunIn(items: seq<Item>, id: nat) {
    exists i :: 0 <= i < |items| && items[i].Run? && items[i].op.id == id
  }

  predicate HeldBy(agents: map<nat, Agent>, t: nat, id: nat) {
    t in agents && agents[t].Posting? && RunIn(agents[t].todo, id)
  }

  /** The operation has finished, or only waits to be called: posted, queued or swapped out. */
  ghost predicate Settled(s: State, id: nat) {
    OpIn(s.finished, id) || RunIn(s.loop.ops, id) || RunIn(s.queue, id) || exists t :: HeldBy(s.agents, t, id)
  }

  lemma {:induction false} OpInOcc(q: seq<Op>, id: nat)
    ensures OpIn(q, id) <==> OpOcc(q, id) > 0
  {
    if q != [] {
      OpInOcc(q[1..], id);
      if OpIn(q[1..], id) {
        var i :| 0 <= i < |q[1..]| && q[1..][i].id == id;
        assert q[i+1].id == id;
      }
      if OpIn(q, id) && q[0].id != id {
        var i :| 0 <= i < |q| && q[i].id == id;
        assert q[1..][i-1].id == id;
      }
    }
  }

  lemma RunInOcc(items: seq<Item>, id: nat)
    requires RunIn(items, id)
    ensures ItemOcc(items, id) > 0
  {
    var i :| 0 <= i < |items| && items[i].Run? && items[i].op.id == id;
    OccMember(items, i, id);
  }

  /** A settled operation is in none of the places where errors are written. */
  lemma SettledPlace(s: State, id: nat)
    requires OnePlace(s) && Settled(s, id)
    ensures id < s.nextOp && (forall d, dir :: Occurs(s, Waits(d, dir), id) == 0)
    ensures forall t :: t in s.agents && !s.agents[t].Posting? ==> Occurs(s, AtThread(t), id) == 0
  {
    var loc: map<nat, Place> :| Placed(s, loc);
    if OpIn(s.finished, id) {
      OpInOcc(s.finished, id);
      assert Occurs(s, Finished, id) > 0;
    } else if RunIn(s.loop.ops, id) {
      RunInOcc(s.loop.ops, id);
      assert Occurs(s, InRun, id) > 0;
    } else if RunIn(s.queue, id) {
      RunInOcc(s.queue, id);
      assert Occurs(s, InQueue, id) > 0;
    } else {
      var t :| HeldBy(s.agents, t, id);
      RunInOcc(s.agents[t].todo, id);
      assert Occurs(s, AtThread(t), id) > 0;
    }
  }

  // ---------------------------------------------------------------- where errors are written

  predicate WaitingOn(s: State, d: nat, id: nat) {
    d in s.descs && OpIn(Waiting(s.descs[d]), id)
  }

  /** The step writes the error of `id`: its submission, an attempt at it, the failed bind it is waiting
      for, or the end of its descriptor. */
  ghost predicate Writes(s: State, l: Label, id: nat) {
    match l
    case Execute(_, _) => id == s.nextOp
    case Done(_) => Trying(s) && TryQ(s) != [] && TryQ(s)[0].id == id
    case Block => Trying(s) && TryQ(s) != [] && TryQ(s)[0].id == id
    case BindFail(t, _) => t in s.agents && s.agents[t].Binding? && (s.agents[t].carry == Some(id) || WaitingOn(s, s.agents[t].d, id))
    case Last => s.loop.cur.Release? && WaitingOn(s, s.loop.cur.d, id)
    case _ => false
  }

  lemma DestroyErrors(s: State, t: nat, d: nat, extra: seq<Item>, id: nat)
    requires d in s.descs && !OpIn(Waiting(s.descs[d]), id)
    ensures ErrAt(Destroy(s, t, d, extra).err, id) == ErrAt(s.err, id)
  {
    MarkedAborted(s.err, Waiting(s.descs[d]), id);
  }

  lemma BindFailErrors(s: State, t: nat, d: nat, carry: Option<nat>, e: Err, id: nat)
    requires d in s.descs && !OpIn(Waiting(s.descs[d]), id) && carry != Some(id)
    ensures ErrAt(DoBindFail(s, t, d, carry, e).err, id) == ErrAt(s.err, id)
  {
    var x := s.descs[d];
    if x.wr != [] {
      assert Waiting(x)[|x.rd|] == x.wr[0];
    }
    var s1 := if Get(s, d).wr != [] then s.(err := s.err[Get(s, d).wr[0].id := e]) else s;
    match carry
    case None => DestroyErrors(s1, t, d, [], id);
    case Some(k) => DestroyErrors(s1.(err := s1.err[k := e]), t, d, [Run(Plain(k))], id);
  }

  /** No other step touches an error. */
  lemma ErrorsStay(s: State, l: Label, id: nat)
    requires Core(s) && Enabled(s, l) && !Writes(s, l, id)
    ensures ErrAt(Apply(s, l).err, id) == ErrAt(s.err, id)
  {
    if l.BindFail? {
      BindFailErrors(s, l.t, s.agents[l.t].d, s.agents[l.t].carry, l.e, id);
    } else if RunStep(l) {
      RunErrorsStay(s, l, id);
    } else {
      OtherErrorsStay(s, l, id);
    }
  }

  lemma RunErrorsStay(s: State, l: Label, id: nat)
    requires Core(s) && Enabled(s, l) && RunStep(l) && !Writes(s, l, id)
    ensures ErrAt(Apply(s, l).err, id) == ErrAt(s.err, id)
  {
    if l.Last? {
      CurAlive(s);
      DestroyErrors(WithCur(s, NoCur), LOOP, s.loop.cur.d, [], id);
    } else if l.Start? {
      StartErrors(s);
    } else {
      TryErrorsStay(s, l, id);
    }
  }

  lemma StartErrors(s: State)
    requires s.loop.ops != []
    ensures DoStart(s).err == s.err
  {
    match s.loop.ops[0]
    case Run(_) =>
    case Join(_, _, _) =>
    case Close(_) =>
  }

  lemma TryErrorsStay(s: State, l: Label, id: nat)
    requires Enabled(s, l) && RunStep(l) && !l.Last? && !l.Start? && !Writes(s, l, id)
    ensures ErrAt(Apply(s, l).err, id) == ErrAt(s.err, id)
  {
  }

  lemma OtherErrorsStay(s: State, l: Label, id: nat)
    requires Enabled(s, l) && !RunStep(l) && !l.BindFail? && !Writes(s, l, id)
    ensures ErrAt(Apply(s, l).err, id) == ErrAt(s.err, id)
  {
  }

  /** The steps that write an error write it to an operation that is not settled. */
  lemma WritesUnsettled(s: State, l: Label, id: nat)
    requires Core(s) && OnePlace(s) && Enabled(s, l) && Writes(s, l, id)
    ensures !Settled(s, id)
  {
    if Settled(s, id) {
      SettledPlace(s, id);
      match l
      case Execute(_, _) =>
      case Done(_) => FrontWaits(s);
      case Block => FrontWaits(s);
      case BindFail(t, _) =>
        if s.agents[t].carry != Some(id) {
          WaitsSomewhere(s, s.agents[t].d, id);
        }
      case Last => WaitsSomewhere(s, s.loop.cur.d, id);
    }
  }

  lemma FrontWaits(s: State)
    requires Core(s) && Trying(s) && TryQ(s) != []
    ensures Occurs(s, Waits(s.loop.cur.d, s.loop.cur.dirs[0]), TryQ(s)[0].id) > 0
  {
    CurAlive(s);
    OpMember(TryQ(s), 0);
  }

  lemma WaitsSomewhere(s: State, d: nat, id: nat)
    requires WaitingOn(s, d, id)
    ensures exists dir :: Occurs(s, Waits(d, dir), id) > 0
  {
    var x := s.descs[d];
    OpInOcc(Waiting(x), id);
    OpOccConcat(x.rd + x.wr, x.pr, id);
    OpOccConcat(x.rd, x.wr, id);
    assert Occurs(s, Waits(d, Rd), id) == OpOcc(x.rd, id) && Occurs(s, Waits(d, Wr), id) == OpOcc(x.wr, id)
           && Occurs(s, Waits(d, Pr), id) == OpOcc(x.pr, id);
  }

  // ---------------------------------------------------------------- settled stays settled

  /** Other threads' work, and more of everything, takes nothing away. */
  lemma SettledMore(s: State, s': State, id: nat)
    requires Settled(s, id) && s.finished <= s'.finished && s'.loop.ops == s.loop.ops && s'.queue == s.queue
    requires forall t :: HeldBy(s.agents, t, id) ==> HeldBy(s'.agents, t, id)
    ensures Settled(s', id)
  {
    if OpIn(s.finished, id) {
      var i :| 0 <= i < |s.finished| && s.finished[i].id == id;
      assert s'.finished[i].id == id;
    } else if t :| HeldBy(s.agents, t, id) {
      assert HeldBy(s'.agents, t, id);
    }
  }

  lemma SettledPush(s: State, t: nat, id: nat)
    requires Settled(s, id) && InPhase(s, t, Holding) && s.agents[t].todo != []
    ensures Settled(DoPush(s, t, s.agents[t].todo, s.agents[t].sent), id)
  {
    var s', todo := DoPush(s, t, s.agents[t].todo, s.agents[t].sent), s.agents[t].todo;
    if RunIn(s.queue, id) {
      var i :| 0 <= i < |s.queue| && s.queue[i].Run? && s.queue[i].op.id == id;
      assert s'.queue[i] == s.queue[i];
    } else if k :| HeldBy(s.agents, k, id) {
      if k != t {
        assert HeldBy(s'.agents, k, id);
      } else {
        var i :| 0 <= i < |todo| && todo[i].Run? && todo[i].op.id == id;
        if i == 0 {
          assert s'.queue[|s.queue|] == todo[0];
        } else {
          assert todo[1..][i-1] == todo[i];
          assert HeldBy(s'.agents, t, id);
        }
      }
    }
  }

  lemma SettledSwap(s: State, id: nat)
    requires Settled(s, id) && s.loop.ops == []
    ensures Settled(DoSwap(s), id)
  {
    if t :| HeldBy(s.agents, t, id) {
      assert HeldBy(DoSwap(s).agents, t, id);
    }
  }

  lemma SettledStart(s: State, id: nat)
    requires Settled(s, id) && s.loop.ops != []
    ensures Settled(DoStart(s), id)
  {
    var s', ops := DoStart(s), s.loop.ops;
    StartFrame(s);
    if OpIn(s.finished, id) {
      var i :| 0 <= i < |s.finished| && s.finished[i].id == id;
      assert s'.finished[i].id == id;
    } else if RunIn(ops, id) {
      var i :| 0 <= i < |ops| && ops[i].Run? && ops[i].op.id == id;
      if i == 0 {
        assert s'.finished[|s.finished|].id == id;
      } else {
        assert s'.loop.ops[i-1] == ops[i];
      }
    } else if t :| HeldBy(s.agents, t, id) {
      assert HeldBy(s'.agents, t, id);
    }
  }

  lemma StartFrame(s: State)
    requires s.loop.ops != []
    ensures var s' := DoStart(s);
            && s'.loop.ops == s.loop.ops[1..] && s'.queue == s.queue && s'.agents == s.agents
            && s'.finished == s.finished + (if s.loop.ops[0].Run? then [s.loop.ops[0].op] else [])
  {
    match s.loop.ops[0]
    case Run(_) =>
    case Join(_, _, _) =>
    case Close(_) =>
  }

  lemma SettledPhase(s: State, t: nat, p: Phase, id: nat)
    requires Settled(s, id)
    ensures Settled(SetPhase(s, t, p), id)
  {
    SettledMore(s, SetPhase(s, t, p), id);
  }

  lemma SettledGone(s: State, t: nat, id: nat)
    requires Settled(s, id) && t in s.agents && s.agents[t].Posting? && s.agents[t].todo == []
    ensures Settled(Remove(s, t), id)
  {
    SettledMore(s, Remove(s, t), id);
  }

  lemma SettledPost(s: State, l: Label, id: nat)
    requires Core(s) && Settled(s, id) && Enabled(s, l) && PostStep(l) && !l.Push?
    ensures Settled(Apply(s, l), id)
  {
    if l.WakeUp? {
      SettledGone(s, l.t, id);
      SettledMore(Remove(s, l.t), Apply(s, l), id);
    } else {
      var s1 := SetPhase(s, l.t, if l.Unlock? then NeedWake else Holding);
      SettledPhase(s, l.t, if l.Unlock? then NeedWake else Holding, id);
      SettledMore(s1, Apply(s, l), id);
    }
  }

  /** A thread that was not posting takes up something else, or goes. */
  lemma SettledAgents(s: State, s': State, t: nat, id: nat)
    requires Settled(s, id) && s'.finished == s.finished && s'.loop.ops == s.loop.ops && s'.queue == s.queue
    requires (t in s.agents ==> !s.agents[t].Posting?) && forall k :: k in s.agents && k != t ==> k in s'.agents && s'.agents[k] == s.agents[k]
    ensures Settled(s', id)
  {
    SettledMore(s, s', id);
  }

  lemma SettledKernel(s: State, l: Label, id: nat)
    requires Settled(s, id) && Enabled(s, l) && (l.Ready? || l.Unready?)
    ensures Settled(Apply(s, l), id)
  {
    SettledMore(s, Apply(s, l), id);
  }

  lemma SettledThread(s: State, l: Label, id: nat)
    requires Settled(s, id) && Enabled(s, l) && (l.Submit? || l.Execute? || l.Unbind? || l.Create? || l.SubmitCarried?)
    ensures Settled(Apply(s, l), id)
  {
    SettledAgents(s, Apply(s, l), l.t, id);
  }

  lemma SettledBind(s: State, l: Label, id: nat)
    requires Settled(s, id) && Enabled(s, l) && (l.BindOk? || l.BindIgnored? || l.BindFail?)
    ensures Settled(Apply(s, l), id)
  {
    SettledAgents(s, Apply(s, l), l.t, id);
  }

  lemma SettledSubmit(s: State, l: Label, id: nat)
    requires Settled(s, id) && Enabled(s, l) && !PostStep(l) && !LoopStep(l)
    ensures Settled(Apply(s, l), id)
  {
    if l.Ready? || l.Unready? {
      SettledKernel(s, l, id);
    } else if l.BindOk? || l.BindIgnored? || l.BindFail? {
      SettledBind(s, l, id);
    } else {
      SettledThread(s, l, id);
    }
  }

  lemma SettledDone(s: State, d: nat, dir: Dir, e: Err, id: nat)
    requires Settled(s, id)
    ensures Settled(DoDone(s, d, dir, e), id)
  {
    DoneKeepsFinished(s, d, dir, e);
    SettledMore(s, DoDone(s, d, dir, e), id);
  }

  lemma SettledFree(s: State, id: nat)
    requires Settled(s, id) && Enabled(s, Last)
    ensures Settled(Apply(s, Last), id)
  {
    SettledAgents(s, Apply(s, Last), LOOP, id);
  }

  lemma SettledTry(s: State, l: Label, id: nat)
    requires Settled(s, id) && Enabled(s, l) && (l.Block? || l.Partial? || l.NextDir? || l.EndDispatch? || l.Drop?)
    ensures Settled(Apply(s, l), id)
  {
    SettledMore(s, Apply(s, l), id);
  }

  lemma SettledWork(s: State, l: Label, id: nat)
    requires Settled(s, id) && Enabled(s, l) && RunStep(l) && !l.Start?
    ensures Settled(Apply(s, l), id)
  {
    if l.Done? {
      SettledDone(s, s.loop.cur.d, s.loop.cur.dirs[0], l.e, id);
    } else if l.Last? {
      SettledFree(s, id);
    } else {
      SettledTry(s, l, id);
    }
  }

  lemma SettledLoop(s: State, l: Label, id: nat)
    requires Core(s) && Settled(s, id) && Enabled(s, l) && LoopStep(l) && !RunStep(l) && !l.Swap?
    ensures Settled(Apply(s, l), id)
  {
    SettledMore(s, Apply(s, l), id);
  }

  lemma KeepSettled(s: State, l: Label, id: nat)
    requires Core(s) && Settled(s, id) && Enabled(s, l)
    ensures Settled(Apply(s, l), id)
  {
    if l.Push? {
      SettledPush(s, l.t, id);
    } else if l.Swap? {
      SettledSwap(s, id);
    } else if l.Start? {
      SettledStart(s, id);
    } else if PostStep(l) {
      SettledPost(s, l, id);
    } else if RunStep(l) {
      SettledWork(s, l, id);
    } else if LoopStep(l) {
      SettledLoop(s, l, id);
    } else {
      SettledSubmit(s, l, id);
    }
  }

  // ---------------------------------------------------------------- over runs

  /** The error of an operation that has finished, or only waits to be called, never changes again: an operation called
      from the run queue finishes with the error it was posted with, and keeps it. */
  lemma {:induction false} ErrorSettled(tr: seq<State>, ls: seq<Label>, i: nat, j: nat, id: nat)
    requires IsRun(tr, ls) && i <= j < |tr| && Settled(tr[i], id)
    ensures Settled(tr[j], id) && ErrAt(tr[j].err, id) == ErrAt(tr[i].err, id)
  {
    if i < j {
      ErrorSettled(tr, ls, i, j - 1, id);
      RunGood(tr, ls, j - 1);
      assert StepAt(tr, ls, j - 1);
      KeepSettled(tr[j-1], ls[j-1], id);
      if Writes(tr[j-1], ls[j-1], id) {
        WritesUnsettled(tr[j-1], ls[j-1], id);
      } else {
        ErrorsStay(tr[j-1], ls[j-1], id);
      }
    }
  }

  /** A completed attempt finishes the operation at the front with the error that it answered, for good. */
  lemma CompletionError(tr: seq<State>, ls: seq<Label>, i: nat, j: nat)
    requires IsRun(tr, ls) && i < j < |tr| && ls[i].Done?
    ensures Trying(tr[i]) && TryQ(tr[i]) != [] && tr[i+1].finished == tr[i].finished + [TryQ(tr[i])[0]]
    ensures ErrAt(tr[j].err, TryQ(tr[i])[0].id) == ls[i].e
  {
    assert StepAt(tr, ls, i);
    DoneEffect(tr[i], ls[i].e);
    ErrorSettled(tr, ls, i + 1, j, TryQ(tr[i])[0].id);
  }

  lemma DoneEffect(s: State, e: Err)
    requires Enabled(s, Done(e))
    ensures var s', op := Apply(s, Done(e)), TryQ(s)[0];
            s'.finished == s.finished + [op] && s'.err == s.err[op.id := e] && Settled(s', op.id)
  {
    var s', op := Apply(s, Done(e)), TryQ(s)[0];
    assert s'.finished[|s.finished|] == op;
  }

  /** An attempt that would block finishes nothing and leaves its operation without an error. */
  lemma BlockedError(tr: seq<State>, ls: seq<Label>, i: nat)
    requires IsRun(tr, ls) && i < |ls| && ls[i] == Block
    ensures Trying(tr[i]) && TryQ(tr[i]) != [] && tr[i+1].finished == tr[i].finished && tr[i+1].descs == tr[i].descs
    ensures ErrAt(tr[i+1].err, TryQ(tr[i])[0].id) == Success
  {
    assert StepAt(tr, ls, i);
  }

  /** A plain operation finishes with the error it was executed with. */
  lemma ExecuteError(tr: seq<State>, ls: seq<Label>, i: nat, j: nat)
    requires IsRun(tr, ls) && i < j < |tr| && ls[i].Execute?
    ensures ErrAt(tr[j].err, tr[i].nextOp) == ls[i].e
  {
    assert StepAt(tr, ls, i);
    var t, id := ls[i].t, tr[i].nextOp;
    assert tr[i+1].agents[t].todo[0] == Run(Plain(id));
    assert HeldBy(tr[i+1].agents, t, id);
    ErrorSettled(tr, ls, i + 1, j, id);
  }

  // ---------------------------------------------------------------- closing

  lemma ClosedStays(s: State, l: Label, d: nat)
    requires Core(s) && Enabled(s, l) && d in s.descs && !s.descs[d].fdOpen
    ensures d in Apply(s, l).descs ==> !Apply(s, l).descs[d].fdOpen
  {
    if l.Start? {
      StartKeepsClosed(s, d);
    } else if RunStep(l) {
      WorkKeepsClosed(s, l, d);
    } else if LoopStep(l) || PostStep(l) {
      LoopKeepsClosed(s, l, d);
    } else {
      SubmitKeepsClosed(s, l, d);
    }
  }

  lemma StartKeepsClosed(s: State, d: nat)
    requires Core(s) && s.loop.ops != [] && d in s.descs && !s.descs[d].fdOpen
    ensures d in DoStart(s).descs ==> !DoStart(s).descs[d].fdOpen
  {
    if !s.loop.ops[0].Run? {
      HeadAlive(s, s.loop.ops[0].d);
    }
  }

  lemma WorkKeepsClosed(s: State, l: Label, d: nat)
    requires Core(s) && Enabled(s, l) && RunStep(l) && !l.Start? && d in s.descs && !s.descs[d].fdOpen
    ensures d in Apply(s, l).descs ==> !Apply(s, l).descs[d].fdOpen
  {
    if l.Done? {
      FinishKeepsClosed(s, l.e, d);
    } else if l.Drop? || l.Last? {
      ReleaseKeepsClosed(s, l, d);
    } else {
      TryKeepsDescs(s, l);
    }
  }

  lemma FinishKeepsClosed(s: State, e: Err, d: nat)
    requires Core(s) && Enabled(s, Done(e)) && d in s.descs && !s.descs[d].fdOpen
    ensures d in Apply(s, Done(e)).descs ==> !Apply(s, Done(e)).descs[d].fdOpen
  {
    CurAlive(s);
    DoneKeepsClosed(s, s.loop.cur.d, s.loop.cur.dirs[0], e, d);
  }

  lemma DoneKeepsClosed(s: State, k: nat, dir: Dir, e: Err, d: nat)
    requires k in s.descs && d in s.descs && !s.descs[d].fdOpen
    ensures d in DoDone(s, k, dir, e).descs ==> !DoDone(s, k, dir, e).descs[d].fdOpen
  {
  }

  lemma TryKeepsDescs(s: State, l: Label)
    requires Enabled(s, l) && (l.Block? || l.Partial? || l.NextDir? || l.EndDispatch?)
    ensures Apply(s, l).descs == s.descs
  {
  }

  lemma ReleaseKeepsClosed(s: State, l: Label, d: nat)
    requires Core(s) && Enabled(s, l) && (l.Drop? || l.Last?) && d in s.descs && !s.descs[d].fdOpen
    ensures d in Apply(s, l).descs ==> !Apply(s, l).descs[d].fdOpen
  {
    CurAlive(s);
  }

  lemma LoopKeepsClosed(s: State, l: Label, d: nat)
    requires Enabled(s, l) && ((LoopStep(l) && !RunStep(l)) || PostStep(l)) && d in s.descs && !s.descs[d].fdOpen
    ensures d in Apply(s, l).descs ==> !Apply(s, l).descs[d].fdOpen
  {
    if l.Poll? {
      PollKeepsClosed(s, l.evs, d);
    } else if PostStep(l) {
      PostKeepsDescs(s, l);
    } else {
      ElseKeepsDescs(s, l);
    }
  }

  lemma PollKeepsClosed(s: State, evs: seq<Ev>, d: nat)
    requires d in s.descs && !s.descs[d].fdOpen
    ensures d in DoPoll(s, evs).descs ==> !DoPoll(s, evs).descs[d].fdOpen
  {
  }

  lemma PostKeepsDescs(s: State, l: Label)
    requires Enabled(s, l) && PostStep(l)
    ensures Apply(s, l).descs == s.descs
  {
  }

  lemma ElseKeepsDescs(s: State, l: Label)
    requires Enabled(s, l) && LoopStep(l) && !RunStep(l) && !l.Poll?
    ensures Apply(s, l).descs == s.descs
  {
  }

  lemma SubmitKeepsClosed(s: State, l: Label, d: nat)
    requires Core(s) && Enabled(s, l) && !LoopStep(l) && !PostStep(l) && d in s.descs && !s.descs[d].fdOpen
    ensures d in Apply(s, l).descs ==> !Apply(s, l).descs[d].fdOpen
  {
  }

  /** Step `i` starts the closure that closes `d`. */
  predicate Closes(tr: seq<State>, ls: seq<Label>, i: nat, d: nat) {
    i < |ls| && i < |tr| && ls[i] == Start && tr[i].loop.ops != [] && tr[i].loop.ops[0] == Close(d)
  }

  lemma CloseEffect(s: State, d: nat)
    requires Core(s) && s.loop.ops != [] && s.loop.ops[0] == Close(d)
    ensures d in s.descs && d in DoStart(s).descs && !DoStart(s).descs[d].fdOpen
  {
    HeadAlive(s, d);
  }

  lemma {:induction false} ClosedUpTo(tr: seq<State>, ls: seq<Label>, i: nat, j: nat, d: nat)
    requires IsRun(tr, ls) && i < j < |tr| && Closes(tr, ls, i, d)
    ensures d in tr[j].descs ==> !tr[j].descs[d].fdOpen
  {
    RunGood(tr, ls, j - 1);
    assert StepAt(tr, ls, j - 1);
    if i + 1 == j {
      CloseEffect(tr[i], d);
    } else {
      ClosedUpTo(tr, ls, i, j - 1, d);
      if d in tr[j-1].descs {
        ClosedStays(tr[j-1], ls[j-1], d);
      } else {
        StillFreed(tr, ls, i, j, d);
      }
    }
  }

  /** Once its closing closure has started, a descriptor is closed and deregistered for the rest of its life. */
  lemma ClosedForever(tr: seq<State>, ls: seq<Label>, i: nat, j: nat, d: nat)
    requires IsRun(tr, ls) && i < j < |tr| && Closes(tr, ls, i, d)
    ensures d in tr[j].descs ==> !tr[j].descs[d].fdOpen && !tr[j].descs[d].registered
  {
    ClosedUpTo(tr, ls, i, j, d);
    RunGood(tr, ls, j);
  }

  /** So every attempt on it from then on completes its operation. */
  lemma LateCompletes(tr: seq<State>, ls: seq<Label>, i: nat, j: nat, d: nat)
    requires IsRun(tr, ls) && i < j < |ls| && Closes(tr, ls, i, d)
    requires tr[j].loop.cur.Dispatch? && tr[j].loop.cur.d == d
    ensures !ls[j].Block? && !ls[j].Partial?
  {
    ClosedUpTo(tr, ls, i, j, d);
    assert StepAt(tr, ls, j);
  }

  /** A descriptor that was alive and is gone does not come back. */
  lemma StillFreed(tr: seq<State>, ls: seq<Label>, i: nat, j: nat, d: nat)
    requires IsRun(tr, ls) && i < j < |tr| && Closes(tr, ls, i, d) && d !in tr[j-1].descs
    ensures d !in tr[j].descs
  {
    RunGood(tr, ls, i);
    HeadAlive(tr[i], d);
    NextDescGrows(tr, ls, i, j - 1);
    FreedForever(tr, ls, j - 1, j, d);
  }

  lemma {:induction false} NextDescGrows(tr: seq<State>, ls: seq<Label>, i: nat, j: nat)
    requires IsRun(tr, ls) && i <= j < |tr|
    ensures tr[i].nextDesc <= tr[j].nextDesc
  {
    if i < j {
      NextDescGrows(tr, ls, i, j - 1);
      assert StepAt(tr, ls, j - 1);
      StepNextDesc(tr[j-1], ls[j-1]);
    }
  }

  lemma StepNextDesc(s: State, l: Label)
    requires Enabled(s, l)
    ensures s.nextDesc <= Apply(s, l).nextDesc
  {
    if RunStep(l) {
      RunNextDesc(s, l);
    } else if LoopStep(l) || PostStep(l) {
      LoopNextDesc(s, l);
    } else {
      SubmitNextDesc(s, l);
    }
  }

  lemma RunNextDesc(s: State, l: Label)
    requires Enabled(s, l) && RunStep(l)
    ensures s.nextDesc == Apply(s, l).nextDesc
  {
    if l.Start? {
      StartNextDesc(s);
    } else if l.Done? {
      DoneNextDesc(s, s.loop.cur.d, s.loop.cur.dirs[0], l.e);
    }
  }

  lemma StartNextDesc(s: State)
    requires s.loop.ops != []
    ensures s.nextDesc == DoStart(s).nextDesc
  {
    match s.loop.ops[0]
    case Run(_) =>
    case Join(_, _, _) =>
    case Close(_) =>
  }

  lemma DoneNextDesc(s: State, d: nat, dir: Dir, e: Err)
    ensures s.nextDesc == DoDone(s, d, dir, e).nextDesc
  {
  }

  lemma LoopNextDesc(s: State, l: Label)
    requires Enabled(s, l) && ((LoopStep(l) && !RunStep(l)) || PostStep(l))
    ensures s.nextDesc == Apply(s, l).nextDesc
  {
  }

  lemma SubmitNextDesc(s: State, l: Label)
    requires Enabled(s, l) && !LoopStep(l) && !PostStep(l)
    ensures s.nextDesc <= Apply(s, l).nextDesc
  {
  }

  // ---------------------------------------------------------------- order and amounts

  /** Directions are dispatched, and drained, in the order read, write, priority. */
  lemma DirectionOrder(x: Desc, m: set<Dir>, i: nat)
    ensures Waiting(x) == x.rd + x.wr + x.pr
    ensures i < |Waiting(x)| ==>
              Waiting(x)[i] == if i < |x.rd| then x.rd[i] else if i < |x.rd| + |x.wr| then x.wr[i - |x.rd|] else x.pr[i - |x.rd| - |x.wr|]
    ensures forall j, k :: 0 <= j < k < |DirSeq(m)| ==>
              (DirSeq(m)[j] == Rd && DirSeq(m)[k] != Rd) || (DirSeq(m)[j] == Wr && DirSeq(m)[k] == Pr)
  {
    assert DirSeq(m) == if Rd in m then (if Wr in m then (if Pr in m then [Rd, Wr, Pr] else [Rd, Wr]) else if Pr in m then [Rd, Pr] else [Rd])
                        else if Wr in m then (if Pr in m then [Wr, Pr] else [Wr]) else if Pr in m then [Pr] else [];
  }

  /** One read of the pipe takes at most 256 bytes, and all of them when there are no more. */
  lemma PipeRead(tr: seq<State>, ls: seq<Label>, i: nat)
    requires IsRun(tr, ls) && i < |ls| && ls[i] == ReadPipe
    ensures tr[i+1].pipe == (if tr[i].pipe <= 256 then 0 else tr[i].pipe - 256) && tr[i+1].loop.exec
  {
    assert StepAt(tr, ls, i);
  }

  // ---------------------------------------------------------------- submission

  /** A submission is posted as a closure for its own descriptor and direction, which holds one reference. */
  lemma SubmitPosts(tr: seq<State>, ls: seq<Label>, i: nat)
    requires IsRun(tr, ls) && i < |ls| && ls[i].Submit?
    ensures var s, s', l := tr[i], tr[i+1], ls[i];
            && l.t in s'.agents && s'.agents[l.t] == Posting([Join(s.nextOp, l.d, l.dir)], WantLock, 0)
            && l.d in s.descs && l.d in s'.descs && s'.descs[l.d].rc == s.descs[l.d].rc + 1 && s'.nextOp == s.nextOp + 1
  {
    assert StepAt(tr, ls, i);
  }

  /** A datagram write that first opened its descriptor is posted as a write on it. */
  lemma CarriedPosts(tr: seq<State>, ls: seq<Label>, i: nat)
    requires IsRun(tr, ls) && i < |ls| && ls[i].SubmitCarried?
    ensures var s, s', t := tr[i], tr[i+1], ls[i].t;
            && t in s.agents && s.agents[t].Carrying? && t in s'.agents
            && s'.agents[t] == Posting([Join(s.agents[t].id, s.agents[t].d, Wr)], WantLock, 0)
  {
    assert StepAt(tr, ls, i);
  }

  /** `connect` queues its operation for writing before it binds. */
  lemma ConnectWaits(tr: seq<State>, ls: seq<Label>, i: nat)
    requires IsRun(tr, ls) && i < |ls| && ls[i].Create? && ls[i].kind == Connect
    ensures var s, s' := tr[i], tr[i+1];
            && s.nextDesc in s'.descs && s'.descs[s.nextDesc].wr == [Io(s.nextOp, s.nextDesc, Wr)]
            && s'.descs[s.nextDesc].rd == [] && s'.descs[s.nextDesc].pr == [] && s'.descs[s.nextDesc].rc == 1
  {
    assert StepAt(tr, ls, i);
  }

  /** Starting a submission's closure appends its operation to the queue of its direction, and dispatches that
      direction alone. */
  lemma JoinStarts(tr: seq<State>, ls: seq<Label>, i: nat, dir: Dir)
    requires IsRun(tr, ls) && i < |ls| && ls[i] == Start && tr[i].loop.ops != [] && tr[i].loop.ops[0].Join?
    ensures var s, s', j := tr[i], tr[i+1], tr[i].loop.ops[0];
            && j.d in s.descs && j.d in s'.descs && s'.loop.cur == Dispatch(j.d, [j.dir], true)
            && (match dir
                case Rd => s'.descs[j.d].rd == s.descs[j.d].rd + (if j.dir == Rd then [Io(j.id, j.d, Rd)] else [])
                case Wr => s'.descs[j.d].wr == s.descs[j.d].wr + (if j.dir == Wr then [Io(j.id, j.d, Wr)] else [])
                case Pr => s'.descs[j.d].pr == s.descs[j.d].pr + (if j.dir == Pr then [Io(j.id, j.d, Pr)] else []))
  {
    RunGood(tr, ls, i);
    assert StepAt(tr, ls, i);
    JoinEffect(tr[i], tr[i].loop.ops[0].d, dir);
  }

  lemma JoinEffect(s: State, d: nat, dir: Dir)
    requires Core(s) && s.loop.ops != [] && s.loop.ops[0].Join? && s.loop.ops[0].d == d
    ensures var s', j := DoStart(s), s.loop.ops[0];
            && d in s.descs && d in s'.descs && s'.loop.cur == Dispatch(d, [j.dir], true)
            && Q(s'.descs[d], dir) == Q(s.descs[d], dir) + (if j.dir == dir then [Io(j.id, d, dir)] else [])
  {
    HeadAlive(s, d);
    match s.loop.ops[0].dir
    case Rd =>
    case Wr =>
    case Pr =>
  }
}
