/** The code of the loop thread, `epoll::run` with `descriptor_dispatch`, `descriptor_release` and
    `op_add`, as it runs while no other thread holds the queue lock. Every assignment is a
    step of the protocol; each loop ends, and the thread never stands before a step that it cannot take. */
module ProactorLoop {
  import opened Proactor

  /** What `post_proc` answers on an open descriptor: done with an error code, or not yet. */
  datatype Answer = Finish(e: Err) | Later

  ghost predicate Eager(answers: seq<Answer>) {
    forall i :: 0 <= i < |answers| ==> answers[i].Finish?
  }

  predicate StillOpen(s: State, d: nat) {
    Get(s, d).fdOpen
  }

  /** No operation waits on this direction. */
  predicate Cleared(s: State, d: nat, dir: Dir) {
    Q(Get(s, d), dir) == []
  }

  ghost predicate EmptyStays(s: State, s': State, d: nat) {
    forall dir :: Cleared(s, d, dir) ==> Cleared(s', d, dir)
  }

  /** What starting the first entry does to the parts that the loop looks at. */
  lemma StartEffect(s: State)
    requires s.loop.ops != []
    ensures var s', item, rest := DoStart(s), s.loop.ops[0], s.loop.(ops := s.loop.ops[1..]);
            && s'.started == s.started + [item] && s'.queue == s.queue && s'.pipe == s.pipe && s'.agents == s.agents && s'.lock == s.lock
            && s'.finished == s.finished + (if item.Run? then [item.op] else [])
            && s'.loop == rest.(cur := match item case Run(_) => rest.cur case Join(_, d, dir) => Dispatch(d, [dir], true) case Close(d) => Release(d))
  {
    match s.loop.ops[0]
    case Run(_) =>
    case Join(_, _, _) =>
    case Close(_) =>
  }

  /** The events that each poll of a run delivered, in order. */
  function Polls(ls: seq<Label>): seq<seq<Ev>> {
    if ls == [] then []
    else Polls(ls[..|ls|-1]) + (if ls[|ls|-1].Poll? then [ls[|ls|-1].evs] else [])
  }

  /** The run goes on without another poll. */
  ghost predicate NoPoll(ls: seq<Label>, ls': seq<Label>) {
    ls <= ls' && Polls(ls') == Polls(ls)
  }

  class LoopThread {
    var s: State
    ghost var tr: seq<State>
    ghost var ls: seq<Label>

    /** The history is a run of the protocol and ends in the present state. */
    ghost predicate Valid()
      reads this
    {
      IsRun(tr, ls) && tr[|tr|-1] == s
    }

    /** The thread is between two steps of its own code, and the queue lock is free. */
    ghost predicate Free()
      reads this
    {
      Valid() && LOOP !in s.agents && s.lock.None?
    }

    /** The thread picks up at the end of a run. */
    constructor (now: State, ghost states: seq<State>, ghost labels: seq<Label>)
      requires IsRun(states, labels) && states[|states|-1] == now
      ensures Valid() && s == now && tr == states && ls == labels
    {
      s, tr, ls := now, states, labels;
    }

    /** One step of the protocol. */
    method Take(l: Label)
      requires Valid() && Enabled(s, l)
      modifies this
      ensures Valid() && s == Apply(old(s), l) && tr == old(tr) + [s] && ls == old(ls) + [l]
      ensures Polls(ls) == Polls(old(ls)) + (if l.Poll? then [l.evs] else [])
    {
      ghost var tr0, ls0 := tr, ls;
      s := Apply(s, l);
      tr, ls := tr + [s], ls + [l];
      forall i | 0 <= i < |ls| ensures StepAt(tr, ls, i) {
        assert i < |ls0| ==> StepAt(tr0, ls0, i);
      }
      assert ls[..|ls|-1] == ls0;
    }

    /** One attempt at the direction in hand. */
    method TryFront(a: Answer)
      requires Free() && Trying(s)
      modifies this
      ensures NoPoll(old(ls), ls)
      ensures Free() && s.loop.cur.Dispatch? && s.loop == old(s).loop.(cur := old(s).loop.cur.(dirs := s.loop.cur.dirs))
      ensures s.started == old(s).started && s.queue == old(s).queue && s.pipe == old(s).pipe
      ensures old(s).finished <= s.finished
      ensures s.loop.cur.dirs == old(s).loop.cur.dirs[1..] || (s.loop.cur.dirs == old(s).loop.cur.dirs && |TryQ(s)| < |TryQ(old(s))|)
      ensures StillOpen(s, s.loop.cur.d) == StillOpen(old(s), s.loop.cur.d) && EmptyStays(old(s), s, s.loop.cur.d)
      ensures TryQ(old(s)) != [] && (a.Finish? || !StillOpen(old(s), old(s).loop.cur.d)) ==>
                && s.finished == old(s).finished + [TryQ(old(s))[0]]
                && ErrAt(s.err, TryQ(old(s))[0].id) == if a.Finish? then a.e else Other
      ensures TryQ(old(s)) == [] || (a.Later? && StillOpen(old(s), old(s).loop.cur.d)) ==> s.finished == old(s).finished
      ensures s.loop.cur.dirs == old(s).loop.cur.dirs || (a.Later? && StillOpen(s, s.loop.cur.d)) || Cleared(s, s.loop.cur.d, old(s).loop.cur.dirs[0])
    {
      var x, dir := Get(s, s.loop.cur.d), s.loop.cur.dirs[0];
      if Q(x, dir) == [] {
        SkipDir();
      } else if x.fdOpen && a.Later? {
        GiveUp();
      } else {
        FinishFront(if a.Finish? then a.e else Other);
      }
    }

    /** The queue of the direction is empty. */
    method SkipDir()
      requires Free() && Trying(s) && TryQ(s) == []
      modifies this
      ensures NoPoll(old(ls), ls)
      ensures Free() && s.loop == old(s).loop.(cur := old(s).loop.cur.(dirs := old(s).loop.cur.dirs[1..]))
      ensures s.started == old(s).started && s.queue == old(s).queue && s.pipe == old(s).pipe && s.finished == old(s).finished
      ensures s.descs == old(s).descs
    {
      Take(NextDir);
    }

    /** `post_proc` answered false. */
    method GiveUp()
      requires Free() && Trying(s) && TryQ(s) != [] && Get(s, s.loop.cur.d).fdOpen
      modifies this
      ensures NoPoll(old(ls), ls)
      ensures Free() && s.loop == old(s).loop.(cur := old(s).loop.cur.(dirs := old(s).loop.cur.dirs[1..]))
      ensures s.started == old(s).started && s.queue == old(s).queue && s.pipe == old(s).pipe && s.finished == old(s).finished
      ensures s.descs == old(s).descs
      ensures s.err == if old(s).loop.cur.dirs[0] in Get(old(s), old(s).loop.cur.d).ready then old(s).err else old(s).err[TryQ(old(s))[0].id := Success]
    {
      if s.loop.cur.dirs[0] in Get(s, s.loop.cur.d).ready {
        Take(Partial);
      } else {
        Take(Block);
      }
    }

    /** `post_proc` answered true: the operation is popped and called. */
    method FinishFront(e: Err)
      requires Free() && Trying(s) && TryQ(s) != []
      modifies this
      ensures NoPoll(old(ls), ls)
      ensures Free() && s.loop == old(s).loop && Trying(s) && TryQ(s) == TryQ(old(s))[1..]
      ensures s.started == old(s).started && s.queue == old(s).queue && s.pipe == old(s).pipe
      ensures s.finished == old(s).finished + [TryQ(old(s))[0]] && s.err == old(s).err[TryQ(old(s))[0].id := e]
      ensures StillOpen(s, s.loop.cur.d) == StillOpen(old(s), s.loop.cur.d) && EmptyStays(old(s), s, s.loop.cur.d)
    {
      Take(Done(e));
    }

    /** `descriptor_dispatch`: each direction is retried until its queue is empty or an operation would
        block; on a closed descriptor, or when no answer is "not yet", every direction ends up empty. */
    method DispatchAll(answers: seq<Answer>)
      requires Free() && s.loop.cur.Dispatch?
      modifies this
      ensures NoPoll(old(ls), ls)
      ensures Free() && s.loop == old(s).loop.(cur := if old(s).loop.cur.closure then Release(old(s).loop.cur.d) else NoCur)
      ensures s.started == old(s).started && s.queue == old(s).queue && s.pipe == old(s).pipe
      ensures old(s).finished <= s.finished
      ensures Eager(answers) || !StillOpen(old(s), old(s).loop.cur.d) ==>
                forall dir :: dir in old(s).loop.cur.dirs ==> Cleared(s, old(s).loop.cur.d, dir)
    {
      var n := 0;
      ghost var d, eager := s.loop.cur.d, Eager(answers) || !StillOpen(s, s.loop.cur.d);
      while s.loop.cur.dirs != []
        invariant NoPoll(old(ls), ls)
        invariant Free() && s.loop.cur.Dispatch?
        invariant s.loop == old(s).loop.(cur := old(s).loop.cur.(dirs := s.loop.cur.dirs))
        invariant s.started == old(s).started && s.queue == old(s).queue && s.pipe == old(s).pipe
        invariant old(s).finished <= s.finished && StillOpen(s, d) == StillOpen(old(s), d)
        invariant eager ==> forall dir :: dir in old(s).loop.cur.dirs ==> dir in s.loop.cur.dirs || Cleared(s, d, dir)
        decreases |s.loop.cur.dirs|, if s.loop.cur.dirs == [] then 0 else |TryQ(s)|
      {
        TryFront(if n < |answers| then answers[n] else Finish(Success));
        n := n + 1;
      }
      Leave();
    }

    /** The dispatch is over; a closure goes on to release its descriptor. */
    method Leave()
      requires Free() && s.loop.cur.Dispatch? && s.loop.cur.dirs == []
      modifies this
      ensures NoPoll(old(ls), ls)
      ensures Free() && s.loop == old(s).loop.(cur := if old(s).loop.cur.closure then Release(old(s).loop.cur.d) else NoCur)
      ensures s.started == old(s).started && s.queue == old(s).queue && s.pipe == old(s).pipe && s.finished == old(s).finished
      ensures s.descs == old(s).descs
    {
      Take(EndDispatch);
    }

    /** `op_add` of the next entry in hand. */
    method AddOne()
      requires Valid() && s.lock == Some(LOOP) && InPhase(s, LOOP, Holding) && s.agents[LOOP].todo != []
      modifies this
      ensures NoPoll(old(ls), ls)
      ensures Valid() && s.lock == Some(LOOP) && InPhase(s, LOOP, Holding)
      ensures s.agents[LOOP].todo == old(s).agents[LOOP].todo[1..] && s.queue == old(s).queue + [old(s).agents[LOOP].todo[0]]
      ensures s.loop == old(s).loop && s.started == old(s).started && s.finished == old(s).finished && s.pipe == old(s).pipe
    {
      Take(Push(LOOP));
      Take(Bump(LOOP));
    }

    /** The thread posts what it has drained from a dead descriptor, as `execute` does. */
    method PostAll()
      requires Valid() && s.lock.None? && InPhase(s, LOOP, WantLock)
      modifies this
      ensures NoPoll(old(ls), ls)
      ensures Free() && s.loop == old(s).loop && s.started == old(s).started && s.finished == old(s).finished
      ensures s.queue == old(s).queue + old(s).agents[LOOP].todo && s.pipe == old(s).pipe + 1
    {
      ghost var todo := s.agents[LOOP].todo;
      Take(Acquire(LOOP));
      while s.agents[LOOP].todo != []
        invariant NoPoll(old(ls), ls)
        invariant Valid() && s.lock == Some(LOOP) && InPhase(s, LOOP, Holding) && s.pipe == old(s).pipe
        invariant s.loop == old(s).loop && s.started == old(s).started && s.finished == old(s).finished
        invariant s.queue + s.agents[LOOP].todo == old(s).queue + todo
        decreases |s.agents[LOOP].todo|
      {
        ghost var q, rest := s.queue, s.agents[LOOP].todo;
        AddOne();
        assert q + rest == (q + [rest[0]]) + rest[1..];
      }
      Announce();
    }

    /** The lock is dropped and the wake byte written. */
    method Announce()
      requires Valid() && s.lock == Some(LOOP) && InPhase(s, LOOP, Holding) && s.agents[LOOP].todo == []
      modifies this
      ensures NoPoll(old(ls), ls)
      ensures Free() && s.loop == old(s).loop && s.started == old(s).started && s.finished == old(s).finished
      ensures s.queue == old(s).queue && s.pipe == old(s).pipe + 1
    {
      Take(Unlock(LOOP));
      Take(WakeUp(LOOP));
    }

    /** `descriptor_release`: the last one posts the operations that still wait. */
    method ReleaseCur()
      requires Free() && s.loop.cur.Release?
      modifies this
      ensures NoPoll(old(ls), ls)
      ensures Free() && s.loop == old(s).loop.(cur := NoCur) && s.started == old(s).started && s.finished == old(s).finished
      ensures if Get(old(s), old(s).loop.cur.d).rc == 1
              then s.queue == old(s).queue + Runs(Waiting(Get(old(s), old(s).loop.cur.d)))
              else s.queue == old(s).queue
      ensures old(s).pipe <= s.pipe && (|s.queue| > |old(s).queue| ==> old(s).pipe < s.pipe)
    {
      if Get(s, s.loop.cur.d).rc != 1 {
        LetGo();
      } else {
        var posting := FreeDesc();
        if posting {
          PostAll();
        }
      }
    }

    method LetGo()
      requires Free() && s.loop.cur.Release? && Get(s, s.loop.cur.d).rc != 1
      modifies this
      ensures NoPoll(old(ls), ls)
      ensures Free() && s.loop == old(s).loop.(cur := NoCur) && s.started == old(s).started && s.finished == old(s).finished
      ensures s.queue == old(s).queue && s.pipe == old(s).pipe
    {
      Take(Drop);
    }

    /** The descriptor goes; what waited on it is in hand to be posted. */
    method FreeDesc() returns (posting: bool)
      requires Free() && s.loop.cur.Release? && Get(s, s.loop.cur.d).rc == 1
      modifies this
      ensures NoPoll(old(ls), ls)
      ensures Valid() && s.lock.None? && s.loop == old(s).loop.(cur := NoCur) && s.started == old(s).started && s.finished == old(s).finished
      ensures s.queue == old(s).queue && s.pipe == old(s).pipe
      ensures posting == (Waiting(Get(old(s), old(s).loop.cur.d)) != [])
      ensures if posting then InPhase(s, LOOP, WantLock) && s.agents[LOOP].todo == Runs(Waiting(Get(old(s), old(s).loop.cur.d))) else LOOP !in s.agents
    {
      ghost var todo := Runs(Waiting(Get(s, s.loop.cur.d)));
      Take(Last);
      assert todo + [] == todo;
      posting := LOOP in s.agents;
    }

    method StartItem() returns (item: Item)
      requires Free() && s.loop.pc == InOps && s.loop.cur.NoCur? && s.loop.ops != []
      modifies this
      ensures NoPoll(old(ls), ls)
      ensures Free() && item == old(s).loop.ops[0] && s.started == old(s).started + [item] && s.queue == old(s).queue && s.pipe == old(s).pipe
      ensures match item
              case Run(op) => s.loop == old(s).loop.(ops := old(s).loop.ops[1..]) && s.finished == old(s).finished + [op]
              case Join(_, d, dir) => s.loop == old(s).loop.(ops := old(s).loop.ops[1..], cur := Dispatch(d, [dir], true)) && s.finished == old(s).finished
              case Close(d) => s.loop == old(s).loop.(ops := old(s).loop.ops[1..], cur := Release(d)) && s.finished == old(s).finished
    {
      item := s.loop.ops[0];
      StartEffect(s);
      Take(Start);
    }

    /** `op_run`: one closure, from its start to the end of its last release. */
    method RunItem(answers: seq<Answer>)
      requires Free() && s.loop.pc == InOps && s.loop.cur.NoCur? && s.loop.ops != []
      modifies this
      ensures NoPoll(old(ls), ls)
      ensures Free() && s.loop == old(s).loop.(ops := old(s).loop.ops[1..])
      ensures s.started == old(s).started + [old(s).loop.ops[0]]
      ensures old(s).queue <= s.queue && old(s).finished <= s.finished
      ensures old(s).pipe <= s.pipe && (|s.queue| > |old(s).queue| ==> old(s).pipe < s.pipe)
    {
      var item := StartItem();
      if item.Join? {
        DispatchAll(answers);
      }
      if !item.Run? {
        ReleaseCur();
      }
    }

    /** The drain loop of `run`: every closure swapped out is run, in order. What the drain itself posts
        waits for the next turn, with a byte in the pipe. */
    method RunOps(answers: seq<seq<Answer>>)
      requires Free() && s.loop.pc == InOps && s.loop.cur.NoCur?
      modifies this
      ensures NoPoll(old(ls), ls)
      ensures Free() && s.loop == old(s).loop.(pc := Top, ops := [])
      ensures s.started == old(s).started + old(s).loop.ops
      ensures old(s).queue <= s.queue && old(s).finished <= s.finished
      ensures old(s).pipe <= s.pipe && (|s.queue| > |old(s).queue| ==> old(s).pipe < s.pipe)
    {
      var n := 0;
      ghost var ops := s.loop.ops;
      while s.loop.ops != []
        invariant NoPoll(old(ls), ls)
        invariant Free() && n <= |ops| && s.loop == old(s).loop.(ops := ops[n..])
        invariant s.started == old(s).started + ops[..n]
        invariant old(s).queue <= s.queue && old(s).finished <= s.finished
        invariant old(s).pipe <= s.pipe && (|s.queue| > |old(s).queue| ==> old(s).pipe < s.pipe)
        decreases |ops| - n
      {
        RunItem(if n < |answers| then answers[n] else []);
        assert ops[n..][1..] == ops[n+1..] && ops[..n+1] == ops[..n] + [ops[n]];
        n := n + 1;
      }
      assert ops[..n] == ops;
      Take(EndRun);
    }

    /** One event: the pipe is read, or the descriptor dispatched. */
    method RunEvent(answers: seq<Answer>)
      requires Free() && s.loop.pc == InBatch && s.loop.cur.NoCur? && s.loop.batch != []
      modifies this
      ensures NoPoll(old(ls), ls)
      ensures Free() && s.loop == old(s).loop.(batch := old(s).loop.batch[1..], exec := old(s).loop.exec || old(s).loop.batch[0] == Wake)
      ensures s.started == old(s).started && s.queue == old(s).queue && old(s).finished <= s.finished
    {
      if s.loop.batch[0].Wake? {
        EmptyPipe();
      } else {
        BeginEvent();
        DispatchAll(answers);
      }
    }

    method EmptyPipe()
      requires Free() && s.loop.pc == InBatch && s.loop.cur.NoCur? && s.loop.batch != [] && s.loop.batch[0].Wake?
      modifies this
      ensures NoPoll(old(ls), ls)
      ensures Free() && s.loop == old(s).loop.(batch := old(s).loop.batch[1..], exec := true)
      ensures s.started == old(s).started && s.queue == old(s).queue && s.finished == old(s).finished
    {
      Take(ReadPipe);
    }

    method BeginEvent()
      requires Free() && s.loop.pc == InBatch && s.loop.cur.NoCur? && s.loop.batch != [] && s.loop.batch[0].Evs?
      modifies this
      ensures NoPoll(old(ls), ls)
      ensures Free() && s.loop == old(s).loop.(batch := old(s).loop.batch[1..],
                                               cur := Dispatch(old(s).loop.batch[0].d, DirSeq(old(s).loop.batch[0].mask), false))
      ensures s.started == old(s).started && s.queue == old(s).queue && s.finished == old(s).finished
    {
      Take(StartEvent);
    }

    /** The event loop of `run`. */
    method RunBatch(answers: seq<seq<Answer>>)
      requires Free() && s.loop.pc == InBatch && s.loop.cur.NoCur?
      modifies this
      ensures NoPoll(old(ls), ls)
      ensures Free() && s.loop == old(s).loop.(batch := [], exec := old(s).loop.exec || Wake in old(s).loop.batch)
      ensures s.started == old(s).started && s.queue == old(s).queue && old(s).finished <= s.finished
    {
      var n := 0;
      ghost var batch := s.loop.batch;
      while s.loop.batch != []
        invariant NoPoll(old(ls), ls)
        invariant Free() && n <= |batch| && s.loop == old(s).loop.(batch := batch[n..], exec := old(s).loop.exec || Wake in batch[..n])
        invariant s.started == old(s).started && s.queue == old(s).queue && old(s).finished <= s.finished
        decreases |batch| - n
      {
        assert batch[n..][1..] == batch[n+1..] && batch[..n+1] == batch[..n] + [batch[n]];
        RunEvent(if n < |answers| then answers[n] else []);
        n := n + 1;
      }
      assert batch[..n] == batch;
    }

    /** One `epoll::run`: a turn that the wake byte reaches starts every closure that was queued, in the order
        they were pushed; whatever it queues again has a wake byte of its own. */
    method Turn(evs: seq<Ev>, eventAnswers: seq<seq<Answer>>, answers: seq<seq<Answer>>)
      requires Free() && s.loop == Loop(Top, [], false, [], NoCur) && !MayReturn(s) && Deliverable(s, evs)
      modifies this
      ensures Free() && s.loop == Loop(Top, [], false, [], NoCur)
      ensures Wake in evs ==> s.started == old(s).started + old(s).queue
      ensures Wake in evs && s.queue != [] ==> s.pipe > 0
      ensures Wake !in evs ==> s.started == old(s).started && s.queue == old(s).queue
      ensures old(ls) <= ls && Polls(ls) == Polls(old(ls)) + [evs]
    {
      Take(Poll(evs));
      RunBatch(eventAnswers);
      if s.loop.exec {
        Take(Swap);
        RunOps(answers);
      } else {
        Take(SkipOps);
      }
    }
  }
}
