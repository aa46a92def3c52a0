/** `engine::run` of src/io/engine.cpp over the loop thread and the timer list: poll, drain, and return when
    neither the count nor the list keeps it going. */
module Engine {
  import opened Proactor
  import opened ProactorLifetime
  import opened ProactorPlaces
  import opened ProactorTheorems
  import opened ProactorLoop
  import Timers

  /** One turn as seen from outside: the events delivered, the answers of `post_proc`, the time read from
      the clock and what the callbacks of aborted and expired timers do. */
  datatype Input = Input(evs: seq<Ev>, eventAnswers: seq<seq<Answer>>, answers: seq<seq<Answer>>,
                         now: int, aborts: seq<seq<Timers.Action>>, scripts: seq<seq<Timers.Action>>)

  const Idling: Loop := Loop(Top, [], false, [], NoCur)

  class Runner {
    const thread: LoopThread
    const timers: Timers.TimerEngine

    constructor (thread: LoopThread, timers: Timers.TimerEngine)
      ensures this.thread == thread && this.timers == timers
    {
      this.thread, this.timers := thread, timers;
    }

    /** The loop thread is between two turns and knows how many timers are listed. */
    ghost predicate Ready()
      reads this, thread, timers
    {
      && thread.Free() && thread.s.loop == Idling && thread.s.timers == |timers.timers|
      && timers.Valid() && timers.held == multiset{}
    }

    /** `_mux.run(...)`, which also runs the timers' closures, and `timer_drain()`: one poll, which delivers the
        events of the input if the kernel can deliver them, and none otherwise. */
    method Turn(input: Input) returns (evs: seq<Ev>)
      requires Ready() && !MayReturn(thread.s)
      modifies thread, timers
      ensures Ready() && evs == if Deliverable(old(thread.s), input.evs) then input.evs else []
      ensures old(thread.ls) <= thread.ls && Polls(thread.ls) == Polls(old(thread.ls)) + [evs]
      ensures if Wake in evs then thread.s.started == old(thread.s).started + old(thread.s).queue && (thread.s.queue != [] ==> thread.s.pipe > 0)
              else thread.s.started == old(thread.s).started && thread.s.queue == old(thread.s).queue
      ensures timers.trail.ran == old(timers.trail).ran + old(timers.pending)
      ensures forall k :: k in timers.timers ==> timers.ids[k].due > input.now
    {
      evs := if Deliverable(thread.s, input.evs) then input.evs else [];
      thread.Turn(evs, input.eventAnswers, input.answers);
      timers.RunPending(input.aborts);
      var _ := timers.Drain(input.now, input.scripts);
      thread.Take(SetTimers(|timers.timers|));
    }

    /** The test of the loop fails: `run` returns. No timer is listed then, no descriptor is left, and the rest
        is as `ReturnsWhenDone` says. */
    method Stop()
      requires Ready() && MayReturn(thread.s)
      modifies thread
      ensures thread.Valid() && thread.s == old(thread.s).(loop := old(thread.s).loop.(pc := Exited)) && timers.timers == []
      ensures Over(thread.s) && Polls(thread.ls) == Polls(old(thread.ls))
    {
      thread.Take(Return);
      ghost var i := |thread.ls| - 1;
      assert thread.ls[i] == Return && thread.tr[i] == old(thread.s);
      ReturnsWhenDone(thread.tr, thread.ls, i);
      OverSame(old(thread.s), thread.s);
    }

    /** `engine::run`, for as long as there is input: one poll for each turn, and it stops exactly when nothing
        keeps it going. */
    method Run(inputs: seq<Input>) returns (returned: bool, turns: nat)
      requires Ready()
      modifies thread, timers
      ensures returned <==> thread.s.loop.pc == Exited
      ensures returned ==> thread.Valid() && timers.Valid() && timers.timers == [] && Over(thread.s)
      ensures !returned ==> Ready() && !MayReturn(thread.s) && turns == |inputs|
      ensures turns <= |inputs| && |Polls(thread.ls)| == |Polls(old(thread.ls))| + turns
      ensures old(MayReturn(thread.s)) ==> turns == 0
    {
      turns := 0;
      while turns < |inputs| && !MayReturn(thread.s)
        invariant Ready() && turns <= |inputs| && |Polls(thread.ls)| == |Polls(old(thread.ls))| + turns
        invariant old(MayReturn(thread.s)) ==> turns == 0 && MayReturn(thread.s)
      {
        var _ := Turn(inputs[turns]);
        turns := turns + 1;
      }
      returned := MayReturn(thread.s);
      if returned {
        Stop();
      }
    }
  }

  /** What holds when `run` has returned. */
  ghost predicate Over(s: State) {
    && s.descs == map[] && s.loop.ops == []
    && (s.queue == [] <==> InOpAdd(s.agents, s.lock) == 0)
    && (AllFinishedOnce(s) <==> s.queue == [] && EmptyHanded(s))
  }

  lemma OverSame(s: State, s': State)
    requires Over(s) && s' == s.(loop := s.loop.(pc := Exited))
    ensures Over(s')
  {
    forall t: nat, id: nat ensures Occurs(s', AtThread(t), id) == Occurs(s, AtThread(t), id) {
    }
  }
}
