/** Descriptor lifetime, the queue lock and the engine count. */
module ProactorLifetime {
  import opened Proactor

  // ---------------------------------------------------------------- counting

  /** How many of the entries hold a reference to `d`. */
  function Refs(items: seq<Item>, d: nat): nat {
    if items == [] then 0 else (if Names(items[0], d) then 1 else 0) + Refs(items[1..], d)
  }

  lemma {:induction false} RefsConcat(a: seq<Item>, b: seq<Item>, d: nat)
    ensures Refs(a + b, d) == Refs(a, d) + Refs(b, d)
  {
    if a == [] {
      assert a + b == b;
    } else {
      RefsConcat(a[1..], b, d);
      assert (a + b)[1..] == a[1..] + b;
    }
  }

  lemma RefsOne(item: Item, d: nat)
    ensures Refs([item], d) == if Names(item, d) then 1 else 0
  {
    assert [item][1..] == [];
  }

  /** Entries that only call operations. */
  predicate AllRuns(items: seq<Item>) {
    forall i :: 0 <= i < |items| ==> items[i].Run?
  }

  lemma {:induction false} RunsHoldNothing(items: seq<Item>, d: nat)
    requires AllRuns(items)
    ensures Refs(items, d) == 0
  {
    if items != [] {
      RunsHoldNothing(items[1..], d);
    }
  }

  predicate Holds(a: Agent, d: nat) {
    a.Posting? && Refs(a.todo, d) > 0
  }

  predicate HoldsAt(agents: map<nat, Agent>, t: nat, d: nat) {
    t in agents && Holds(agents[t], d)
  }

  /** Submitters that took a reference to `d` and have not pushed their entry yet. */
  function Holders(agents: map<nat, Agent>, d: nat): set<nat> {
    set t | t in agents && Holds(agents[t], d)
  }

  function One(b: bool): nat {
    if b then 1 else 0
  }

  lemma HoldersUpdate(agents: map<nat, Agent>, t: nat, a: Agent, d: nat)
    ensures |Holders(agents[t := a], d)| == |Holders(agents, d)| - One(HoldsAt(agents, t, d)) + One(Holds(a, d))
  {
    var rest := Holders(agents, d) - {t};
    if HoldsAt(agents, t, d) {
      assert Holders(agents, d) == rest + {t};
    } else {
      assert Holders(agents, d) == rest;
    }
    if Holds(a, d) {
      assert Holders(agents[t := a], d) == rest + {t};
    } else {
      assert Holders(agents[t := a], d) == rest;
    }
  }

  lemma HoldersRemove(agents: map<nat, Agent>, t: nat, d: nat)
    ensures |Holders(agents - {t}, d)| == |Holders(agents, d)| - One(HoldsAt(agents, t, d))
  {
    var rest := Holders(agents, d) - {t};
    if HoldsAt(agents, t, d) {
      assert Holders(agents, d) == rest + {t};
    } else {
      assert Holders(agents, d) == rest;
    }
    assert Holders(agents - {t}, d) == rest;
  }

  function CurRef(cur: Cur, d: nat): nat {
    match cur
    case NoCur => 0
    case Dispatch(k, _, closure) => if closure && k == d then 1 else 0
    case Release(k) => if k == d then 1 else 0
  }

  /** References to `d` other than its handle: submitters in flight, queued entries,
      swapped-out entries and the entry being run. */
  function InFlight(agents: map<nat, Agent>, queue: seq<Item>, ops: seq<Item>, cur: Cur, d: nat): nat {
    |Holders(agents, d)| + Refs(queue, d) + Refs(ops, d) + CurRef(cur, d)
  }

  /** The reference count minus the share of the handle (or of the thread binding it). */
  function Shared(descs: map<nat, Desc>, d: nat): int {
    if d !in descs then 0
    else if descs[d].owner == Gone then descs[d].rc
    else descs[d].rc - 1
  }

  // ---------------------------------------------------------------- invariants

  predicate Inside(agents: map<nat, Agent>, t: nat) {
    t in agents && agents[t].Posting? && (agents[t].phase == Holding || agents[t].phase == Added)
  }

  /** The lock is held by exactly the thread that is inside `op_add`'s critical section. */
  ghost predicate LockOk(agents: map<nat, Agent>, lock: Option<nat>) {
    forall t: nat :: Inside(agents, t) <==> lock == Some(t)
  }

  predicate PostOk(t: nat, a: Agent) {
    match a
    case Posting(todo, phase, sent) =>
      && (AllRuns(todo) || (|todo| == 1 && t != LOOP))
      && (phase == WantLock ==> sent == 0 && todo != [])
      && (phase == NeedWake ==> todo == [] && sent > 0)
      && (phase == Added ==> sent > 0)
      && (phase == Holding ==> sent > 0 || todo != [])
    case Binding(d, carry) => t != LOOP
    case Carrying(d, id) => t != LOOP
  }

  ghost predicate PostsOk(agents: map<nat, Agent>) {
    forall t :: t in agents ==> PostOk(t, agents[t])
  }

  ghost predicate BindersOk(agents: map<nat, Agent>, descs: map<nat, Desc>) {
    forall t :: t in agents && agents[t].Binding? ==>
      && agents[t].d in descs && descs[agents[t].d].owner == Binder(t)
      && (agents[t].carry.Some? ==> Waiting(descs[agents[t].d]) == [])
  }

  predicate LoopOk(lp: Loop, posting: bool) {
    && (posting ==> lp.pc == InOps && lp.cur.NoCur?)
    && match lp.pc
       case Top => lp.batch == [] && lp.ops == [] && lp.cur.NoCur? && !lp.exec
       case Exited => lp.batch == [] && lp.ops == [] && lp.cur.NoCur? && !lp.exec
       case InBatch => lp.ops == [] && (lp.cur.NoCur? || (lp.cur.Dispatch? && !lp.cur.closure))
       case InOps => lp.batch == [] && !lp.exec && (lp.cur.Dispatch? ==> lp.cur.closure)
  }

  predicate DescOk(x: Desc) {
    && x.rc >= 1
    && (x.owner.Binder? ==> x.rc == 1 && !x.registered && x.fdOpen)
    && (x.registered ==> x.fdOpen)
  }

  ghost predicate DescsOk(descs: map<nat, Desc>, nextDesc: nat) {
    forall d :: d in descs ==> d < nextDesc && DescOk(descs[d])
  }

  /** The reference count of a live descriptor is exactly the number of references to it;
      a descriptor that is gone has none. */
  ghost predicate RefsOk(descs: map<nat, Desc>, agents: map<nat, Agent>, queue: seq<Item>, ops: seq<Item>, cur: Cur) {
    forall d: nat :: Shared(descs, d) == InFlight(agents, queue, ops, cur, d)
  }

  /** Every descriptor of the current event batch is alive and registered. */
  ghost predicate BatchOk(descs: map<nat, Desc>, batch: seq<Ev>, cur: Cur) {
    && (forall i :: 0 <= i < |batch| && batch[i].Evs? ==> batch[i].d in descs && descs[batch[i].d].registered)
    && (cur.Dispatch? && !cur.closure ==> cur.d in descs && descs[cur.d].registered)
  }

  /** 1 while some thread is between the push and the count bump of `op_add`. */
  function InOpAdd(agents: map<nat, Agent>, lock: Option<nat>): int {
    if lock.Some? && lock.value in agents && agents[lock.value].Posting? && agents[lock.value].phase == Added
    then 1 else 0
  }

  ghost predicate CountOk(s: State) {
    && s.count + InOpAdd(s.agents, s.lock) == |s.descs| + |s.queue| + |s.loop.ops|
    && (InOpAdd(s.agents, s.lock) == 1 ==> s.queue != [])
  }

  /** A thread has pushed an entry and not yet written its wake-up byte. */
  predicate Owes(agents: map<nat, Agent>, t: nat) {
    t in agents && agents[t].Posting? && agents[t].sent > 0
  }

  /** Something will still make the loop look at the queue: a byte in the pipe, a thread that
      has pushed but not yet written its byte, or a loop that has read the pipe but not swapped. */
  ghost predicate WakePending(pipe: nat, agents: map<nat, Agent>, exec: bool) {
    || pipe > 0
    || (exists t :: Owes(agents, t))
    || exec
  }

  ghost predicate NoLostWakeUp(s: State) {
    s.queue != [] ==> WakePending(s.pipe, s.agents, s.loop.exec)
  }

  ghost predicate Core(s: State) {
    && LockOk(s.agents, s.lock)
    && PostsOk(s.agents)
    && BindersOk(s.agents, s.descs)
    && LoopOk(s.loop, LOOP in s.agents)
    && DescsOk(s.descs, s.nextDesc)
    && RefsOk(s.descs, s.agents, s.queue, s.loop.ops, s.loop.cur)
    && BatchOk(s.descs, s.loop.batch, s.loop.cur)
    && CountOk(s)
    && NoLostWakeUp(s)
  }

  // ---------------------------------------------------------------- preservation

  // The reference equation under each kind of change. -------------------------

  lemma RefsSubmit(descs: map<nat, Desc>, agents: map<nat, Agent>, queue: seq<Item>, ops: seq<Item>, cur: Cur,
                   d: nat, x: Desc, t: nat, item: Item, phase: Phase)
    requires RefsOk(descs, agents, queue, ops, cur)
    requires d in descs && (forall k :: Names(item, k) <==> k == d)
    requires Shared(descs[d := x], d) == Shared(descs, d) + 1
    requires t in agents ==> !agents[t].Posting?
    ensures RefsOk(descs[d := x], agents[t := Posting([item], phase, 0)], queue, ops, cur)
  {
    var a := Posting([item], phase, 0);
    var agents', descs' := agents[t := a], descs[d := x];
    forall k: nat ensures Shared(descs', k) == InFlight(agents', queue, ops, cur, k) {
      HoldersUpdate(agents, t, a, k);
      RefsOne(item, k);
      assert Shared(descs, k) == InFlight(agents, queue, ops, cur, k);
    }
  }

  /** A thread's hands change without gaining or losing references. */
  lemma RefsAgent(descs: map<nat, Desc>, agents: map<nat, Agent>, queue: seq<Item>, ops: seq<Item>, cur: Cur,
                  t: nat, a: Agent)
    requires RefsOk(descs, agents, queue, ops, cur)
    requires forall k: nat :: HoldsAt(agents, t, k) <==> Holds(a, k)
    ensures RefsOk(descs, agents[t := a], queue, ops, cur)
  {
    var agents' := agents[t := a];
    forall k: nat ensures Shared(descs, k) == InFlight(agents', queue, ops, cur, k) {
      HoldersUpdate(agents, t, a, k);
      assert Shared(descs, k) == InFlight(agents, queue, ops, cur, k);
    }
  }

  lemma RefsGone(descs: map<nat, Desc>, agents: map<nat, Agent>, queue: seq<Item>, ops: seq<Item>, cur: Cur, t: nat)
    requires RefsOk(descs, agents, queue, ops, cur)
    requires forall k: nat :: !HoldsAt(agents, t, k)
    ensures RefsOk(descs, agents - {t}, queue, ops, cur)
  {
    var agents' := agents - {t};
    forall k: nat ensures Shared(descs, k) == InFlight(agents', queue, ops, cur, k) {
      HoldersRemove(agents, t, k);
      assert Shared(descs, k) == InFlight(agents, queue, ops, cur, k);
    }
  }

  lemma RefsPush(descs: map<nat, Desc>, agents: map<nat, Agent>, queue: seq<Item>, ops: seq<Item>, cur: Cur,
                 t: nat, phase: Phase, sent: nat)
    requires RefsOk(descs, agents, queue, ops, cur)
    requires t in agents && agents[t].Posting? && PostOk(t, agents[t]) && agents[t].todo != []
    ensures RefsOk(descs, agents[t := Posting(agents[t].todo[1..], phase, sent)], queue + [agents[t].todo[0]], ops, cur)
  {
    var todo := agents[t].todo;
    var a := Posting(todo[1..], phase, sent);
    var agents', queue' := agents[t := a], queue + [todo[0]];
    forall k: nat ensures Shared(descs, k) == InFlight(agents', queue', ops, cur, k) {
      HoldersUpdate(agents, t, a, k);
      RefsConcat(queue, [todo[0]], k);
      RefsOne(todo[0], k);
      if AllRuns(todo) {
        RunsHoldNothing(todo, k);
      }
      assert Shared(descs, k) == InFlight(agents, queue, ops, cur, k);
    }
  }

  lemma RefsSwap(descs: map<nat, Desc>, agents: map<nat, Agent>, queue: seq<Item>, cur: Cur)
    requires RefsOk(descs, agents, queue, [], cur)
    ensures RefsOk(descs, agents, [], queue, cur)
  {
    forall k: nat ensures Shared(descs, k) == InFlight(agents, [], queue, cur, k) {
      assert Shared(descs, k) == InFlight(agents, queue, [], cur, k);
    }
  }

  lemma RefsStart(descs: map<nat, Desc>, agents: map<nat, Agent>, queue: seq<Item>, ops: seq<Item>, cur: Cur)
    requires ops != [] && RefsOk(descs, agents, queue, ops, NoCur)
    requires forall k: nat :: CurRef(cur, k) == One(Names(ops[0], k))
    ensures RefsOk(descs, agents, queue, ops[1..], cur)
  {
    var ops' := ops[1..];
    forall k: nat ensures Shared(descs, k) == InFlight(agents, queue, ops', cur, k) {
      assert Shared(descs, k) == InFlight(agents, queue, ops, NoCur, k);
    }
  }

  /** Changes to descriptors and to the loop's current work that move no reference. */
  lemma RefsSame(descs: map<nat, Desc>, descs': map<nat, Desc>, agents: map<nat, Agent>,
                 queue: seq<Item>, ops: seq<Item>, cur: Cur, cur': Cur)
    requires RefsOk(descs, agents, queue, ops, cur)
    requires forall k: nat :: Shared(descs', k) == Shared(descs, k)
    requires forall k: nat :: CurRef(cur', k) == CurRef(cur, k)
    ensures RefsOk(descs', agents, queue, ops, cur')
  {
    forall k: nat ensures Shared(descs', k) == InFlight(agents, queue, ops, cur', k) {
      assert Shared(descs, k) == InFlight(agents, queue, ops, cur, k);
    }
  }

  lemma RefsDrop(descs: map<nat, Desc>, agents: map<nat, Agent>, queue: seq<Item>, ops: seq<Item>, d: nat)
    requires RefsOk(descs, agents, queue, ops, Release(d)) && d in descs
    ensures RefsOk(descs[d := descs[d].(rc := descs[d].rc - 1)], agents, queue, ops, NoCur)
  {
    var descs' := descs[d := descs[d].(rc := descs[d].rc - 1)];
    forall k: nat ensures Shared(descs', k) == InFlight(agents, queue, ops, NoCur, k) {
      assert Shared(descs, k) == InFlight(agents, queue, ops, Release(d), k);
    }
  }

  /** The last release: whoever drops the only reference knows that nothing else names `d`. */
  lemma RefsDestroy(descs: map<nat, Desc>, agents: map<nat, Agent>, queue: seq<Item>, ops: seq<Item>,
                    cur: Cur, cur': Cur, d: nat)
    requires RefsOk(descs, agents, queue, ops, cur) && d in descs && descs[d].rc == 1
    requires (cur' == cur && descs[d].owner != Gone) || (cur' == NoCur && cur == Release(d))
    ensures RefsOk(descs - {d}, agents, queue, ops, cur')
  {
    var descs' := descs - {d};
    forall k: nat ensures Shared(descs', k) == InFlight(agents, queue, ops, cur', k) {
      assert Shared(descs, k) == InFlight(agents, queue, ops, cur, k);
    }
  }

  // The remaining parts of the invariant, step by step. -----------------------

  /** Replacing the work of a thread that owes no wake-up byte. */
  lemma WakeStays(pipe: nat, agents: map<nat, Agent>, exec: bool, t: nat, a: Agent)
    requires !Owes(agents, t) || (a.Posting? && a.sent > 0)
    ensures WakePending(pipe, agents, exec) ==> WakePending(pipe, agents[t := a], exec)
  {
    if k :| Owes(agents, k) {
      assert Owes(agents[t := a], k);
    }
  }

  /** A thread outside the critical section takes up other work outside it. */
  lemma ThreadsUpdate(agents: map<nat, Agent>, lock: Option<nat>, t: nat, a: Agent)
    requires LockOk(agents, lock) && PostsOk(agents) && !Inside(agents, t)
    requires PostOk(t, a) && !(a.Posting? && (a.phase == Holding || a.phase == Added))
    ensures LockOk(agents[t := a], lock) && PostsOk(agents[t := a])
    ensures InOpAdd(agents[t := a], lock) == InOpAdd(agents, lock)
  {
    forall k: nat ensures Inside(agents[t := a], k) <==> lock == Some(k) {
      assert Inside(agents, k) <==> lock == Some(k);
    }
  }

  /** A bound descriptor changes without being registered or deregistered. */
  lemma DescUpdate(agents: map<nat, Agent>, descs: map<nat, Desc>, nextDesc: nat, batch: seq<Ev>, cur: Cur, d: nat, x: Desc)
    requires BindersOk(agents, descs) && DescsOk(descs, nextDesc) && BatchOk(descs, batch, cur)
    requires d in descs && !descs[d].owner.Binder? && DescOk(x) && x.registered == descs[d].registered
    ensures BindersOk(agents, descs[d := x]) && DescsOk(descs[d := x], nextDesc) && BatchOk(descs[d := x], batch, cur)
  {
  }

  lemma BindersUpdate(agents: map<nat, Agent>, descs: map<nat, Desc>, t: nat, a: Agent)
    requires BindersOk(agents, descs) && !a.Binding?
    ensures BindersOk(agents[t := a], descs)
  {
  }

  lemma CoreSubmit(s: State, t: nat, d: nat, dir: Dir, id: nat)
    requires Core(s) && t != LOOP && d in s.descs && s.descs[d].owner == Handle
    requires t in s.agents ==> s.agents[t].Carrying?
    ensures Core(DoSubmit(s, t, d, dir, id))
  {
    var x := s.descs[d].(rc := s.descs[d].rc + 1);
    var a := Posting([Join(id, d, dir)], WantLock, 0);
    RefsSubmit(s.descs, s.agents, s.queue, s.loop.ops, s.loop.cur, d, x, t, a.todo[0], WantLock);
    DescUpdate(s.agents, s.descs, s.nextDesc, s.loop.batch, s.loop.cur, d, x);
    BindersUpdate(s.agents, s.descs[d := x], t, a);
    ThreadsUpdate(s.agents, s.lock, t, a);
    WakeStays(s.pipe, s.agents, s.loop.exec, t, a);
  }

  lemma CoreExecute(s: State, t: nat, e: Err)
    requires Core(s) && Idle(s, t)
    ensures Core(DoExecute(s, t, e))
  {
    var a := Posting([Run(Plain(s.nextOp))], WantLock, 0);
    forall k: nat ensures !Holds(a, k) { RunsHoldNothing(a.todo, k); }
    RefsAgent(s.descs, s.agents, s.queue, s.loop.ops, s.loop.cur, t, a);
    WakeStays(s.pipe, s.agents, s.loop.exec, t, a);
  }

  lemma CoreUnbind(s: State, t: nat, d: nat)
    requires Core(s) && Idle(s, t) && s.lock.None? && d in s.descs && s.descs[d].owner == Handle
    ensures Core(DoUnbind(s, t, d))
  {
    var a := Posting([Close(d)], Holding, 0);
    RefsSubmit(s.descs, s.agents, s.queue, s.loop.ops, s.loop.cur, d, s.descs[d].(owner := Gone), t, Close(d), Holding);
    DescUpdate(s.agents, s.descs, s.nextDesc, s.loop.batch, s.loop.cur, d, s.descs[d].(owner := Gone));
    WakeStays(s.pipe, s.agents, s.loop.exec, t, a);
  }

  lemma CoreCreate(s: State, t: nat, kind: CreateKind)
    requires Core(s) && Idle(s, t)
    ensures Core(DoCreate(s, t, kind))
  {
    var s' := DoCreate(s, t, kind);
    RefsSame(s.descs, s'.descs, s.agents, s.queue, s.loop.ops, s.loop.cur, s.loop.cur);
    RefsAgent(s'.descs, s.agents, s.queue, s.loop.ops, s.loop.cur, t, s'.agents[t]);
    ThreadsUpdate(s.agents, s.lock, t, s'.agents[t]);
    WakeStays(s.pipe, s.agents, s.loop.exec, t, s'.agents[t]);
  }

  /** Removing a thread's entry; it owes no byte, or it has just been written. */
  lemma WakeGone(pipe: nat, agents: map<nat, Agent>, exec: bool, t: nat)
    requires !Owes(agents, t)
    ensures WakePending(pipe, agents, exec) ==>
              WakePending(pipe, agents - {t}, exec)
  {
    if k :| Owes(agents, k) {
      assert Owes(agents - {t}, k);
    }
  }

  lemma CoreBindOk(s: State, t: nat, d: nat, carry: Option<nat>, ready: set<Dir>)
    requires Core(s) && t in s.agents && s.agents[t] == Binding(d, carry)
    ensures Core(DoBindOk(s, t, d, carry, ready))
  {
    var s' := DoBindOk(s, t, d, carry, ready);
    RefsSame(s.descs, s'.descs, s.agents, s.queue, s.loop.ops, s.loop.cur, s.loop.cur);
    if carry.Some? {
      RefsAgent(s'.descs, s.agents, s.queue, s.loop.ops, s.loop.cur, t, s'.agents[t]);
      ThreadsUpdate(s.agents, s.lock, t, s'.agents[t]);
      WakeStays(s.pipe, s.agents, s.loop.exec, t, s'.agents[t]);
    } else {
      RefsGone(s'.descs, s.agents, s.queue, s.loop.ops, s.loop.cur, t);
      WakeGone(s.pipe, s.agents, s.loop.exec, t);
    }
  }

  lemma CoreBindIgnored(s: State, t: nat, d: nat, carry: Option<nat>)
    requires Core(s) && t in s.agents && s.agents[t] == Binding(d, carry)
    ensures Core(DoBindIgnored(s, t, d))
  {
    var s' := DoBindIgnored(s, t, d);
    RefsSame(s.descs, s'.descs, s.agents, s.queue, s.loop.ops, s.loop.cur, s.loop.cur);
    RefsGone(s'.descs, s.agents, s.queue, s.loop.ops, s.loop.cur, t);
    WakeGone(s.pipe, s.agents, s.loop.exec, t);
  }

  lemma CardRemove(m: map<nat, Desc>, d: nat)
    requires d in m
    ensures |m - {d}| == |m| - 1
  {
    assert (m - {d}).Keys == m.Keys - {d};
  }

  /** The drained operations, in the releasing thread's hands, hold no reference. */
  lemma RefsAbort(descs: map<nat, Desc>, agents: map<nat, Agent>, queue: seq<Item>, ops: seq<Item>, cur: Cur,
                  t: nat, todo: seq<Item>)
    requires RefsOk(descs, agents, queue, ops, cur) && AllRuns(todo)
    requires t in agents ==> agents[t].Binding?
    ensures RefsOk(descs, if todo == [] then agents - {t} else agents[t := Posting(todo, WantLock, 0)], queue, ops, cur)
  {
    if todo == [] {
      RefsGone(descs, agents, queue, ops, cur, t);
    } else {
      forall k: nat ensures !Holds(Posting(todo, WantLock, 0), k) { RunsHoldNothing(todo, k); }
      RefsAgent(descs, agents, queue, ops, cur, t, Posting(todo, WantLock, 0));
    }
  }

  lemma WakeAbort(pipe: nat, agents: map<nat, Agent>, exec: bool, t: nat, todo: seq<Item>)
    requires t in agents ==> agents[t].Binding?
    ensures WakePending(pipe, agents, exec) ==>
      WakePending(pipe, if todo == [] then agents - {t} else agents[t := Posting(todo, WantLock, 0)], exec)
  {
    if todo == [] {
      WakeGone(pipe, agents, exec, t);
    } else {
      WakeStays(pipe, agents, exec, t, Posting(todo, WantLock, 0));
    }
  }

  lemma ThreadsAbort(agents: map<nat, Agent>, lock: Option<nat>, t: nat, todo: seq<Item>)
    requires LockOk(agents, lock) && PostsOk(agents) && AllRuns(todo)
    requires t in agents ==> agents[t].Binding?
    ensures var agents' := if todo == [] then agents - {t} else agents[t := Posting(todo, WantLock, 0)];
            && LockOk(agents', lock) && PostsOk(agents')
            && InOpAdd(agents', lock) == InOpAdd(agents, lock)
  {
    if todo == [] {
      forall k: nat ensures Inside(agents - {t}, k) <==> lock == Some(k) {
        assert Inside(agents, k) <==> lock == Some(k);
      }
    } else {
      ThreadsUpdate(agents, lock, t, Posting(todo, WantLock, 0));
    }
  }

  lemma LastRefs(s: State, d: nat, todo: seq<Item>)
    requires Core(s) && LOOP !in s.agents && s.loop.cur == Release(d) && Get(s, d).rc == 1 && AllRuns(todo)
    ensures d in s.descs && s.descs[d].owner == Gone
    ensures RefsOk(s.descs - {d}, if todo == [] then s.agents - {LOOP} else s.agents[LOOP := Posting(todo, WantLock, 0)],
                   s.queue, s.loop.ops, NoCur)
  {
    assert Shared(s.descs, d) == InFlight(s.agents, s.queue, s.loop.ops, s.loop.cur, d);
    RefsDestroy(s.descs, s.agents, s.queue, s.loop.ops, Release(d), NoCur, d);
    RefsAbort(s.descs - {d}, s.agents, s.queue, s.loop.ops, NoCur, LOOP, todo);
  }

  /** The last release, by the loop thread. */
  lemma CoreLast(s: State, d: nat)
    requires Core(s) && LOOP !in s.agents && s.loop.cur == Release(d) && Get(s, d).rc == 1
    ensures Core(Destroy(WithCur(s, NoCur), LOOP, d, []))
  {
    var todo := Runs(Waiting(Get(s, d))) + [];
    LastRefs(s, d, todo);
    WakeAbort(s.pipe, s.agents, s.loop.exec, LOOP, todo);
    ThreadsAbort(s.agents, s.lock, LOOP, todo);
    CardRemove(s.descs, d);
  }

  /** The only release, by a thread whose `bind` failed. */
  lemma CoreBindFail(s: State, t: nat, d: nat, extra: seq<Item>)
    requires Core(s) && t in s.agents && s.agents[t].Binding? && s.agents[t].d == d && AllRuns(extra)
    ensures Core(Destroy(s, t, d, extra))
  {
    var todo := Runs(Waiting(s.descs[d])) + extra;
    RefsDestroy(s.descs, s.agents, s.queue, s.loop.ops, s.loop.cur, s.loop.cur, d);
    RefsAbort(s.descs - {d}, s.agents, s.queue, s.loop.ops, s.loop.cur, t, todo);
    WakeAbort(s.pipe, s.agents, s.loop.exec, t, todo);
    ThreadsAbort(s.agents, s.lock, t, todo);
    CardRemove(s.descs, d);
  }

  lemma RefsPhase(s: State, t: nat, p: Phase)
    requires Core(s) && t in s.agents && s.agents[t].Posting?
    ensures RefsOk(s.descs, s.agents[t := s.agents[t].(phase := p)], s.queue, s.loop.ops, s.loop.cur)
    ensures WakePending(s.pipe, s.agents, s.loop.exec) ==>
              WakePending(s.pipe, s.agents[t := s.agents[t].(phase := p)], s.loop.exec)
  {
    RefsAgent(s.descs, s.agents, s.queue, s.loop.ops, s.loop.cur, t, s.agents[t].(phase := p));
    WakeStays(s.pipe, s.agents, s.loop.exec, t, s.agents[t].(phase := p));
  }

  lemma CoreAcquire(s: State, t: nat)
    requires Core(s) && InPhase(s, t, WantLock) && s.lock.None?
    ensures Core(SetPhase(s, t, Holding).(lock := Some(t)))
  {
    RefsPhase(s, t, Holding);
  }

  lemma CoreBump(s: State, t: nat)
    requires Core(s) && InPhase(s, t, Added)
    ensures Core(SetPhase(s, t, Holding).(count := s.count + 1))
  {
    assert Inside(s.agents, t);
    RefsPhase(s, t, Holding);
  }

  lemma CoreUnlock(s: State, t: nat)
    requires Core(s) && InPhase(s, t, Holding) && s.agents[t].todo == []
    ensures Core(SetPhase(s, t, NeedWake).(lock := None))
  {
    assert Inside(s.agents, t);
    RefsPhase(s, t, NeedWake);
  }

  lemma CorePush(s: State, t: nat)
    requires Core(s) && InPhase(s, t, Holding) && s.agents[t].todo != []
    ensures Core(DoPush(s, t, s.agents[t].todo, s.agents[t].sent))
  {
    assert Inside(s.agents, t);
    var s' := DoPush(s, t, s.agents[t].todo, s.agents[t].sent);
    RefsPush(s.descs, s.agents, s.queue, s.loop.ops, s.loop.cur, t, Added, s.agents[t].sent + 1);
    assert Owes(s'.agents, t);
  }

  lemma CoreWakeUp(s: State, t: nat)
    requires Core(s) && InPhase(s, t, NeedWake)
    ensures Core(Remove(s, t).(pipe := s.pipe + 1))
  {
    RefsGone(s.descs, s.agents, s.queue, s.loop.ops, s.loop.cur, t);
  }

  /** Steps that change one descriptor's content but none of its references. */
  lemma CoreDesc(s: State, d: nat, x: Desc)
    requires Core(s) && d in s.descs && DescOk(x)
    requires x.rc == s.descs[d].rc && x.owner == s.descs[d].owner
    requires x.registered == s.descs[d].registered
    requires x.owner.Binder? ==> Waiting(x) == Waiting(s.descs[d])
    ensures Core(WithDesc(s, d, x))
  {
    RefsSame(s.descs, s.descs[d := x], s.agents, s.queue, s.loop.ops, s.loop.cur, s.loop.cur);
  }

  lemma CorePoll(s: State, evs: seq<Ev>)
    requires Core(s) && LoopAt(s, Top) && Deliverable(s, evs)
    ensures Core(DoPoll(s, evs))
  {
    var s' := DoPoll(s, evs);
    assert s'.descs.Keys == s.descs.Keys;
    RefsSame(s.descs, s'.descs, s.agents, s.queue, s.loop.ops, s.loop.cur, s.loop.cur);
  }

  /** Loop control steps that touch neither descriptors nor other threads. */
  lemma CoreControl(s: State, lp: Loop, pipe: nat)
    requires Core(s) && LoopOk(lp, LOOP in s.agents) && lp.ops == s.loop.ops
    requires forall k: nat :: CurRef(lp.cur, k) == CurRef(s.loop.cur, k)
    requires BatchOk(s.descs, lp.batch, lp.cur)
    requires lp.exec || (pipe == s.pipe && !s.loop.exec)
    ensures Core(s.(loop := lp, pipe := pipe))
  {
    RefsSame(s.descs, s.descs, s.agents, s.queue, s.loop.ops, s.loop.cur, lp.cur);
  }

  lemma CoreSwap(s: State)
    requires Core(s) && Enabled(s, Swap)
    ensures Core(DoSwap(s))
  {
    RefsSwap(s.descs, s.agents, s.queue, s.loop.cur);
  }

  /** An entry about to run names a live descriptor that is past its binding. */
  lemma HeadAlive(s: State, d: nat)
    requires Core(s) && s.loop.ops != [] && Names(s.loop.ops[0], d)
    ensures d in s.descs && !s.descs[d].owner.Binder?
  {
    assert Shared(s.descs, d) == InFlight(s.agents, s.queue, s.loop.ops, s.loop.cur, d);
  }

  lemma CoreStartRun(s: State)
    requires Core(s) && Enabled(s, Start) && s.loop.ops[0].Run?
    ensures Core(DoStart(s))
  {
    RefsStart(s.descs, s.agents, s.queue, s.loop.ops, NoCur);
  }

  lemma CoreStartJoin(s: State)
    requires Core(s) && Enabled(s, Start) && s.loop.ops[0].Join?
    ensures Core(DoStart(s))
  {
    var d, dir := s.loop.ops[0].d, s.loop.ops[0].dir;
    var cur := Dispatch(d, [dir], true);
    RefsStart(s.descs, s.agents, s.queue, s.loop.ops, cur);
    var s1 := s.(count := s.count - 1, loop := s.loop.(ops := s.loop.ops[1..], cur := cur));
    HeadAlive(s, d);
    var x := s.descs[d];
    CoreDesc(s1, d, SetQ(x, dir, Q(x, dir) + [Io(s.loop.ops[0].id, d, dir)]));
  }

  lemma CoreStartClose(s: State)
    requires Core(s) && Enabled(s, Start) && s.loop.ops[0].Close?
    ensures Core(DoStart(s))
  {
    var s' := DoStart(s);
    HeadAlive(s, s.loop.ops[0].d);
    RefsStart(s.descs, s.agents, s.queue, s.loop.ops, s'.loop.cur);
    RefsSame(s.descs, s'.descs, s.agents, s.queue, s'.loop.ops, s'.loop.cur, s'.loop.cur);
  }

  lemma CoreStart(s: State)
    requires Core(s) && Enabled(s, Start)
    ensures Core(DoStart(s))
  {
    match s.loop.ops[0]
    case Run(_) => CoreStartRun(s);
    case Join(_, _, _) => CoreStartJoin(s);
    case Close(_) => CoreStartClose(s);
  }

  lemma CoreDrop(s: State, d: nat)
    requires Core(s) && LOOP !in s.agents && s.loop.cur == Release(d) && Get(s, d).rc != 1
    ensures Core(DoDrop(s, d))
  {
    assert Shared(s.descs, d) == InFlight(s.agents, s.queue, s.loop.ops, s.loop.cur, d);
    RefsDrop(s.descs, s.agents, s.queue, s.loop.ops, d);
  }

  /** Every step keeps the core invariant. */
  lemma KeepCore(s: State, l: Label)
    requires Core(s) && Enabled(s, l)
    ensures Core(Apply(s, l))
  {
    if LoopStep(l) {
      KeepLoopStep(s, l);
    } else if PostStep(l) {
      KeepPostStep(s, l);
    } else {
      KeepSubmitStep(s, l);
    }
  }

  /** Steps of `execute`, by any thread. */
  predicate PostStep(l: Label) {
    l.Acquire? || l.Push? || l.Bump? || l.Unlock? || l.WakeUp?
  }

  /** Steps of the loop thread outside `execute`. */
  predicate LoopStep(l: Label) {
    l.Return? || l.Poll? || l.StartEvent? || l.ReadPipe? || l.SkipOps? || l.Swap? || l.Start? || l.Done?
    || l.Block? || l.Partial? || l.NextDir? || l.EndDispatch? || l.Drop? || l.Last? || l.EndRun? || l.SetTimers?
  }

  lemma KeepSubmitStep(s: State, l: Label)
    requires Core(s) && Enabled(s, l) && !PostStep(l) && !LoopStep(l)
    ensures Core(Apply(s, l))
  {
    if l.Submit? {
      CoreSubmit(s, l.t, l.d, l.dir, s.nextOp);
    } else if l.Execute? {
      CoreExecute(s, l.t, l.e);
    } else if l.Unbind? {
      CoreUnbind(s, l.t, l.d);
    } else if l.Create? {
      CoreCreate(s, l.t, l.kind);
    } else if l.BindOk? {
      CoreBindOk(s, l.t, s.agents[l.t].d, s.agents[l.t].carry, l.ready);
    } else if l.BindIgnored? {
      CoreBindIgnored(s, l.t, s.agents[l.t].d, s.agents[l.t].carry);
    } else if l.BindFail? {
      KeepBindFail(s, l.t, s.agents[l.t].d, s.agents[l.t].carry, l.e);
    } else if l.SubmitCarried? {
      CoreSubmit(s, l.t, s.agents[l.t].d, Wr, s.agents[l.t].id);
    } else if l.Ready? {
      KeepReady(s, l.d, l.dir);
    } else if l.Unready? {
      KeepUnready(s, l.d, l.dir);
    }
  }

  lemma KeepPostStep(s: State, l: Label)
    requires Core(s) && Enabled(s, l) && PostStep(l)
    ensures Core(Apply(s, l))
  {
    if l.Acquire? {
      CoreAcquire(s, l.t);
    } else if l.Push? {
      CorePush(s, l.t);
    } else if l.Bump? {
      CoreBump(s, l.t);
    } else if l.Unlock? {
      CoreUnlock(s, l.t);
    } else if l.WakeUp? {
      CoreWakeUp(s, l.t);
    }
  }

  lemma KeepLoopStep(s: State, l: Label)
    requires Core(s) && Enabled(s, l) && LoopStep(l)
    ensures Core(Apply(s, l))
  {
    if RunStep(l) {
      KeepRunStep(s, l);
    } else {
      KeepPollStep(s, l);
    }
  }

  /** Steps inside `descriptor_dispatch`, `descriptor_release` and `op_run`. */
  predicate RunStep(l: Label) {
    l.Start? || l.Done? || l.Block? || l.Partial? || l.NextDir? || l.EndDispatch? || l.Drop? || l.Last?
  }

  lemma KeepRunStep(s: State, l: Label)
    requires Core(s) && Enabled(s, l) && RunStep(l)
    ensures Core(Apply(s, l))
  {
    if l.Start? {
      CoreStart(s);
    } else if l.Done? {
      KeepDone(s, s.loop.cur.d, s.loop.cur.dirs[0], l.e);
    } else if l.Drop? {
      CoreDrop(s, s.loop.cur.d);
    } else if l.Last? {
      CoreLast(s, s.loop.cur.d);
    } else {
      KeepTryStep(s, l);
    }
  }

  lemma KeepTryStep(s: State, l: Label)
    requires Core(s) && Enabled(s, l) && RunStep(l) && !l.Start? && !l.Done? && !l.Drop? && !l.Last?
    ensures Core(Apply(s, l))
  {
    if l.EndDispatch? {
      CoreControl(s, DoEndDispatch(s).loop, s.pipe);
    } else {
      KeepTry(s);
    }
  }

  lemma KeepPollStep(s: State, l: Label)
    requires Core(s) && Enabled(s, l) && LoopStep(l) && !RunStep(l)
    ensures Core(Apply(s, l))
  {
    if l.Poll? {
      CorePoll(s, l.evs);
    } else if l.Swap? {
      CoreSwap(s);
    } else if l.StartEvent? || l.ReadPipe? {
      KeepEvent(s, l);
    } else {
      KeepTurn(s, l);
    }
  }

  lemma KeepTurn(s: State, l: Label)
    requires Core(s) && Enabled(s, l) && (l.Return? || l.SkipOps? || l.EndRun? || l.SetTimers?)
    ensures Core(Apply(s, l))
  {
    if !l.SetTimers? {
      CoreControl(s, s.loop.(pc := if l.Return? then Exited else Top), s.pipe);
    }
  }

  lemma KeepBindFail(s: State, t: nat, d: nat, carry: Option<nat>, e: Err)
    requires Core(s) && t in s.agents && s.agents[t] == Binding(d, carry)
    ensures Core(DoBindFail(s, t, d, carry, e))
  {
    var s1 := if Get(s, d).wr != [] then s.(err := s.err[Get(s, d).wr[0].id := e]) else s;
    match carry
    case None => CoreBindFail(s1, t, d, []);
    case Some(id) => CoreBindFail(s1.(err := s1.err[id := e]), t, d, [Run(Plain(id))]);
  }

  lemma KeepReady(s: State, d: nat, dir: Dir)
    requires Core(s) && d in s.descs
    ensures Core(DoReady(s, d, dir))
  {
    var x := s.descs[d];
    CoreDesc(s, d, x.(ready := x.ready + {dir}, edge := x.edge + {dir}));
  }

  lemma KeepUnready(s: State, d: nat, dir: Dir)
    requires Core(s) && d in s.descs
    ensures Core(DoUnready(s, d, dir))
  {
    CoreDesc(s, d, s.descs[d].(ready := s.descs[d].ready - {dir}));
  }

  /** The descriptor being dispatched or released is alive and past its binding. */
  lemma CurAlive(s: State)
    requires Core(s) && !s.loop.cur.NoCur?
    ensures s.loop.cur.d in s.descs && !s.descs[s.loop.cur.d].owner.Binder?
  {
    var d := s.loop.cur.d;
    assert Shared(s.descs, d) == InFlight(s.agents, s.queue, s.loop.ops, s.loop.cur, d);
  }

  lemma KeepDone(s: State, d: nat, dir: Dir, e: Err)
    requires Core(s) && s.loop.cur.Dispatch? && s.loop.cur.d == d
    ensures Core(DoDone(s, d, dir, e))
  {
    CurAlive(s);
    var q := Q(s.descs[d], dir);
    if q != [] {
      CoreDesc(s, d, SetQ(s.descs[d], dir, q[1..]));
    }
  }

  lemma KeepEvent(s: State, l: Label)
    requires Core(s) && Enabled(s, l) && (l.StartEvent? || l.ReadPipe?)
    ensures Core(Apply(s, l))
  {
    CoreControl(s, Apply(s, l).loop, Apply(s, l).pipe);
  }

  lemma KeepTry(s: State)
    requires Core(s) && Trying(s)
    ensures Core(DoNextDir(s))
  {
    CoreControl(s, DoNextDir(s).loop, s.pipe);
  }
}
