/** The proactor of src/io/epoll.cpp and src/io/engine.cpp as a step system.

  Any number of submitting threads and one loop thread interleave; every shared
  memory access that another thread can observe is a step of its own:

  - a submitter takes a descriptor reference, later takes the queue lock, pushes
    its closure, bumps the engine count, drops the lock and writes the wake byte;
  - the loop thread polls, dispatches events, swaps the queue out under the lock
    and runs the closures; the last release of a descriptor turns its waiting
    operations into aborted ones and posts them again;
  - the kernel makes a registered descriptor ready (with an edge) or not ready.

  `post_proc` is an oracle: each attempt answers done, would-block or partial. */
module Proactor {

  datatype Option<+T> = None | Some(value: T)

  /** `ev_read`/`ev_accept`, `ev_write`/`ev_connect` and `ev_pri`. */
  datatype Dir = Rd | Wr | Pr

  /** The error code an operation carries. */
  datatype Err = Success | Aborted | Other

  /** An operation; `Io` operations wait on one direction of one descriptor. */
  datatype Op = Io(id: nat, d: nat, dir: Dir) | Plain(id: nat)

  /** An entry of `_op_queue`: an operation to call, or one of the two wrapped closures. */
  datatype Item = Run(op: Op) | Join(id: nat, d: nat, dir: Dir) | Close(d: nat)

  /** Who holds the reference that `descriptor_create` hands out. */
  datatype Owner = Handle | Binder(t: nat) | Gone

  datatype Desc = Desc(fdOpen: bool, registered: bool, rc: int, owner: Owner,
                       rd: seq<Op>, wr: seq<Op>, pr: seq<Op>,
                       ready: set<Dir>, edge: set<Dir>)

  /** Progress through `execute`: before the lock, inside it, between the push and
      the count bump of `op_add`, and after the lock but before `wake_up`. */
  datatype Phase = WantLock | Holding | Added | NeedWake

  datatype Agent =
    | Posting(todo: seq<Item>, phase: Phase, sent: nat)
    | Binding(d: nat, carry: Option<nat>)
    | Carrying(d: nat, id: nat)

  datatype Ev = Wake | Evs(d: nat, mask: set<Dir>)

  datatype Cur = NoCur | Dispatch(d: nat, dirs: seq<Dir>, closure: bool) | Release(d: nat)

  datatype Pc = Top | InBatch | InOps | Exited

  datatype Loop = Loop(pc: Pc, batch: seq<Ev>, exec: bool, ops: seq<Item>, cur: Cur)

  /** Shared state, thread-local control state, and four history logs
      (`pushed`, `started`, `joined`, `finished`) plus who aborted each dead descriptor. */
  datatype State = State(
    descs: map<nat, Desc>, nextDesc: nat, nextOp: nat,
    queue: seq<Item>, lock: Option<nat>, count: int, pipe: nat, timers: nat,
    agents: map<nat, Agent>, loop: Loop, err: map<nat, Err>,
    pushed: seq<Item>, started: seq<Item>, joined: seq<Op>, finished: seq<Op>,
    aborter: map<nat, nat>)

  datatype CreateKind = Open | Connect | UdpWrite

  datatype Label =
    | Submit(t: nat, d: nat, dir: Dir)
    | Execute(t: nat, e: Err)
    | Unbind(t: nat, d: nat)
    | Create(t: nat, kind: CreateKind)
    | BindOk(t: nat, ready: set<Dir>)
    | BindIgnored(t: nat)
    | BindFail(t: nat, e: Err)
    | SubmitCarried(t: nat)
    | Acquire(t: nat) | Push(t: nat) | Bump(t: nat) | Unlock(t: nat) | WakeUp(t: nat)
    | Ready(d: nat, dir: Dir) | Unready(d: nat, dir: Dir)
    | Return | Poll(evs: seq<Ev>) | StartEvent | ReadPipe | SkipOps | Swap
    | Start | Done(e: Err) | Block | Partial | NextDir | EndDispatch
    | Drop | Last | EndRun | SetTimers(n: nat)

  /** The loop thread's identity; submitters use the others. */
  const LOOP: nat := 0

  /** `char pipe_r[256]` in `epoll::run`. */
  const PIPE_CHUNK: nat := 256

  // ---------------------------------------------------------------- accessors

  const NoDesc: Desc := Desc(false, false, 0, Gone, [], [], [], {}, {})

  function Get(s: State, d: nat): Desc {
    if d in s.descs then s.descs[d] else NoDesc
  }

  function Q(x: Desc, dir: Dir): seq<Op> {
    match dir case Rd => x.rd case Wr => x.wr case Pr => x.pr
  }

  function SetQ(x: Desc, dir: Dir, q: seq<Op>): Desc {
    match dir case Rd => x.(rd := q) case Wr => x.(wr := q) case Pr => x.(pr := q)
  }

  function WithDesc(s: State, d: nat, x: Desc): State {
    s.(descs := s.descs[d := x])
  }

  function WithAgent(s: State, t: nat, a: Agent): State {
    s.(agents := s.agents[t := a])
  }

  function WithCur(s: State, c: Cur): State {
    s.(loop := s.loop.(cur := c))
  }

  /** The error an operation carries. */
  function ErrAt(err: map<nat, Err>, id: nat): Err {
    if id in err then err[id] else Success
  }

  function Runs(q: seq<Op>): (r: seq<Item>)
    ensures |r| == |q|
    ensures forall i :: 0 <= i < |q| ==> r[i] == Run(q[i])
  {
    seq(|q|, i requires 0 <= i < |q| => Run(q[i]))
  }

  /** `static const int epollev[]`: directions are tried in this order. */
  function DirSeq(m: set<Dir>): (r: seq<Dir>)
    ensures (Rd in r <==> Rd in m) && (Wr in r <==> Wr in m) && (Pr in r <==> Pr in m)
  {
    (if Rd in m then [Rd] else []) + (if Wr in m then [Wr] else []) + (if Pr in m then [Pr] else [])
  }

  /** Operations still waiting on a descriptor, in the order `descriptor_release` drains them. */
  function Waiting(x: Desc): seq<Op> {
    x.rd + x.wr + x.pr
  }

  /** `if (!op->error()) op->error() = error_aborted` over the drained operations. */
  function MarkAborted(err: map<nat, Err>, q: seq<Op>): map<nat, Err> {
    map id | id in err.Keys + (set o | o in q :: o.id) ::
      if (exists o :: o in q && o.id == id) && (id !in err || err[id] == Success) then Aborted
      else if id in err then err[id] else Success
  }

  /** `descriptor_release` when the count drops to zero: the engine count goes down,
      every waiting operation is drained into the releasing thread's hands and the
      descriptor is gone. `extra` is what the same thread posts next. */
  function Destroy(s: State, t: nat, d: nat, extra: seq<Item>): State {
    var x := Get(s, d);
    var todo := Runs(Waiting(x)) + extra;
    s.(descs := s.descs - {d},
       count := s.count - 1,
       err := MarkAborted(s.err, Waiting(x)),
       aborter := s.aborter[d := t],
       agents := if todo == [] then s.agents - {t}
                 else s.agents[t := Posting(todo, WantLock, 0)])
  }

  function Remove(s: State, t: nat): State {
    s.(agents := s.agents - {t})
  }

  // ---------------------------------------------------------------- steps

  predicate Idle(s: State, t: nat) {
    t != LOOP && t !in s.agents
  }

  predicate InPhase(s: State, t: nat, p: Phase) {
    t in s.agents && s.agents[t].Posting? && s.agents[t].phase == p
  }

  predicate LoopAt(s: State, pc: Pc) {
    s.loop.pc == pc && LOOP !in s.agents
  }

  /** The loop thread is inside `descriptor_dispatch`, at some direction. */
  predicate Trying(s: State) {
    LOOP !in s.agents && s.loop.cur.Dispatch? && s.loop.cur.dirs != []
  }

  /** The queue `descriptor_dispatch` is working on. */
  function TryQ(s: State): seq<Op>
    requires Trying(s)
  {
    Q(Get(s, s.loop.cur.d), s.loop.cur.dirs[0])
  }

  /** What one `epoll_wait` may deliver: each descriptor at most once, only
      registered ones with an undelivered edge, with all directions ready now. */
  predicate Deliverable(s: State, evs: seq<Ev>) {
    && (forall i :: 0 <= i < |evs| ==>
          match evs[i]
          case Wake => s.pipe > 0
          case Evs(d, m) => d in s.descs && s.descs[d].registered && s.descs[d].fdOpen
                            && s.descs[d].edge != {} && m == s.descs[d].ready)
    && (forall i, j :: 0 <= i < j < |evs| ==> evs[i] != evs[j])
  }

  predicate Polled(evs: seq<Ev>, d: nat) {
    exists i :: 0 <= i < |evs| && evs[i].Evs? && evs[i].d == d
  }

  /** `while ( _refcount.load() || !_timers.empty() )` fails. */
  predicate MayReturn(s: State) {
    s.count == 0 && s.timers == 0
  }

  predicate Enabled(s: State, l: Label) {
    match l
    case Submit(t, d, dir) => Idle(s, t) && d in s.descs && s.descs[d].owner == Handle && dir != Pr
    case Execute(t, e) => Idle(s, t)
    case Unbind(t, d) => Idle(s, t) && s.lock.None? && d in s.descs && s.descs[d].owner == Handle
    case Create(t, kind) => Idle(s, t)
    case BindOk(t, ready) => t in s.agents && s.agents[t].Binding? && Pr !in ready
    case BindIgnored(t) => t in s.agents && s.agents[t].Binding? && s.agents[t].carry.None?
    case BindFail(t, e) => t in s.agents && s.agents[t].Binding?
    case SubmitCarried(t) => t in s.agents && s.agents[t].Carrying?
                             && s.agents[t].d in s.descs && s.descs[s.agents[t].d].owner == Handle
    case Acquire(t) => InPhase(s, t, WantLock) && s.lock.None?
    case Push(t) => InPhase(s, t, Holding) && s.agents[t].todo != []
    case Bump(t) => InPhase(s, t, Added)
    case Unlock(t) => InPhase(s, t, Holding) && s.agents[t].todo == []
    case WakeUp(t) => InPhase(s, t, NeedWake)
    case Ready(d, dir) => d in s.descs && s.descs[d].registered && s.descs[d].fdOpen && dir != Pr
    case Unready(d, dir) => d in s.descs
    case Return => LoopAt(s, Top) && MayReturn(s)
    case Poll(evs) => LoopAt(s, Top) && !MayReturn(s) && Deliverable(s, evs)
    case StartEvent => LoopAt(s, InBatch) && s.loop.cur.NoCur? && s.loop.batch != [] && s.loop.batch[0].Evs?
    case ReadPipe => LoopAt(s, InBatch) && s.loop.cur.NoCur? && s.loop.batch != [] && s.loop.batch[0].Wake?
    case SkipOps => LoopAt(s, InBatch) && s.loop.cur.NoCur? && s.loop.batch == [] && !s.loop.exec
    case Swap => LoopAt(s, InBatch) && s.loop.cur.NoCur? && s.loop.batch == [] && s.loop.exec && s.lock.None?
    case Start => LoopAt(s, InOps) && s.loop.cur.NoCur? && s.loop.ops != []
    case Done(e) => Trying(s) && TryQ(s) != []
    case Block => Trying(s) && TryQ(s) != [] && Get(s, s.loop.cur.d).fdOpen
                  && s.loop.cur.dirs[0] !in Get(s, s.loop.cur.d).ready
    case Partial => Trying(s) && TryQ(s) != [] && Get(s, s.loop.cur.d).fdOpen
                    && s.loop.cur.dirs[0] in Get(s, s.loop.cur.d).ready
    case NextDir => Trying(s) && TryQ(s) == []
    case EndDispatch => LOOP !in s.agents && s.loop.cur.Dispatch? && s.loop.cur.dirs == []
    case Drop => LOOP !in s.agents && s.loop.cur.Release? && Get(s, s.loop.cur.d).rc != 1
    case Last => LOOP !in s.agents && s.loop.cur.Release? && Get(s, s.loop.cur.d).rc == 1
    case EndRun => LoopAt(s, InOps) && s.loop.cur.NoCur? && s.loop.ops == []
    case SetTimers(n) => LoopAt(s, Top) || LoopAt(s, InBatch) || LoopAt(s, InOps)
  }

  /** `descriptor_add_ref`, after which the thread holds a closure to post. */
  function DoSubmit(s: State, t: nat, d: nat, dir: Dir, id: nat): State {
    var x := Get(s, d);
    WithAgent(WithDesc(s, d, x.(rc := x.rc + 1)), t, Posting([Join(id, d, dir)], WantLock, 0))
  }

  function DoExecute(s: State, t: nat, e: Err): State {
    WithAgent(s, t, Posting([Run(Plain(s.nextOp))], WantLock, 0))
      .(nextOp := s.nextOp + 1, err := s.err[s.nextOp := e])
  }

  /** `unbind`: under the lock the handle is nulled and the closing closure is built. */
  function DoUnbind(s: State, t: nat, d: nat): State {
    WithAgent(WithDesc(s, d, Get(s, d).(owner := Gone)), t, Posting([Close(d)], Holding, 0)).(lock := Some(t))
  }

  function NewDesc(t: nat, wr: seq<Op>): Desc {
    Desc(true, false, 1, Binder(t), [], wr, [], {}, {})
  }

  /** `descriptor_create`; `connect` also queues its operation before binding. */
  function DoCreate(s: State, t: nat, kind: CreateKind): State {
    var d, op := s.nextDesc, Io(s.nextOp, s.nextDesc, Wr);
    var s1 := WithAgent(WithDesc(s, d, NewDesc(t, if kind == Connect then [op] else [])), t,
                        Binding(d, if kind == UdpWrite then Some(s.nextOp) else None));
    s1.(nextDesc := d + 1, count := s.count + 1,
        nextOp := if kind == Open then s.nextOp else s.nextOp + 1,
        joined := if kind == Connect then s.joined + [op] else s.joined)
  }

  /** `bind` succeeded: registering reports the directions that are ready as an edge. */
  function DoBindOk(s: State, t: nat, d: nat, carry: Option<nat>, ready: set<Dir>): State {
    var s1 := WithDesc(s, d, Get(s, d).(owner := Handle, registered := true, ready := ready, edge := ready));
    match carry
    case None => Remove(s1, t)
    case Some(id) => WithAgent(s1, t, Carrying(d, id))
  }

  /** The result of `bind` is not looked at for an accepted descriptor. */
  function DoBindIgnored(s: State, t: nat, d: nat): State {
    Remove(WithDesc(s, d, Get(s, d).(owner := Handle)), t)
  }

  function DoBindFail(s: State, t: nat, d: nat, carry: Option<nat>, e: Err): State {
    var s1 := if Get(s, d).wr != [] then s.(err := s.err[Get(s, d).wr[0].id := e]) else s;
    match carry
    case None => Destroy(s1, t, d, [])
    case Some(id) => Destroy(s1.(err := s1.err[id := e]), t, d, [Run(Plain(id))])
  }

  function SetPhase(s: State, t: nat, p: Phase): State {
    if t in s.agents && s.agents[t].Posting? then WithAgent(s, t, s.agents[t].(phase := p)) else s
  }

  function DoPush(s: State, t: nat, todo: seq<Item>, sent: nat): State {
    if todo == [] then s else
      WithAgent(s, t, Posting(todo[1..], Added, sent + 1))
        .(queue := s.queue + [todo[0]], pushed := s.pushed + [todo[0]])
  }

  function DoReady(s: State, d: nat, dir: Dir): State {
    var x := Get(s, d);
    WithDesc(s, d, x.(ready := x.ready + {dir}, edge := x.edge + {dir}))
  }

  function DoUnready(s: State, d: nat, dir: Dir): State {
    var x := Get(s, d);
    WithDesc(s, d, x.(ready := x.ready - {dir}))
  }

  function DoPoll(s: State, evs: seq<Ev>): State {
    s.(loop := s.loop.(pc := InBatch, batch := evs, exec := false),
       descs := map d | d in s.descs ::
         if Polled(evs, d) then s.descs[d].(edge := {}) else s.descs[d])
  }

  function DoStartEvent(s: State): State {
    if s.loop.batch == [] || !s.loop.batch[0].Evs? then s else
      s.(loop := s.loop.(batch := s.loop.batch[1..],
                         cur := Dispatch(s.loop.batch[0].d, DirSeq(s.loop.batch[0].mask), false)))
  }

  function DoReadPipe(s: State): State {
    if s.loop.batch == [] then s else
      s.(loop := s.loop.(batch := s.loop.batch[1..], exec := true),
         pipe := if s.pipe <= PIPE_CHUNK then 0 else s.pipe - PIPE_CHUNK)
  }

  function DoSwap(s: State): State {
    s.(loop := s.loop.(pc := InOps, exec := false, ops := s.queue), queue := [])
  }

  /** `op_run`: the engine count goes down, then the operation or closure is called. */
  function DoStart(s: State): State {
    if s.loop.ops == [] then s else
      var item := s.loop.ops[0];
      var s1 := s.(count := s.count - 1, started := s.started + [item],
                   loop := s.loop.(ops := s.loop.ops[1..]));
      match item
      case Run(op) => s1.(finished := s.finished + [op])
      case Join(id, d, dir) => DoJoin(s1, id, d, dir)
      case Close(d) => DoClose(s1, d)
  }

  /** `descriptor_dispatch_read`/`_write` up to its call of `descriptor_dispatch`. */
  function DoJoin(s: State, id: nat, d: nat, dir: Dir): State {
    var x, op := Get(s, d), Io(id, d, dir);
    WithCur(WithDesc(s, d, SetQ(x, dir, Q(x, dir) + [op])), Dispatch(d, [dir], true)).(joined := s.joined + [op])
  }

  /** The closure of `unbind` up to its call of `descriptor_release`. */
  function DoClose(s: State, d: nat): State {
    WithCur(WithDesc(s, d, Get(s, d).(fdOpen := false, registered := false, ready := {}, edge := {})), Release(d))
  }

  /** `post_proc` answered true: the front operation is popped and called. */
  function DoDone(s: State, d: nat, dir: Dir, e: Err): State {
    var q := Q(Get(s, d), dir);
    if q == [] then s else
      WithDesc(s, d, SetQ(Get(s, d), dir, q[1..])).(finished := s.finished + [q[0]], err := s.err[q[0].id := e])
  }

  function DoNextDir(s: State): State {
    if s.loop.cur.Dispatch? && s.loop.cur.dirs != [] then
      WithCur(s, s.loop.cur.(dirs := s.loop.cur.dirs[1..]))
    else s
  }

  function DoEndDispatch(s: State): State {
    if s.loop.cur.Dispatch? && s.loop.cur.closure then WithCur(s, Release(s.loop.cur.d)) else WithCur(s, NoCur)
  }

  /** `descriptor_release` when other references remain. */
  function DoDrop(s: State, d: nat): State {
    WithCur(WithDesc(s, d, Get(s, d).(rc := Get(s, d).rc - 1)), NoCur)
  }

  function Apply(s: State, l: Label): State
    requires Enabled(s, l)
  {
    match l
    case Submit(t, d, dir) => DoSubmit(s, t, d, dir, s.nextOp).(nextOp := s.nextOp + 1)
    case Execute(t, e) => DoExecute(s, t, e)
    case Unbind(t, d) => DoUnbind(s, t, d)
    case Create(t, kind) => DoCreate(s, t, kind)
    case BindOk(t, ready) => DoBindOk(s, t, s.agents[t].d, s.agents[t].carry, ready)
    case BindIgnored(t) => DoBindIgnored(s, t, s.agents[t].d)
    case BindFail(t, e) => DoBindFail(s, t, s.agents[t].d, s.agents[t].carry, e)
    case SubmitCarried(t) => DoSubmit(s, t, s.agents[t].d, Wr, s.agents[t].id)
    case Acquire(t) => SetPhase(s, t, Holding).(lock := Some(t))
    case Push(t) => DoPush(s, t, s.agents[t].todo, s.agents[t].sent)
    case Bump(t) => SetPhase(s, t, Holding).(count := s.count + 1)
    case Unlock(t) => SetPhase(s, t, NeedWake).(lock := None)
    case WakeUp(t) => Remove(s, t).(pipe := s.pipe + 1)
    case Ready(d, dir) => DoReady(s, d, dir)
    case Unready(d, dir) => DoUnready(s, d, dir)
    case Return => s.(loop := s.loop.(pc := Exited))
    case Poll(evs) => DoPoll(s, evs)
    case StartEvent => DoStartEvent(s)
    case ReadPipe => DoReadPipe(s)
    case SkipOps => s.(loop := s.loop.(pc := Top))
    case Swap => DoSwap(s)
    case Start => DoStart(s)
    case Done(e) => DoDone(s, s.loop.cur.d, s.loop.cur.dirs[0], e)
    case Block => DoNextDir(s).(err := s.err[TryQ(s)[0].id := Success])
    case Partial => DoNextDir(s)
    case NextDir => DoNextDir(s)
    case EndDispatch => DoEndDispatch(s)
    case Drop => DoDrop(s, s.loop.cur.d)
    case Last => Destroy(WithCur(s, NoCur), LOOP, s.loop.cur.d, [])
    case EndRun => s.(loop := s.loop.(pc := Top))
    case SetTimers(n) => s.(timers := n)
  }

  /** An entry of the run queue holds a reference to `d`. */
  predicate Names(item: Item, d: nat) {
    match item
    case Run(_) => false
    case Join(_, k, _) => k == d
    case Close(k) => k == d
  }

  /** The memory of descriptor `d` is read or written by the step. */
  predicate Touches(s: State, l: Label, d: nat) {
    match l
    case Submit(_, k, _) => k == d
    case BindOk(t, _) => t in s.agents && s.agents[t].Binding? && s.agents[t].d == d
    case BindIgnored(t) => t in s.agents && s.agents[t].Binding? && s.agents[t].d == d
    case BindFail(t, _) => t in s.agents && s.agents[t].Binding? && s.agents[t].d == d
    case SubmitCarried(t) => t in s.agents && s.agents[t].Carrying? && s.agents[t].d == d
    case Start => s.loop.ops != [] && Names(s.loop.ops[0], d)
    case StartEvent => s.loop.batch != [] && s.loop.batch[0].Evs? && s.loop.batch[0].d == d
    case Done(_) => AtDesc(s, d)
    case Block => AtDesc(s, d)
    case Partial => AtDesc(s, d)
    case NextDir => AtDesc(s, d)
    case Drop => AtDesc(s, d)
    case Last => AtDesc(s, d)
    case _ => false
  }

  predicate AtDesc(s: State, d: nat) {
    !s.loop.cur.NoCur? && s.loop.cur.d == d
  }

  // ---------------------------------------------------------------- runs

  /** A fresh engine: no descriptor, nothing queued, count zero. */
  predicate Init(s: State) {
    && s.descs == map[] && s.queue == [] && s.lock.None? && s.count == 0 && s.pipe == 0
    && s.nextDesc == 0 && s.nextOp == 0 && s.timers == 0
    && s.agents == map[] && s.loop == Loop(Top, [], false, [], NoCur) && s.err == map[]
    && s.pushed == [] && s.started == [] && s.joined == [] && s.finished == [] && s.aborter == map[]
  }

  predicate StepAt(tr: seq<State>, ls: seq<Label>, i: nat)
    requires |tr| == |ls| + 1 && i < |ls|
  {
    Enabled(tr[i], ls[i]) && tr[i+1] == Apply(tr[i], ls[i])
  }

  /** A run: consecutive states linked by enabled steps, from a fresh engine. */
  ghost predicate IsRun(tr: seq<State>, ls: seq<Label>) {
    && |tr| == |ls| + 1
    && Init(tr[0])
    && forall i :: 0 <= i < |ls| ==> StepAt(tr, ls, i)
  }
}
