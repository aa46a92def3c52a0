/** The dense index of src/io/poll.cpp: `_events`, handed to `poll(2)`, and `_desc` are parallel
    vectors; each descriptor remembers its own position in `pollidx`. Slot 0 is the wake pipe. */
module PollIndex {

  /** A `struct pollfd`: the fd it watches and whether POLLIN and POLLOUT are asked for. */
  datatype Entry = Entry(fd: int, wantRead: bool, wantWrite: bool)

  /** A `poll::_descriptor`; `slot` is `pollidx`, and the queues hold waiting operations. */
  datatype Desc = Desc(fd: int, slot: nat, readers: seq<nat>, writers: seq<nat>)

  datatype Owner = WakePipe | Of(d: nat)

  datatype State = State(events: seq<Entry>, desc: seq<Owner>, ds: map<nat, Desc>)

  datatype Direction = Read | Write

  /** What the loop thread runs. `Create` stands for the constructor, whose `pollidx` is not yet set, with the
      operation that `connect` queues before its bind closure runs;
      the others are closures, and `Ready` is one dispatch of a descriptor's events. `done` says how many
      waiting operations complete before one would block. */
  datatype Label =
    | Create(d: nat, fd: int, slot: nat, writers: seq<nat>)
    | Bind(d: nat)
    | Unbind(d: nat)
    | Submit(d: nat, dir: Direction, op: nat, done: nat)
    | Ready(d: nat, read: bool, write: bool, doneReads: nat, doneWrites: nat)

  const Init := State([Entry(0, true, false)], [WakePipe], map[])

  predicate Listed(s: State, d: nat) {
    Of(d) in s.desc
  }

  /** What is left of a queue after retrying it; on a closed descriptor every operation completes. */
  function Retried(q: seq<nat>, fd: int, done: nat): seq<nat> {
    if fd == -1 || |q| <= done then [] else q[done..]
  }

  /** The completed operations leave from the front: what stays is the end of the queue, past the first `done`
      entries, and on a closed descriptor nothing. */
  lemma RetriedSuffix(q: seq<nat>, fd: int, done: nat)
    ensures var r := Retried(q, fd, done);
            |r| <= |q| && q[..|q| - |r|] + r == q && |q| - |r| == if fd == -1 || |q| <= done then |q| else done
  {
  }

  function Wanting(e: Entry, x: Desc): Entry {
    e.(wantRead := x.readers != [], wantWrite := x.writers != [])
  }

  /** `_descriptor::complete`: retry the ready directions, then rewrite the interest of slot
      `pollidx`. A slot outside the vector is left out of the model's state; see `InBounds`. */
  function Complete(s: State, d: nat, read: bool, write: bool, doneReads: nat, doneWrites: nat): State
    requires d in s.ds
  {
    var x := s.ds[d];
    var x' := x.(readers := if read then Retried(x.readers, x.fd, doneReads) else x.readers,
                 writers := if write then Retried(x.writers, x.fd, doneWrites) else x.writers);
    State(if x.slot < |s.events| then s.events[x.slot := Wanting(s.events[x.slot], x')] else s.events,
          s.desc, s.ds[d := x'])
  }

  function Pushed(x: Desc, dir: Direction, op: nat): Desc {
    if dir.Read? then x.(readers := x.readers + [op]) else x.(writers := x.writers + [op])
  }

  /** The position of `o`, or the length of the vector. */
  function Find(desc: seq<Owner>, o: Owner): (i: nat)
    ensures i <= |desc| && (i < |desc| ==> desc[i] == o)
    ensures forall j :: 0 <= j < i ==> desc[j] != o
  {
    if desc == [] || desc[0] == o then 0 else 1 + Find(desc[1..], o)
  }

  function Moved(s: State, i: nat, last: nat): State
    requires i < |s.desc| && i < |s.events|
    requires last < |s.desc| && last < |s.events|
  {
    State(s.events[i := s.events[last]][..last], s.desc[i := s.desc[last]][..last],
          if i < last && s.desc[last].Of? && s.desc[last].d in s.ds
          then s.ds[s.desc[last].d := s.ds[s.desc[last].d].(slot := i)] else s.ds)
  }

  /** The unbind closure: swap with the last slot, drop it, close the fd. */
  function Unbound(s: State, d: nat): State
    requires d in s.ds
  {
    var i := Find(s.desc, Of(d));
    var s' := if i < |s.desc| == |s.events| then Moved(s, i, |s.desc| - 1) else s;
    s'.(ds := s'.ds[d := s'.ds[d].(fd := -1)])
  }

  function Bound(s: State, d: nat): State
    requires d in s.ds
  {
    State(s.events + [Entry(s.ds[d].fd, true, true)], s.desc + [Of(d)], s.ds[d := s.ds[d].(slot := |s.events|)])
  }

  /** Which steps the callers can bring about: a descriptor is created once, its
      bind closure runs once and before its unbind closure, events come only from listed
      descriptors, and a submission that finds its descriptor unlisted comes after the unbind
      closure, since closures run in the order they were queued. */
  predicate Enabled(s: State, l: Label) {
    match l
    case Create(d, fd, _, _) => d !in s.ds && fd != -1
    case Bind(d) => d in s.ds && !Listed(s, d) && s.ds[d].fd != -1
    case Unbind(d) => d in s.ds && Listed(s, d)
    case Submit(d, _, _, _) => d in s.ds && (!Listed(s, d) ==> s.ds[d].fd == -1)
    case Ready(d, _, _, _, _) => d in s.ds && Listed(s, d)
  }

  function Step(s: State, l: Label): State
    requires Enabled(s, l)
  {
    match l
    case Create(d, fd, slot, writers) => s.(ds := s.ds[d := Desc(fd, slot, [], writers)])
    case Bind(d) => Bound(s, d)
    case Unbind(d) => Unbound(s, d)
    case Submit(d, dir, op, done) =>
      Complete(s.(ds := s.ds[d := Pushed(s.ds[d], dir, op)]), d, dir.Read?, dir.Write?, done, done)
    case Ready(d, read, write, doneReads, doneWrites) => Complete(s, d, read, write, doneReads, doneWrites)
  }

  /** A submission puts its operation at the end of its own queue, from whose front `done` operations then
      complete, or all on a closed descriptor; nothing else of the descriptor changes, and no other descriptor. */
  lemma SubmitEffect(s: State, l: Label)
    requires Enabled(s, l) && l.Submit?
    ensures var x, y := s.ds[l.d], Step(s, l).ds[l.d];
            && y.fd == x.fd && y.slot == x.slot
            && (match l.dir
                case Read => y.writers == x.writers && Completed(x.readers + [l.op], y.readers, x.fd, l.done)
                case Write => y.readers == x.readers && Completed(x.writers + [l.op], y.writers, x.fd, l.done))
    ensures forall k :: k in s.ds && k != l.d ==> k in Step(s, l).ds && Step(s, l).ds[k] == s.ds[k]
    ensures Step(s, l).desc == s.desc
  {
    if l.dir.Read? {
      SubmitRead(s, l.d, l.op, l.done);
    } else {
      SubmitWrite(s, l.d, l.op, l.done);
    }
  }

  lemma SubmitRead(s: State, d: nat, op: nat, done: nat)
    requires Enabled(s, Submit(d, Read, op, done))
    ensures var x, s' := s.ds[d], Step(s, Submit(d, Read, op, done));
            d in s'.ds && s'.ds[d] == x.(readers := Retried(x.readers + [op], x.fd, done)) && Completed(x.readers + [op], s'.ds[d].readers, x.fd, done)
  {
    RetriedSuffix(s.ds[d].readers + [op], s.ds[d].fd, done);
  }

  lemma SubmitWrite(s: State, d: nat, op: nat, done: nat)
    requires Enabled(s, Submit(d, Write, op, done))
    ensures var x, s' := s.ds[d], Step(s, Submit(d, Write, op, done));
            d in s'.ds && s'.ds[d] == x.(writers := Retried(x.writers + [op], x.fd, done)) && Completed(x.writers + [op], s'.ds[d].writers, x.fd, done)
  {
    RetriedSuffix(s.ds[d].writers + [op], s.ds[d].fd, done);
  }

  /** `r` is what stays of `q` when the first `done` operations complete, or all of them on a closed descriptor. */
  ghost predicate Completed(q: seq<nat>, r: seq<nat>, fd: int, done: nat) {
    |r| <= |q| && q[..|q| - |r|] + r == q && |q| - |r| == if fd == -1 || |q| <= done then |q| else done
  }

  // ---------------------------------------------------------------- invariants

  /** Slot `i` belongs to a descriptor that knows it, and watches its fd. */
  ghost predicate SlotOk(s: State, i: nat)
    requires i < |s.desc| == |s.events|
  {
    s.desc[i].Of? && s.desc[i].d in s.ds && s.ds[s.desc[i].d].slot == i && s.events[i].fd == s.ds[s.desc[i].d].fd
  }

  ghost predicate IndexOk(s: State) {
    && |s.events| == |s.desc| > 0 && s.desc[0] == WakePipe && s.events[0].wantRead
    && (forall i :: 0 < i < |s.desc| ==> SlotOk(s, i))
    && (forall d :: d in s.ds && s.ds[d].fd == -1 ==> s.ds[d].slot > 0 && !Listed(s, d))
  }

  ghost predicate WantsOk(s: State, i: nat)
    requires i < |s.desc| == |s.events| && SlotOk(s, i)
  {
    var x := s.ds[s.desc[i].d];
    (x.readers != [] ==> s.events[i].wantRead) && (x.writers != [] ==> s.events[i].wantWrite)
  }

  /** A listed direction with waiting operations has its interest bit set. */
  ghost predicate InterestOk(s: State)
    requires IndexOk(s)
  {
    forall i :: 0 < i < |s.desc| ==> WantsOk(s, i)
  }

  /** The write to `_events[pollidx]` stays inside the vector. */
  predicate InBounds(s: State, l: Label) {
    match l
    case Submit(d, _, _, _) => d in s.ds && s.ds[d].slot < |s.events|
    case Ready(d, _, _, _, _) => d in s.ds && s.ds[d].slot < |s.events|
    case _ => true
  }

  lemma ListedSlot(s: State, d: nat)
    requires IndexOk(s) && Listed(s, d)
    ensures d in s.ds && 0 < s.ds[d].slot < |s.desc| && s.desc[s.ds[d].slot] == Of(d)
    ensures Find(s.desc, Of(d)) == s.ds[d].slot
  {
    var i :| 0 <= i < |s.desc| && s.desc[i] == Of(d);
    assert SlotOk(s, i);
    var j := Find(s.desc, Of(d));
    if 0 < j < |s.desc| {
      assert SlotOk(s, j);
    }
  }

  lemma UnboundIndex(s: State, d: nat)
    requires IndexOk(s) && Listed(s, d)
    ensures d in s.ds && IndexOk(Unbound(s, d)) && !Listed(Unbound(s, d), d)
  {
    ListedSlot(s, d);
    var s', n, i := Unbound(s, d), |s.desc| - 1, s.ds[d].slot;
    assert SlotOk(s, i) && SlotOk(s, n);
    forall j | 0 < j < n ensures SlotOk(s', j) && s'.desc[j] != Of(d) && s'.desc[j] in s.desc {
      assert SlotOk(s, j);
    }
    forall k | k in s'.ds && s'.ds[k].fd == -1 ensures s'.ds[k].slot > 0 && !Listed(s', k) {
      assert k == d || (s.ds[k].fd == -1 && !Listed(s, k));
    }
  }

  lemma CompleteIndex(s: State, d: nat, read: bool, write: bool, doneReads: nat, doneWrites: nat)
    requires IndexOk(s) && d in s.ds && s.ds[d].slot > 0
    ensures IndexOk(Complete(s, d, read, write, doneReads, doneWrites))
  {
    forall j | 0 < j < |s.desc| ensures SlotOk(Complete(s, d, read, write, doneReads, doneWrites), j) {
      assert SlotOk(s, j);
    }
  }

  /** Every step keeps the vectors parallel and every `pollidx` right. */
  lemma StepIndex(s: State, l: Label)
    requires IndexOk(s) && Enabled(s, l)
    ensures IndexOk(Step(s, l))
  {
    var s' := Step(s, l);
    match l
    case Create(d, fd, slot, writers) =>
      forall j | 0 < j < |s.desc| ensures SlotOk(s', j) {
        assert SlotOk(s, j);
      }
    case Bind(d) =>
      forall j | 0 < j < |s'.desc| ensures SlotOk(s', j) {
        assert j < |s.desc| ==> SlotOk(s, j) && s.desc[j] in s.desc;
      }
    case Unbind(d) => UnboundIndex(s, d);
    case Submit(d, dir, op, done) =>
      if Listed(s, d) {
        ListedSlot(s, d);
      }
      var s1 := s.(ds := s.ds[d := Pushed(s.ds[d], dir, op)]);
      forall j | 0 < j < |s.desc| ensures SlotOk(s1, j) {
        assert SlotOk(s, j);
      }
      CompleteIndex(s1, d, dir.Read?, dir.Write?, done, done);
    case Ready(d, read, write, doneReads, doneWrites) =>
      ListedSlot(s, d);
      CompleteIndex(s, d, read, write, doneReads, doneWrites);
  }

  // ---------------------------------------------------------------- interest

  /** A submission that comes after its descriptor was unbound rewrites the slot the descriptor
      once had. It takes a needed bit from the slot's new owner when that owner waits in the
      submitted direction, or waits in the other one and the closed descriptor does not. */
  predicate Clobbers(s: State, l: Label) {
    && l.Submit? && l.d in s.ds && !Listed(s, l.d)
    && 0 < s.ds[l.d].slot < |s.desc| && s.desc[s.ds[l.d].slot].Of? && s.desc[s.ds[l.d].slot].d in s.ds
    && Robs(s.ds[l.d], l.dir, s.ds[s.desc[s.ds[l.d].slot].d])
  }

  predicate Robs(x: Desc, dir: Direction, y: Desc) {
    match dir
    case Read => y.readers != [] || (y.writers != [] && x.writers == [])
    case Write => y.writers != [] || (y.readers != [] && x.readers == [])
  }

  /** Interest survives a step exactly when the step is not such a submission. */
  lemma InterestStep(s: State, l: Label)
    requires IndexOk(s) && InterestOk(s) && Enabled(s, l)
    ensures IndexOk(Step(s, l))
    ensures InterestOk(Step(s, l)) <==> !Clobbers(s, l)
  {
    StepIndex(s, l);
    match l
    case Create(d, fd, slot, writers) => InterestRest(s, l);
    case Bind(d) => InterestRest(s, l);
    case Unbind(d) => InterestUnbind(s, d);
    case Submit(d, dir, op, done) =>
      if Listed(s, d) {
        InterestListed(s, l);
      } else {
        InterestLate(s, l);
      }
    case Ready(d, read, write, doneReads, doneWrites) => InterestListed(s, l);
  }

  lemma InterestRest(s: State, l: Label)
    requires IndexOk(s) && InterestOk(s) && Enabled(s, l) && (l.Create? || l.Bind?) && IndexOk(Step(s, l))
    ensures InterestOk(Step(s, l))
  {
    var s' := Step(s, l);
    forall j | 0 < j < |s'.desc| ensures WantsOk(s', j) {
      assert j < |s.desc| ==> SlotOk(s, j) && WantsOk(s, j);
    }
  }

  lemma InterestUnbind(s: State, d: nat)
    requires IndexOk(s) && InterestOk(s) && Listed(s, d) && d in s.ds && IndexOk(Unbound(s, d))
    ensures InterestOk(Unbound(s, d))
  {
    ListedSlot(s, d);
    var s', n := Unbound(s, d), |s.desc| - 1;
    forall j | 0 < j < n ensures SlotOk(s', j) && WantsOk(s', j) {
      assert SlotOk(s, j) && WantsOk(s, j) && SlotOk(s, n) && WantsOk(s, n);
    }
  }

  lemma InterestListed(s: State, l: Label)
    requires IndexOk(s) && InterestOk(s) && Enabled(s, l) && (l.Submit? || l.Ready?) && Listed(s, l.d)
    requires IndexOk(Step(s, l))
    ensures InterestOk(Step(s, l)) && InBounds(s, l)
  {
    ListedSlot(s, l.d);
    var s' := Step(s, l);
    forall j | 0 < j < |s'.desc| ensures WantsOk(s', j) {
      assert SlotOk(s, j) && WantsOk(s, j) && SlotOk(s', j);
    }
  }

  lemma InterestLate(s: State, l: Label)
    requires IndexOk(s) && InterestOk(s) && Enabled(s, l) && l.Submit? && !Listed(s, l.d)
    requires IndexOk(Step(s, l))
    ensures InterestOk(Step(s, l)) <==> !Clobbers(s, l)
  {
    var s', p := Step(s, l), s.ds[l.d].slot;
    forall j | 0 < j < |s'.desc| && j != p ensures WantsOk(s', j) {
      assert SlotOk(s, j) && WantsOk(s, j) && SlotOk(s', j);
    }
    if p < |s.desc| {
      assert SlotOk(s, p) && SlotOk(s', p);
      assert s.desc[p] != Of(l.d);
      assert WantsOk(s', p) <==> !Clobbers(s, l);
    }
  }

  // ---------------------------------------------------------------- whole runs

  ghost predicate IsRun(run: seq<State>, labels: seq<Label>) {
    && |run| == |labels| + 1 && run[0] == Init
    && (forall i :: 0 <= i < |labels| ==> StepsAt(run, labels, i))
  }

  ghost predicate StepsAt(run: seq<State>, labels: seq<Label>, i: nat)
    requires i < |labels| && |run| == |labels| + 1
  {
    Enabled(run[i], labels[i]) && run[i+1] == Step(run[i], labels[i])
  }

  /** In every run, for every order of bind and unbind closures, the index is right. */
  lemma {:induction false} IndexAlways(run: seq<State>, labels: seq<Label>, n: nat)
    requires IsRun(run, labels) && n <= |labels|
    ensures IndexOk(run[n])
  {
    if n > 0 {
      IndexAlways(run, labels, n - 1);
      assert StepsAt(run, labels, n - 1);
      StepIndex(run[n-1], labels[n-1]);
    }
  }

  /** A run keeps every needed interest bit set, in all its states, exactly when none of its
      steps takes one away. */
  lemma InterestAlways(run: seq<State>, labels: seq<Label>)
    requires IsRun(run, labels)
    ensures forall n :: 0 <= n <= |labels| ==> IndexOk(run[n])
    ensures (forall n :: 0 <= n <= |labels| ==> InterestOk(run[n])) <==> (forall n :: 0 <= n < |labels| ==> !Clobbers(run[n], labels[n]))
  {
    forall n | 0 <= n <= |labels| ensures IndexOk(run[n]) {
      IndexAlways(run, labels, n);
    }
    if forall n :: 0 <= n <= |labels| ==> InterestOk(run[n]) {
      forall n | 0 <= n < |labels| ensures !Clobbers(run[n], labels[n]) {
        assert StepsAt(run, labels, n) && InterestOk(run[n]) && InterestOk(run[n+1]);
        InterestStep(run[n], labels[n]);
      }
    }
    if forall n :: 0 <= n < |labels| ==> !Clobbers(run[n], labels[n]) {
      forall n | 0 <= n <= |labels| ensures InterestOk(run[n]) {
        InterestUpTo(run, labels, n);
      }
    }
  }

  lemma {:induction false} InterestUpTo(run: seq<State>, labels: seq<Label>, n: nat)
    requires IsRun(run, labels) && n <= |labels|
    requires forall n :: 0 <= n < |labels| ==> !Clobbers(run[n], labels[n])
    ensures IndexOk(run[n]) && InterestOk(run[n])
  {
    if n > 0 {
      InterestUpTo(run, labels, n - 1);
      assert StepsAt(run, labels, n - 1);
      InterestStep(run[n-1], labels[n-1]);
    }
  }

  /** So a run whose submissions all reach their descriptors before the unbind closure is safe:
      bits stay set and every write is in bounds. */
  lemma TimelySubmissions(run: seq<State>, labels: seq<Label>, n: nat)
    requires IsRun(run, labels) && n <= |labels|
    requires forall i :: 0 <= i < |labels| && labels[i].Submit? ==> Listed(run[i], labels[i].d)
    ensures IndexOk(run[n]) && InterestOk(run[n]) && (n < |labels| ==> InBounds(run[n], labels[n]))
  {
    InterestAlways(run, labels);
    if n < |labels| {
      assert StepsAt(run, labels, n);
      if labels[n].Submit? || labels[n].Ready? {
        ListedSlot(run[n], labels[n].d);
      }
    }
  }

  /** Two bound descriptors, of which the second waits for input. */
  function TwoBound(a: int, b: int): State {
    State([Entry(0, true, false), Entry(a, true, true), Entry(b, true, false)], [WakePipe, Of(1), Of(2)],
          map[1 := Desc(a, 1, [], []), 2 := Desc(b, 2, [7], [])])
  }

  /** A submission that finds its descriptor unlisted, with a slot that is no longer there. */
  predicate Strays(s: State, l: Label) {
    l.Submit? && l.d in s.ds && !Listed(s, l.d) && s.ds[l.d].slot >= |s.events|
  }

  /** All writes of a run to the vector are in bounds exactly when none of its submissions is one of these. */
  lemma BoundsAlways(run: seq<State>, labels: seq<Label>)
    requires IsRun(run, labels)
    ensures (forall n :: 0 <= n < |labels| ==> InBounds(run[n], labels[n])) <==> (forall n :: 0 <= n < |labels| ==> !Strays(run[n], labels[n]))
  {
    forall n | 0 <= n < |labels| ensures InBounds(run[n], labels[n]) <==> !Strays(run[n], labels[n]) {
      IndexAlways(run, labels, n);
      assert StepsAt(run, labels, n);
      BoundsStep(run[n], labels[n]);
    }
  }

  lemma BoundsStep(s: State, l: Label)
    requires IndexOk(s) && Enabled(s, l)
    ensures InBounds(s, l) <==> !Strays(s, l)
  {
    if (l.Submit? || l.Ready?) && Listed(s, l.d) {
      ListedSlot(s, l.d);
    }
  }

  ghost predicate Reachable(s: State) {
    exists run: seq<State>, labels: seq<Label> :: IsRun(run, labels) && run[|labels|] == s
  }

  lemma ReachStep(s: State, l: Label)
    requires Reachable(s) && Enabled(s, l)
    ensures Reachable(Step(s, l))
  {
    var run: seq<State>, labels: seq<Label> :| IsRun(run, labels) && run[|labels|] == s;
    var run', labels' := run + [Step(s, l)], labels + [l];
    forall i | 0 <= i < |labels'| ensures StepsAt(run', labels', i) {
      assert i < |labels| ==> StepsAt(run, labels, i);
    }
    assert IsRun(run', labels');
  }

  /** A descriptor is created and bound, on a multiplexer that does not know it. */
  lemma ReachBound(s: State, d: nat, fd: int)
    requires Reachable(s) && d !in s.ds && Of(d) !in s.desc && fd != -1
    ensures Reachable(State(s.events + [Entry(fd, true, true)], s.desc + [Of(d)], s.ds[d := Desc(fd, |s.events|, [], [])]))
  {
    ReachStep(s, Create(d, fd, 0, []));
    var s1 := Step(s, Create(d, fd, 0, []));
    ReachStep(s1, Bind(d));
    assert Bound(s1, d).ds == s.ds[d := Desc(fd, |s.events|, [], [])];
  }

  function BothIdle(a: int, b: int): State {
    State([Entry(0, true, false), Entry(a, true, true), Entry(b, true, true)], [WakePipe, Of(1), Of(2)],
          map[1 := Desc(a, 1, [], []), 2 := Desc(b, 2, [], [])])
  }

  lemma ReachBothIdle(a: int, b: int)
    requires a != -1 && b != -1
    ensures Reachable(BothIdle(a, b))
  {
    assert IsRun([Init], []);
    ReachBound(Init, 1, a);
    var s2 := State(Init.events + [Entry(a, true, true)], Init.desc + [Of(1)], Init.ds[1 := Desc(a, 1, [], [])]);
    ReachBound(s2, 2, b);
    assert BothIdle(a, b).desc == s2.desc + [Of(2)];
  }

  /** Such a state is reached. */
  lemma ReachTwoBound(a: int, b: int)
    requires a != -1 && b != -1
    ensures Reachable(TwoBound(a, b))
  {
    var s := BothIdle(a, b);
    ReachBothIdle(a, b);
    assert s.desc[2] == Of(2);
    ReachStep(s, Submit(2, Read, 7, 0));
    assert Step(s, Submit(2, Read, 7, 0)).ds == TwoBound(a, b).ds;
  }

  /** From there, unbinding descriptor 1 moves descriptor 2 to slot 1, and a late read on
      descriptor 1 clears the interest of descriptor 2, which goes on waiting. */
  lemma LateReadDeafens(a: int, b: int)
    requires a != -1 && b != -1
    ensures var s := TwoBound(a, b);
            && Reachable(s) && IndexOk(s) && InterestOk(s) && Enabled(s, Unbind(1))
            && var s1 := Step(s, Unbind(1));
               && Enabled(s1, Submit(1, Read, 8, 0))
               && var s2 := Step(s1, Submit(1, Read, 8, 0));
                  s2.desc == [WakePipe, Of(2)] && s2.ds[2].readers == [7] && s2.ds[2].slot == 1 && !s2.events[1].wantRead
  {
    var s := TwoBound(a, b);
    ReachTwoBound(a, b);
    assert Listed(s, 1) by { assert s.desc[1] == Of(1); }
    assert Find(s.desc, Of(1)) == 1;
    var s1 := Step(s, Unbind(1));
    assert s1.desc == [WakePipe, Of(2)];
    assert s1.events == [Entry(0, true, false), Entry(b, true, false)];
    assert s1.ds[1].fd == -1;
  }

  /** With one descriptor only, the late read writes past the end of the vector. */
  lemma LateReadOutOfBounds(a: int)
    requires a != -1
    ensures var s := State([Entry(0, true, false), Entry(a, true, true)], [WakePipe, Of(1)], map[1 := Desc(a, 1, [], [])]);
            && Reachable(s) && Enabled(s, Unbind(1))
            && var s1 := Step(s, Unbind(1));
               Enabled(s1, Submit(1, Read, 8, 0)) && !InBounds(s1, Submit(1, Read, 8, 0))
  {
    assert IsRun([Init], []);
    ReachBound(Init, 1, a);
    var s := State([Entry(0, true, false), Entry(a, true, true)], [WakePipe, Of(1)], map[1 := Desc(a, 1, [], [])]);
    assert s == State(Init.events + [Entry(a, true, true)], Init.desc + [Of(1)], Init.ds[1 := Desc(a, 1, [], [])]);
    assert Listed(s, 1) by { assert s.desc[1] == Of(1); }
    assert Find(s.desc, Of(1)) == 1;
    var s1 := Step(s, Unbind(1));
    assert s1.desc == [WakePipe];
  }

  // ---------------------------------------------------------------- the vectors in place

  /** The queues of slot `i` after its events were handled. */
  ghost predicate Served(s: State, s': State, i: nat, ready: (bool, bool), done: (nat, nat)) {
    && i < |s.desc| && s.desc[i].Of? && s.desc[i].d in s.ds && s.desc[i].d in s'.ds
    && var x := s.ds[s.desc[i].d];
       s'.ds[s.desc[i].d] == x.(readers := if ready.0 then Retried(x.readers, x.fd, done.0) else x.readers,
                                writers := if ready.1 then Retried(x.writers, x.fd, done.1) else x.writers)
  }

  /** Completing one slot serves it and leaves the others. */
  lemma ServeOne(s: State, i: nat, ready: (bool, bool), done: (nat, nat))
    requires IndexOk(s) && 0 < i < |s.desc| && SlotOk(s, i)
    ensures var s' := Complete(s, s.desc[i].d, ready.0, ready.1, done.0, done.1);
            && Served(s, s', i, ready, done)
            && forall j :: 0 < j < |s.desc| && j != i ==> s.desc[j].Of? && s.desc[j].d != s.desc[i].d && s.desc[j].d in s.ds && s'.ds[s.desc[j].d] == s.ds[s.desc[j].d]
  {
    forall j | 0 < j < |s.desc| && j != i ensures s.desc[j].Of? && s.desc[j].d != s.desc[i].d && s.desc[j].d in s.ds {
      assert SlotOk(s, j);
    }
  }

  lemma ServedStart(s: State, done: seq<(nat, nat)>)
    requires IndexOk(s) && |done| == |s.desc|
    ensures forall j :: 0 < j < |s.desc| ==> Served(s, s, j, (false, false), done[j])
  {
    forall j | 0 < j < |s.desc| ensures Served(s, s, j, (false, false), done[j]) {
      assert SlotOk(s, j);
    }
  }

  lemma ServedLater(s0: State, s: State, i: nat, ready: seq<(bool, bool)>, done: seq<(nat, nat)>)
    requires IndexOk(s) && s0.desc == s.desc && 0 < i < |s.desc| == |ready| == |done| && SlotOk(s, i)
    requires forall j :: 0 < j < i ==> Served(s0, s, j, ready[j], done[j])
    requires forall j :: 0 < j < |s.desc| && i <= j ==> Served(s0, s, j, (false, false), done[j])
    ensures var s' := Complete(s, s.desc[i].d, ready[i].0, ready[i].1, done[i].0, done[i].1);
            && (forall j :: 0 < j <= i ==> Served(s0, s', j, ready[j], done[j]))
            && (forall j :: 0 < j < |s.desc| && i < j ==> Served(s0, s', j, (false, false), done[j]))
  {
    ServeOne(s, i, ready[i], done[i]);
    assert Served(s0, s, i, (false, false), done[i]);
  }

  class Poll {
    var events: seq<Entry>
    var desc: seq<Owner>
    var ds: map<nat, Desc>

    ghost function Model(): State
      reads this
    {
      State(events, desc, ds)
    }

    constructor ()
      ensures Model() == Init && IndexOk(Model())
    {
      events, desc, ds := [Entry(0, true, false)], [WakePipe], map[];
    }

    /** The bind closure. */
    method BindClosure(d: nat)
      requires IndexOk(Model()) && Enabled(Model(), Bind(d))
      modifies this
      ensures Model() == Step(old(Model()), Bind(d)) && IndexOk(Model())
    {
      StepIndex(Model(), Bind(d));
      events := events + [Entry(ds[d].fd, true, true)];
      desc := desc + [Of(d)];
      ds := ds[d := ds[d].(slot := |events| - 1)];
    }

    /** The unbind closure: find the slot, swap it with the last, pop. */
    method UnbindClosure(d: nat)
      requires IndexOk(Model()) && Enabled(Model(), Unbind(d))
      modifies this
      ensures Model() == Step(old(Model()), Unbind(d)) && IndexOk(Model()) && !Listed(Model(), d)
    {
      UnboundIndex(Model(), d);
      ListedSlot(Model(), d);
      var i := 0;
      while i < |desc| && desc[i] != Of(d)
        invariant i <= Find(desc, Of(d))
      {
        i := i + 1;
      }
      if i != |desc| {
        var last := |desc| - 1;
        if i < last {
          assert SlotOk(Model(), last);
          desc := desc[i := desc[last]][last := desc[i]];
          events := events[i := events[last]][last := events[i]];
          ds := ds[desc[i].d := ds[desc[i].d].(slot := i)];
        }
        desc := desc[..last];
        events := events[..last];
      }
      if ds[d].fd != -1 {
        ds := ds[d := ds[d].(fd := -1)];
      }
    }

    /** `complete`: `doneReads` and `doneWrites` are the answers of `post_proc`. */
    method CompleteEvents(d: nat, read: bool, write: bool, doneReads: nat, doneWrites: nat)
      requires d in ds && ds[d].slot < |events|
      modifies this
      ensures Model() == Complete(old(Model()), d, read, write, doneReads, doneWrites)
    {
      var readers, writers := ds[d].readers, ds[d].writers;
      if read {
        readers := RetryQueue(readers, ds[d].fd, doneReads);
      }
      if write {
        writers := RetryQueue(writers, ds[d].fd, doneWrites);
      }
      ds := ds[d := ds[d].(readers := readers, writers := writers)];
      events := events[ds[d].slot := events[ds[d].slot].(wantRead := readers != [], wantWrite := writers != [])];
    }

    /** The events of one slot. */
    method DispatchSlot(i: nat, ready: (bool, bool), done: (nat, nat))
      requires IndexOk(Model()) && InterestOk(Model()) && 0 < i < |desc| && SlotOk(Model(), i)
      modifies this
      ensures Model() == Complete(old(Model()), old(desc)[i].d, ready.0, ready.1, done.0, done.1)
      ensures IndexOk(Model()) && InterestOk(Model()) && desc == old(desc) && |events| == |old(events)| && ds.Keys == old(ds).Keys
      ensures forall d :: d in ds ==> ds[d].slot == old(ds)[d].slot && ds[d].fd == old(ds)[d].fd
    {
      InterestStep(Model(), Ready(desc[i].d, ready.0, ready.1, done.0, done.1));
      CompleteEvents(desc[i].d, ready.0, ready.1, done.0, done.1);
    }

    /** The event loop of `run`: the descriptor of each slot with events is completed in turn. No slot moves,
        each queue is retried exactly when its event came, and index and interest bits hold afterwards. */
    method Dispatch(ready: seq<(bool, bool)>, done: seq<(nat, nat)>)
      requires IndexOk(Model()) && InterestOk(Model()) && |ready| == |done| == |events|
      modifies this
      ensures IndexOk(Model()) && InterestOk(Model())
      ensures desc == old(desc) && ds.Keys == old(ds).Keys
      ensures forall d :: d in ds ==> ds[d].slot == old(ds)[d].slot && ds[d].fd == old(ds)[d].fd
      ensures forall i :: 0 < i < |desc| ==> Served(old(Model()), Model(), i, ready[i], done[i])
    {
      ServedStart(Model(), done);
      var i := 0;
      while i < |events|
        invariant i <= |ready| == |done| == |events| == |desc| && IndexOk(Model()) && InterestOk(Model())
        invariant desc == old(desc) && ds.Keys == old(ds).Keys
        invariant forall d :: d in ds ==> ds[d].slot == old(ds)[d].slot && ds[d].fd == old(ds)[d].fd
        invariant forall j :: 0 < j < i ==> Served(old(Model()), Model(), j, ready[j], done[j])
        invariant forall j :: 0 < j < |desc| && i <= j ==> Served(old(Model()), Model(), j, (false, false), done[j])
      {
        if (ready[i].0 || ready[i].1) && desc[i].Of? {
          assert SlotOk(Model(), i);
          ServedLater(old(Model()), Model(), i, ready, done);
          DispatchSlot(i, ready[i], done[i]);
        }
        i := i + 1;
      }
    }
  }

  /** Pop operations while `post_proc` answers done. */
  method RetryQueue(q: seq<nat>, fd: int, done: nat) returns (r: seq<nat>)
    ensures r == Retried(q, fd, done)
    ensures |r| <= |q| && q[..|q| - |r|] + r == q && |q| - |r| == if fd == -1 || |q| <= done then |q| else done
  {
    r := q;
    var n := 0;
    while r != [] && (fd == -1 || n < done)
      invariant n <= |q| && r == q[n..] && (fd == -1 || n <= done)
    {
      r := r[1..];
      n := n + 1;
    }
  }
}
