/** The timer part of src/io/engine.cpp with src/io/timer.cpp and src/io/timer_id.cpp.

  `timer::id` objects live in `ids`, addressed by number; `_timers` is the list of those
  numbers; `owners` the ids whose `timer` object exists; `pending` holds the closures that `timer_schedule` (from another thread) and
  `timer_cancel` have handed to the multiplexer. Ghost state records when each
  list entry was inserted, and every callback. */
module Timers {
  import Int32

  /** Times are in microseconds. */
  datatype Timer = Timer(due: int, repeat: nat, refs: int)

  datatype Closure = Schedule(id: nat) | Cancel(id: nat)

  datatype Event = Inserted(id: nat) | Expired(id: nat, due: int) | Aborted(id: nat)

  /** `repeat.total_milliseconds() != 0`. */
  predicate Repeats(x: Timer) {
    x.repeat / 1000 != 0
  }

  function One(b: bool): nat {
    if b then 1 else 0
  }

  function Count(q: seq<nat>, id: nat): nat {
    if q == [] then 0 else One(q[0] == id) + Count(q[1..], id)
  }

  function CountClosures(q: seq<Closure>, id: nat): nat {
    if q == [] then 0 else One(q[0].id == id) + CountClosures(q[1..], id)
  }

  function CountSchedules(q: seq<Closure>, id: nat): nat {
    if q == [] then 0 else One(q[0] == Schedule(id)) + CountSchedules(q[1..], id)
  }

  function Inserts(log: seq<Event>, id: nat): nat {
    if log == [] then 0 else Inserts(log[..|log|-1], id) + One(log[|log|-1] == Inserted(id))
  }

  /** List entries of `id` consumed by a callback, expired or aborted. */
  function Consumed(log: seq<Event>, id: nat): nat {
    if log == [] then 0
    else Consumed(log[..|log|-1], id) + One(!log[|log|-1].Inserted? && log[|log|-1].id == id)
  }

  function Fired(log: seq<Event>, id: nat): nat {
    if log == [] then 0
    else Fired(log[..|log|-1], id) + One(log[|log|-1].Expired? && log[|log|-1].id == id)
  }

  lemma {:induction false} CountConcat(a: seq<nat>, b: seq<nat>, id: nat)
    ensures Count(a + b, id) == Count(a, id) + Count(b, id)
  {
    if a == [] {
      assert a + b == b;
    } else {
      CountConcat(a[1..], b, id);
      assert (a + b)[1..] == a[1..] + b;
    }
  }

  lemma {:induction false} ClosuresConcat(a: seq<Closure>, b: seq<Closure>, id: nat)
    ensures CountClosures(a + b, id) == CountClosures(a, id) + CountClosures(b, id)
    ensures CountSchedules(a + b, id) == CountSchedules(a, id) + CountSchedules(b, id)
  {
    if a == [] {
      assert a + b == b;
    } else {
      ClosuresConcat(a[1..], b, id);
      assert (a + b)[1..] == a[1..] + b;
    }
  }

  lemma {:induction false} CountMember(q: seq<nat>, id: nat)
    ensures Count(q, id) > 0 <==> id in q
  {
    if q != [] {
      CountMember(q[1..], id);
      assert id in q <==> id == q[0] || id in q[1..];
    }
  }

  // ---------------------------------------------------------------- the ordered list

  /** Two list entries are in due order, ties in insertion order. */
  predicate Before(ids: map<nat, Timer>, stamp: map<nat, nat>, a: nat, b: nat)
    requires a in ids && b in ids && a in stamp && b in stamp
  {
    ids[a].due < ids[b].due || (ids[a].due == ids[b].due && stamp[a] < stamp[b])
  }

  ghost predicate Ordered(q: seq<nat>, ids: map<nat, Timer>, stamp: map<nat, nat>) {
    && (forall i :: 0 <= i < |q| ==> q[i] in ids && q[i] in stamp)
    && (forall i, j :: 0 <= i < j < |q| ==> Before(ids, stamp, q[i], q[j]))
  }

  /** `std::upper_bound` by due time: the first position whose entry is due strictly later. */
  function UpperBound(q: seq<nat>, ids: map<nat, Timer>, due: int): (p: nat)
    requires forall i :: 0 <= i < |q| ==> q[i] in ids
    ensures p <= |q|
    ensures forall i :: 0 <= i < p ==> ids[q[i]].due <= due
    ensures p < |q| ==> due < ids[q[p]].due
  {
    if q == [] || due < ids[q[0]].due then 0 else 1 + UpperBound(q[1..], ids, due)
  }

  function InsertAt(q: seq<nat>, p: nat, id: nat): seq<nat>
    requires p <= |q|
  {
    q[..p] + [id] + q[p..]
  }

  /** Inserting at the upper bound with a fresh stamp keeps the order, so it is stable. */
  lemma InsertOrdered(q: seq<nat>, ids: map<nat, Timer>, stamp: map<nat, nat>, id: nat, now: nat)
    requires Ordered(q, ids, stamp) && id in ids && id !in q
    requires forall i :: 0 <= i < |q| ==> stamp[q[i]] < now
    ensures Ordered(InsertAt(q, UpperBound(q, ids, ids[id].due), id), ids, stamp[id := now])
  {
    var p := UpperBound(q, ids, ids[id].due);
    var r, stamp' := InsertAt(q, p, id), stamp[id := now];
    forall i, j | 0 <= i < j < |r| ensures r[i] in ids && r[j] in ids && Before(ids, stamp', r[i], r[j]) {
      if i < p && j == p {
        assert ids[q[i]].due <= ids[id].due;
      } else if i == p {
        assert r[j] == q[j-1];
        if p < j - 1 {
          assert Before(ids, stamp, q[p], q[j-1]);
        }
      } else {
        assert Before(ids, stamp, q[if i < p then i else i - 1], q[if j < p then j else j - 1]);
      }
    }
  }

  lemma InsertCount(q: seq<nat>, p: nat, id: nat, k: nat)
    requires p <= |q|
    ensures Count(InsertAt(q, p, id), k) == Count(q, k) + One(k == id)
  {
    CountConcat(q[..p] + [id], q[p..], k);
    CountConcat(q[..p], [id], k);
    CountConcat(q[..p], q[p..], k);
    assert q == q[..p] + q[p..];
    assert [id][1..] == [];
  }

  // ---------------------------------------------------------------- invariant

  /** References to an id: its owning `timer`, list entries, pending closures, and those the
      loop thread holds on its stack while it runs a callback. */
  datatype Holders = Holders(timers: seq<nat>, pending: seq<Closure>, owners: set<nat>, held: multiset<nat>)

  function Shares(h: Holders, id: nat): nat {
    One(id in h.owners) + Count(h.timers, id) + CountClosures(h.pending, id) + h.held[id]
  }

  function RefsOf(ids: map<nat, Timer>, id: nat): int {
    if id in ids then ids[id].refs else 0
  }

  /** The count of every id is the number of its references; an id that is deleted has none. */
  ghost predicate RefsOk(ids: map<nat, Timer>, h: Holders) {
    && (forall id :: id in ids ==> ids[id].refs > 0)
    && (forall id: nat :: RefsOf(ids, id) == Shares(h, id))
  }

  /** An id is in the list, or waiting to get there, at most once. */
  ghost predicate OnceOk(timers: seq<nat>, pending: seq<Closure>) {
    forall id: nat :: Count(timers, id) + CountSchedules(pending, id) <= 1
  }

  /** Every insertion into the list has been consumed by exactly one callback or is still listed. */
  ghost predicate LogOk(log: seq<Event>, timers: seq<nat>) {
    forall id: nat :: Inserts(log, id) == Consumed(log, id) + Count(timers, id)
  }

  ghost predicate StampsOk(timers: seq<nat>, stamp: map<nat, nat>, now: nat) {
    forall i :: 0 <= i < |timers| && timers[i] in stamp ==> stamp[timers[i]] < now
  }

  /** `id->release()`: drop one reference and delete the id when it was the last. */
  function Released(ids: map<nat, Timer>, id: nat): map<nat, Timer> {
    if id !in ids then ids
    else if ids[id].refs == 1 then ids - {id}
    else ids[id := ids[id].(refs := ids[id].refs - 1)]
  }

  /** `id->add_ref()`. */
  function Referenced(ids: map<nat, Timer>, id: nat): map<nat, Timer> {
    if id !in ids then ids else ids[id := ids[id].(refs := ids[id].refs + 1)]
  }

  lemma LogPush(log: seq<Event>, e: Event, id: nat)
    ensures Inserts(log + [e], id) == Inserts(log, id) + One(e == Inserted(id))
    ensures Consumed(log + [e], id) == Consumed(log, id) + One(!e.Inserted? && e.id == id)
    ensures Fired(log + [e], id) == Fired(log, id) + One(e.Expired? && e.id == id)
  {
    assert (log + [e])[..|log|] == log;
  }

  lemma ClosurePush(pending: seq<Closure>, c: Closure, id: nat)
    ensures CountClosures(pending + [c], id) == CountClosures(pending, id) + One(c.id == id)
    ensures CountSchedules(pending + [c], id) == CountSchedules(pending, id) + One(c == Schedule(id))
  {
    ClosuresConcat(pending, [c], id);
    assert [c][1..] == [];
  }

  /** Removing the entry at position `p`. */
  lemma EraseCount(q: seq<nat>, p: nat, k: nat)
    requires p < |q|
    ensures Count(q[..p] + q[p+1..], k) == Count(q, k) - One(q[p] == k)
  {
    CountConcat(q[..p], q[p+1..], k);
    CountConcat(q[..p], q[p..], k);
    assert q == q[..p] + q[p..];
    assert q[p..][1..] == q[p+1..];
  }

  /** Counts and references change by the same amount everywhere. */
  lemma RefsChange(ids: map<nat, Timer>, h: Holders, ids': map<nat, Timer>, h': Holders)
    requires RefsOk(ids, h)
    requires forall id :: id in ids' ==> ids'[id].refs > 0
    requires forall k: nat :: RefsOf(ids', k) - RefsOf(ids, k) == Shares(h', k) - Shares(h, k)
    ensures RefsOk(ids', h')
  {
    forall k: nat ensures RefsOf(ids', k) == Shares(h', k) {
      assert RefsOf(ids, k) == Shares(h, k);
    }
  }

  /** Inserting `id` adds one list reference to it and one insertion to the log. */
  lemma InsertEffect(ids: map<nat, Timer>, h: Holders, log: seq<Event>, p: nat, id: nat)
    requires RefsOk(ids, h) && OnceOk(h.timers, h.pending) && LogOk(log, h.timers)
    requires p <= |h.timers| && id in ids && Count(h.timers, id) + CountSchedules(h.pending, id) == 0
    ensures RefsOk(Referenced(ids, id), h.(timers := InsertAt(h.timers, p, id)))
    ensures OnceOk(InsertAt(h.timers, p, id), h.pending)
    ensures LogOk(log + [Inserted(id)], InsertAt(h.timers, p, id))
  {
    var timers', log' := InsertAt(h.timers, p, id), log + [Inserted(id)];
    forall k: nat
      ensures Count(timers', k) == Count(h.timers, k) + One(k == id)
      ensures Inserts(log', k) == Consumed(log', k) + Count(timers', k)
    {
      InsertCount(h.timers, p, id, k);
      LogPush(log, Inserted(id), k);
    }
    RefsChange(ids, h, Referenced(ids, id), h.(timers := timers'));
  }

  /** Taking the entry at `p` off the list for its callback moves its reference to the stack. */
  lemma TakeEffect(ids: map<nat, Timer>, h: Holders, log: seq<Event>, p: nat, e: Event)
    requires RefsOk(ids, h) && OnceOk(h.timers, h.pending) && LogOk(log, h.timers)
    requires p < |h.timers| && !e.Inserted? && e.id == h.timers[p]
    ensures var timers' := h.timers[..p] + h.timers[p+1..];
            && RefsOk(ids, h.(timers := timers', held := h.held + multiset{e.id}))
            && OnceOk(timers', h.pending) && LogOk(log + [e], timers')
  {
    var timers', log' := h.timers[..p] + h.timers[p+1..], log + [e];
    forall k: nat
      ensures Count(timers', k) == Count(h.timers, k) - One(k == e.id)
      ensures Inserts(log', k) == Consumed(log', k) + Count(timers', k)
    {
      EraseCount(h.timers, p, k);
      LogPush(log, e, k);
    }
    RefsChange(ids, h, ids, h.(timers := timers', held := h.held + multiset{e.id}));
  }

  /** Order only depends on the due times and stamps of the listed ids. */
  lemma OrderedErase(q: seq<nat>, ids: map<nat, Timer>, stamp: map<nat, nat>, p: nat)
    requires Ordered(q, ids, stamp) && p < |q|
    ensures Ordered(q[..p] + q[p+1..], ids, stamp)
  {
    var r := q[..p] + q[p+1..];
    forall i, j | 0 <= i < j < |r| ensures Before(ids, stamp, r[i], r[j]) {
      assert r[i] == q[if i < p then i else i + 1] && r[j] == q[if j < p then j else j + 1];
    }
  }

  /** Counting references does not touch the order. */
  lemma OrderedReferenced(q: seq<nat>, ids: map<nat, Timer>, stamp: map<nat, nat>, id: nat)
    requires Ordered(q, ids, stamp)
    ensures Ordered(q, Referenced(ids, id), stamp)
  {
  }

  lemma StampsInsert(q: seq<nat>, stamp: map<nat, nat>, now: nat, p: nat, id: nat)
    requires StampsOk(q, stamp, now) && p <= |q| && forall i :: 0 <= i < |q| ==> q[i] in stamp
    ensures StampsOk(InsertAt(q, p, id), stamp[id := now], now + 1)
  {
  }

  // ---------------------------------------------------------------- draining

  /** How much a timer contributes to the drain: microseconds it is overdue, plus one. */
  function Overdue(x: Timer, ts: int): nat {
    if x.due <= ts then ts - x.due + 1 else 0
  }

  /** The measure that every expiry decreases. */
  function Work(q: seq<nat>, ids: map<nat, Timer>, ts: int): nat
    requires forall i :: 0 <= i < |q| ==> q[i] in ids
  {
    if q == [] then 0 else Overdue(ids[q[0]], ts) + Work(q[1..], ids, ts)
  }

  lemma {:induction false} WorkConcat(a: seq<nat>, b: seq<nat>, ids: map<nat, Timer>, ts: int)
    requires (forall i :: 0 <= i < |a| ==> a[i] in ids) && (forall i :: 0 <= i < |b| ==> b[i] in ids)
    ensures Work(a + b, ids, ts) == Work(a, ids, ts) + Work(b, ids, ts)
  {
    if a == [] {
      assert a + b == b;
    } else {
      WorkConcat(a[1..], b, ids, ts);
      assert (a + b)[1..] == a[1..] + b;
    }
  }

  lemma WorkInsert(q: seq<nat>, p: nat, id: nat, ids: map<nat, Timer>, ts: int)
    requires p <= |q| && id in ids && forall i :: 0 <= i < |q| ==> q[i] in ids
    ensures Work(InsertAt(q, p, id), ids, ts) == Work(q, ids, ts) + Overdue(ids[id], ts)
  {
    var a, b := q[..p], q[p..];
    assert q == a + b;
    WorkConcat(a, b, ids, ts);
    WorkOne(id, ids, ts);
    WorkConcat(a, [id], ids, ts);
    WorkConcat(a + [id], b, ids, ts);
  }

  lemma WorkOne(id: nat, ids: map<nat, Timer>, ts: int)
    requires id in ids
    ensures Work([id], ids, ts) == Overdue(ids[id], ts)
  {
    assert [id][1..] == [];
  }

  /** The work depends on the due times of the listed ids alone. */
  lemma {:induction false} WorkSame(q: seq<nat>, ids: map<nat, Timer>, ids': map<nat, Timer>, ts: int)
    requires forall i :: 0 <= i < |q| ==> q[i] in ids && q[i] in ids' && ids'[q[i]].due == ids[q[i]].due
    ensures Work(q, ids', ts) == Work(q, ids, ts)
  {
    if q != [] {
      WorkSame(q[1..], ids, ids', ts);
    }
  }

  /** The `n`-th point of a timer's grid. */
  function Grid(x: Timer, n: nat): int {
    x.due + n * x.repeat
  }

  lemma GridStep(x: Timer, n: nat)
    ensures Grid(x, n + 1) == Grid(x, n) + x.repeat
  {
    assert (n + 1) * x.repeat == n * x.repeat + x.repeat;
  }

  /** The number of grid points from `x.due` up to `ts`. */
  function Expiries(x: Timer, ts: int): nat {
    if x.due > ts then 0 else if !Repeats(x) then 1 else (ts - x.due) / x.repeat + 1
  }

  lemma MulMono(a: nat, b: nat, p: nat)
    requires a <= b
    ensures a * p <= b * p
  {
  }

  lemma DivUnique(d: nat, p: nat, q: nat)
    requires p > 0 && q * p <= d < q * p + p
    ensures d / p == q
  {
    var e := d / p;
    assert e * p <= d < e * p + p;
    if e < q {
      MulMono(e + 1, q, p);
      assert false;
    } else if e > q {
      MulMono(q + 1, e, p);
      assert false;
    }
  }

  /** If the last expiry was at or before `ts` and the next is after it, the count is the closed form. */
  lemma GridCount(x: Timer, ts: int, n: nat)
    requires x.repeat > 0 && n > 0 && Grid(x, n - 1) <= ts < Grid(x, n)
    ensures (ts - x.due) / x.repeat + 1 == n
  {
    var d, p, q := ts - x.due, x.repeat, n - 1;
    GridStep(x, q);
    assert q * p <= d < q * p + p;
    DivUnique(d, p, q);
  }

  /** The list has no duplicates, so removing an entry removes its id. */
  lemma EraseGone(q: seq<nat>, ids: map<nat, Timer>, stamp: map<nat, nat>, p: nat)
    requires Ordered(q, ids, stamp) && p < |q|
    ensures var r := q[..p] + q[p+1..]; q[p] !in r && forall k :: k != q[p] ==> (k in r <==> k in q)
  {
    var r := q[..p] + q[p+1..];
    forall k | k in q && k != q[p] ensures k in r {
      var i :| 0 <= i < |q| && q[i] == k;
      assert r[if i < p then i else i - 1] == k;
    }
    forall i | 0 <= i < |r| ensures r[i] != q[p] && r[i] in q {
      var j := if i < p then i else i + 1;
      assert r[i] == q[j];
      assert if j < p then Before(ids, stamp, q[j], q[p]) else Before(ids, stamp, q[p], q[j]);
    }
  }

  // ---------------------------------------------------------------- callbacks

  /** What a callback may do with timers: fire one, cancel one, destroy or create one. */
  datatype Action = Fire(id: nat, due: int) | Stop(id: nat) | Drop(id: nat) | Create(due: int, repeat: nat)

  /** What a well-behaved callback for `cur` leaves alone: listed timers stay listed and keep
      their times, whatever it newly lists is due after `ts`, and it fires nothing itself. With
      `rearm` the loop is going to list `cur` again, so the callback leaves it to the loop. */
  ghost predicate Quiet(q: seq<nat>, ids: map<nat, Timer>, q': seq<nat>, ids': map<nat, Timer>, cur: nat, rearm: bool, ts: int) {
    && (forall k :: k in q ==> k in q' && k in ids && k in ids' && ids'[k].due == ids[k].due && ids'[k].repeat == ids[k].repeat)
    && (forall k :: k in q' && k !in q ==> k in ids' && ids'[k].due > ts)
    && cur in ids && cur in ids' && ids'[cur].repeat == ids[cur].repeat
    && (rearm ==> ids'[cur].due == ids[cur].due && (cur in q' <==> cur in q))
  }

  ghost predicate KeepsTimes(ids: map<nat, Timer>, ids': map<nat, Timer>, k: nat) {
    k in ids && k in ids' && ids'[k].due == ids[k].due && ids'[k].repeat == ids[k].repeat
  }

  /** `id` is listed, and otherwise the same timers as before. */
  ghost predicate Listing(q: seq<nat>, q': seq<nat>, id: nat) {
    id !in q && forall k :: k in q' <==> k == id || k in q
  }

  /** All other timers stay listed, and what is listed besides them was fired by the script. */
  ghost predicate Cancelled(q: seq<nat>, q': seq<nat>, id: nat, script: seq<Action>) {
    && (forall k :: k in q && k != id ==> k in q')
    && (forall k :: k in q' && (k == id || k !in q) ==> Fires(script, k))
  }

  /** A callback for `cur` may fire `id` then: it is alive, neither listed nor waiting to be, due after `ts`, and not
      about to be listed by the loop. */
  predicate MayFire(ids: map<nat, Timer>, timers: seq<nat>, pending: seq<Closure>, id: nat, due: int, cur: nat, rearm: bool, ts: int) {
    id in ids && due > ts && Count(timers, id) + CountSchedules(pending, id) == 0 && (id != cur || !rearm)
  }

  /** What an action does: a lawful `fire` lists the timer at the time asked for, `cancel` queues a closure unless only the
      owner refers to the id, and destroying and creating a timer change its ownership. */
  ghost predicate Acted(a: Action, cur: nat, rearm: bool, ts: int,
                        ids: map<nat, Timer>, timers: seq<nat>, pending: seq<Closure>, owners: set<nat>, log: seq<Event>,
                        ids': map<nat, Timer>, timers': seq<nat>, pending': seq<Closure>, owners': set<nat>, log': seq<Event>) {
    match a
    case Fire(id, due) =>
      if MayFire(ids, timers, pending, id, due, cur, rearm, ts)
      then id in timers' && id in ids' && ids'[id].due == due && log' == log + [Inserted(id)]
      else timers' == timers && ids' == ids && log' == log
    case Stop(id) =>
      log' == log && timers' == timers && pending' == if id in ids && ids[id].refs != 1 then pending + [Cancel(id)] else pending
    case Drop(id) => log' == log && timers' == timers && owners' == owners - {id}
    case Create(due, repeat) =>
      log' == log && timers' == timers && exists id :: id !in ids && ids' == ids[id := Timer(due, repeat, 1)] && owners' == owners + {id}
  }

  /** The script fires the timer. */
  predicate Fires(script: seq<Action>, id: nat) {
    exists i :: 0 <= i < |script| && script[i].Fire? && script[i].id == id
  }

  /** A time before all those that a script asks for. */
  function Below(script: seq<Action>): (ts: int)
    ensures forall i :: 0 <= i < |script| && script[i].Fire? ==> ts < script[i].due
  {
    if script == [] then 0
    else
      var r := Below(script[1..]);
      if script[0].Fire? && script[0].due <= r then script[0].due - 1 else r
  }

  /** The log of one callback: the callback itself, then only insertions. */
  ghost predicate CalledBack(log: seq<Event>, log': seq<Event>, e: Event) {
    && |log| < |log'| && log <= log' && log'[|log|] == e
    && (forall i :: |log| < i < |log'| ==> log'[i].Inserted?)
  }

  ghost predicate QuietLog(log: seq<Event>, log': seq<Event>) {
    && log <= log'
    && (forall i :: |log| <= i < |log'| ==> log'[i].Inserted?)
    && (forall k: nat :: Fired(log', k) == Fired(log, k))
  }

  lemma QuietTrans(q: seq<nat>, ids: map<nat, Timer>, q1: seq<nat>, ids1: map<nat, Timer>,
                   q2: seq<nat>, ids2: map<nat, Timer>, cur: nat, rearm: bool, ts: int)
    requires Quiet(q, ids, q1, ids1, cur, rearm, ts) && Quiet(q1, ids1, q2, ids2, cur, rearm, ts)
    ensures Quiet(q, ids, q2, ids2, cur, rearm, ts)
  {
  }

  /** Changing the due time of an id that is not listed disturbs nothing. */
  lemma DueEffect(ids: map<nat, Timer>, h: Holders, stamp: map<nat, nat>, id: nat, due: int)
    requires RefsOk(ids, h) && Ordered(h.timers, ids, stamp) && id in ids && id !in h.timers
    ensures var ids' := ids[id := ids[id].(due := due)]; RefsOk(ids', h) && Ordered(h.timers, ids', stamp)
  {
    var ids' := ids[id := ids[id].(due := due)];
    RefsChange(ids, h, ids', h);
    forall i, j | 0 <= i < j < |h.timers| ensures Before(ids', stamp, h.timers[i], h.timers[j]) {
      assert Before(ids, stamp, h.timers[i], h.timers[j]);
    }
  }

  lemma InsertMembers(q: seq<nat>, p: nat, id: nat)
    requires p <= |q|
    ensures forall k :: k in InsertAt(q, p, id) <==> k == id || k in q
  {
    forall k ensures k in InsertAt(q, p, id) <==> k == id || k in q {
      if k in q {
        var i :| 0 <= i < |q| && q[i] == k;
        assert InsertAt(q, p, id)[if i < p then i else i + 1] == k;
      }
      assert InsertAt(q, p, id)[p] == id;
    }
  }

  // ---------------------------------------------------------------- catching up

  /** Where a drain up to `ts` stands with `k`, when it has expired `n` times since the drain
      began with list `q0` and times `ids0`: a listed timer walks its grid, each expiry at or
      before `ts`; a one-shot that has expired, or a timer first listed meanwhile, is due later. */
  ghost predicate Tracked(q0: seq<nat>, ids0: map<nat, Timer>, q: seq<nat>, ids: map<nat, Timer>, ts: int, k: nat, n: int) {
    if k in q0 && k in ids0 && (n == 0 || Repeats(ids0[k])) then
      && n >= 0 && k in q && k in ids
      && ids[k].due == Grid(ids0[k], n) && ids[k].repeat == ids0[k].repeat
      && (n > 0 ==> Grid(ids0[k], n - 1) <= ts)
    else
      && n == One(k in q0)
      && (k in q0 ==> k in ids0 && ids0[k].due <= ts)
      && (k in q ==> k in ids && ids[k].due > ts)
  }

  /** The outcome of a drain for `k`, which expired `n` times: a timer listed at the start expired
      once for each grid point up to `ts`, any other not at all, and a repeating one stands in
      the list at its next grid point. */
  ghost predicate Caught(q0: seq<nat>, ids0: map<nat, Timer>, q: seq<nat>, ids: map<nat, Timer>, ts: int, k: nat, n: int) {
    && n == (if k in q0 && k in ids0 then Expiries(ids0[k], ts) else 0)
    && (k in q0 && k in ids0 && Repeats(ids0[k]) ==>
          && k in q && k in ids && ids[k].repeat == ids0[k].repeat
          && ids[k].due == Grid(ids0[k], Expiries(ids0[k], ts)))
  }

  /** `Expiries` counts the grid points up to `ts`, and no more. */
  lemma ExpiriesExact(x: Timer, ts: int)
    requires Repeats(x)
    ensures var n := Expiries(x, ts); ts < Grid(x, n) && (n > 0 ==> Grid(x, n - 1) <= ts) && (n == 0 <==> ts < x.due)
  {
    if x.due <= ts {
      GridStep(x, (ts - x.due) / x.repeat);
    }
  }

  /** Once nothing listed is due, the number of expiries is the closed form. */
  lemma TrackedEnd(q0: seq<nat>, ids0: map<nat, Timer>, q: seq<nat>, ids: map<nat, Timer>, ts: int, k: nat, n: int)
    requires Tracked(q0, ids0, q, ids, ts, k, n) && (k in q && k in ids ==> ids[k].due > ts) && (k in q0 ==> k in ids0)
    ensures Caught(q0, ids0, q, ids, ts, k, n)
  {
    if k in q0 && Repeats(ids0[k]) && n > 0 {
      GridCount(ids0[k], ts, n);
      MulMono(0, n - 1, ids0[k].repeat);
    }
  }

  lemma NothingDue(q: seq<nat>, ids: map<nat, Timer>, stamp: map<nat, nat>, ts: int)
    requires Ordered(q, ids, stamp) && (q == [] || ids[q[0]].due > ts)
    ensures forall k :: k in q ==> k in ids && ids[k].due > ts
  {
    forall k | k in q ensures k in ids && ids[k].due > ts {
      var i :| 0 <= i < |q| && q[i] == k;
      assert i > 0 ==> Before(ids, stamp, q[0], q[i]);
    }
  }

  /** One expiry of the front entry `f` moves every timer along. */
  ghost predicate Expiry(q: seq<nat>, ids: map<nat, Timer>, q': seq<nat>, ids': map<nat, Timer>, f: nat, ts: int) {
    && f in q && f in ids && ids[f].due <= ts
    && (forall k :: k in q && k != f ==> k in q' && k in ids && k in ids' && ids'[k].due == ids[k].due && ids'[k].repeat == ids[k].repeat)
    && (forall k :: k in q' && k !in q ==> k in ids' && ids'[k].due > ts)
    && (if Repeats(ids[f]) then
          f in q' && f in ids' && ids'[f].repeat == ids[f].repeat && ids'[f].due == ids[f].due + ids[f].repeat
        else f in q' ==> f in ids' && ids'[f].due > ts)
  }

  /** The callback and the re-arming together make an expiry. */
  lemma ExpiryFrom(q: seq<nat>, ids: map<nat, Timer>, q1: seq<nat>, ids1: map<nat, Timer>, q2: seq<nat>, ids2: map<nat, Timer>, ts: int)
    requires q != [] && q[0] !in q[1..] && q[0] in ids && ids[q[0]].due <= ts && Quiet(q[1..], ids, q1, ids1, q[0], Repeats(ids[q[0]]), ts)
    requires forall k :: k != q[0] ==> (k in q2 <==> k in q1)
    requires forall k :: k in q2 && k != q[0] ==> k in ids2 && k in ids1 && ids2[k].due == ids1[k].due && ids2[k].repeat == ids1[k].repeat
    requires if Repeats(ids1[q[0]]) then
               q[0] in q2 && q[0] in ids2 && ids2[q[0]].repeat == ids1[q[0]].repeat && ids2[q[0]].due == ids1[q[0]].due + ids1[q[0]].repeat
             else q[0] in q2 ==> q[0] in q1 && q[0] in ids2 && ids2[q[0]].due == ids1[q[0]].due
    ensures Expiry(q, ids, q2, ids2, q[0], ts)
  {
    forall k | k in q && k != q[0] ensures k in q[1..] {
      var i :| 0 <= i < |q| && q[i] == k;
      assert q[1..][i-1] == k;
    }
  }

  lemma TrackedStart(q: seq<nat>, ids: map<nat, Timer>, ts: int, k: nat)
    requires k in q ==> k in ids
    ensures Tracked(q, ids, q, ids, ts, k, 0)
  {
  }

  lemma TrackedStep(q0: seq<nat>, ids0: map<nat, Timer>, q: seq<nat>, ids: map<nat, Timer>, q': seq<nat>, ids': map<nat, Timer>,
                    f: nat, ts: int, k: nat, n: int)
    requires Expiry(q, ids, q', ids', f, ts) && Tracked(q0, ids0, q, ids, ts, k, n)
    ensures Tracked(q0, ids0, q', ids', ts, k, n + One(k == f))
  {
    if k == f {
      GridStep(ids0[f], n);
    }
  }

  /** The log of one expiry. */
  ghost predicate FiredLog(log: seq<Event>, log': seq<Event>, f: nat, due: int) {
    && CalledBack(log, log', Expired(f, due))
    && (forall k: nat :: Fired(log', k) == Fired(log, k) + One(k == f))
  }

  /** After an expiry, nothing listed is due before the time that expired. */
  lemma ExpiryFloor(q: seq<nat>, ids: map<nat, Timer>, stamp: map<nat, nat>, q': seq<nat>, ids': map<nat, Timer>, ts: int, k: nat)
    requires Ordered(q, ids, stamp) && q != [] && Expiry(q, ids, q', ids', q[0], ts) && k in q'
    ensures k in ids' && ids'[k].due >= ids[q[0]].due
  {
    if k in q {
      var i :| 0 <= i < |q| && q[i] == k;
      if i > 0 {
        assert Before(ids, stamp, q[0], q[i]);
      }
    }
  }

  /** Expiries from position `from` on are at or before `ts` and in due order. */
  ghost predicate InOrder(log: seq<Event>, from: nat, ts: int) {
    && (forall i :: from <= i < |log| && log[i].Expired? ==> log[i].due <= ts)
    && (forall i, j :: from <= i < j < |log| && log[i].Expired? && log[j].Expired? ==> log[i].due <= log[j].due)
  }

  function FiredSince(log0: seq<Event>, log: seq<Event>, k: nat): int {
    Fired(log, k) - Fired(log0, k)
  }

  /** A drain under way: `log0`, `q0` and `ids0` are as it found them. */
  ghost predicate Draining(log0: seq<Event>, q0: seq<nat>, ids0: map<nat, Timer>, log: seq<Event>, q: seq<nat>, ids: map<nat, Timer>, ts: int) {
    && log0 <= log && InOrder(log, |log0|, ts) && Floor(log, |log0|, q, ids)
    && (forall k: nat :: Tracked(q0, ids0, q, ids, ts, k, FiredSince(log0, log, k)))
  }

  /** A finished drain: nothing listed is due, expiries came in due order, and every timer has
      caught up. */
  ghost predicate Drained(log0: seq<Event>, q0: seq<nat>, ids0: map<nat, Timer>, log: seq<Event>, q: seq<nat>, ids: map<nat, Timer>, ts: int) {
    && (forall k :: k in q ==> k in ids && ids[k].due > ts)
    && log0 <= log && InOrder(log, |log0|, ts)
    && (forall k: nat :: Caught(q0, ids0, q, ids, ts, k, FiredSince(log0, log, k)))
  }

  lemma DrainStart(log: seq<Event>, q: seq<nat>, ids: map<nat, Timer>, stamp: map<nat, nat>, ts: int)
    requires Ordered(q, ids, stamp)
    ensures Draining(log, q, ids, log, q, ids, ts)
  {
    forall k: nat ensures Tracked(q, ids, q, ids, ts, k, FiredSince(log, log, k)) {
      TrackedStart(q, ids, ts, k);
    }
  }

  lemma DrainStep(log0: seq<Event>, q0: seq<nat>, ids0: map<nat, Timer>, log: seq<Event>, q: seq<nat>, ids: map<nat, Timer>,
                  stamp: map<nat, nat>, log': seq<Event>, q': seq<nat>, ids': map<nat, Timer>, ts: int)
    requires Draining(log0, q0, ids0, log, q, ids, ts) && Ordered(q, ids, stamp)
    requires q != [] && Expiry(q, ids, q', ids', q[0], ts) && FiredLog(log, log', q[0], ids[q[0]].due)
    ensures Draining(log0, q0, ids0, log', q', ids', ts)
  {
    FloorStep(log, |log0|, q, ids, stamp, log', q', ids', ts);
    forall k: nat ensures Tracked(q0, ids0, q', ids', ts, k, FiredSince(log0, log', k)) {
      TrackedStep(q0, ids0, q, ids, q', ids', q[0], ts, k, FiredSince(log0, log, k));
    }
  }

  lemma DrainEnd(log0: seq<Event>, q0: seq<nat>, ids0: map<nat, Timer>, log: seq<Event>, q: seq<nat>, ids: map<nat, Timer>,
                 stamp0: map<nat, nat>, stamp: map<nat, nat>, ts: int)
    requires Draining(log0, q0, ids0, log, q, ids, ts) && Ordered(q0, ids0, stamp0)
    requires Ordered(q, ids, stamp) && (q == [] || ids[q[0]].due > ts)
    ensures Drained(log0, q0, ids0, log, q, ids, ts)
  {
    NothingDue(q, ids, stamp, ts);
    forall k: nat ensures Caught(q0, ids0, q, ids, ts, k, FiredSince(log0, log, k)) {
      TrackedEnd(q0, ids0, q, ids, ts, k, FiredSince(log0, log, k));
    }
  }

  /** Every expiry so far was no later than any listed due time. */
  ghost predicate Floor(log: seq<Event>, from: nat, q: seq<nat>, ids: map<nat, Timer>) {
    forall i, k :: from <= i < |log| && log[i].Expired? && k in q && k in ids ==> log[i].due <= ids[k].due
  }

  lemma FloorStep(log: seq<Event>, from: nat, q: seq<nat>, ids: map<nat, Timer>, stamp: map<nat, nat>,
                  log': seq<Event>, q': seq<nat>, ids': map<nat, Timer>, ts: int)
    requires Ordered(q, ids, stamp) && q != [] && Expiry(q, ids, q', ids', q[0], ts) && from <= |log|
    requires FiredLog(log, log', q[0], ids[q[0]].due) && InOrder(log, from, ts) && Floor(log, from, q, ids)
    ensures InOrder(log', from, ts) && Floor(log', from, q', ids')
  {
    forall i | from <= i < |log'| && log'[i].Expired?
      ensures log'[i].due <= ids[q[0]].due
    {
      assert i < |log| ==> log'[i] == log[i];
    }
    forall i, k | from <= i < |log'| && log'[i].Expired? && k in q' && k in ids' ensures log'[i].due <= ids'[k].due {
      ExpiryFloor(q, ids, stamp, q', ids', ts, k);
    }
    forall i, j | from <= i < j < |log'| && log'[i].Expired? && log'[j].Expired? ensures log'[i].due <= log'[j].due {
      assert log'[i] == log[i];
      assert j < |log| ==> log'[j] == log[j];
    }
  }

  /** Some callback of the drain fires `k`. */
  ghost predicate FiredBy(scripts: seq<seq<Action>>, k: nat) {
    exists i :: 0 <= i < |scripts| && Fires(scripts[i], k)
  }

  function Played1(scripts: seq<seq<Action>>, n: nat): seq<Action> {
    if n < |scripts| then scripts[n] else []
  }

  /** The actions of the first `n` callbacks. */
  function Played(scripts: seq<seq<Action>>, n: nat): seq<Action> {
    if n == 0 then [] else Played(scripts, n - 1) + Played1(scripts, n - 1)
  }

  /** Expiries of all timers together. */
  function Expirations(log: seq<Event>): nat {
    if log == [] then 0 else Expirations(log[..|log|-1]) + One(log[|log|-1].Expired?)
  }

  lemma {:induction false} ExpirationsQuiet(log: seq<Event>, log': seq<Event>)
    requires log <= log' && forall i :: |log| <= i < |log'| ==> log'[i].Inserted?
    ensures Expirations(log') == Expirations(log)
  {
    if |log'| > |log| {
      ExpirationsQuiet(log, log'[..|log'|-1]);
    } else {
      assert log' == log;
    }
  }

  lemma ExpirationsStep(log: seq<Event>, log': seq<Event>, f: nat, due: int)
    requires FiredLog(log, log', f, due)
    ensures Expirations(log') == Expirations(log) + 1
  {
    var l := log'[..|log| + 1];
    assert l[..|log|] == log && l[|log|] == Expired(f, due);
    ExpirationsQuiet(l, log');
  }

  /** A timer of a drain up to `ts`, in plain numbers: with a period of a millisecond or more it expires
      at `due`, `due + repeat` and so on up to `ts`, and is listed at the next such point; with a
      shorter one it expires once if it is due, and is then listed only if a callback fired it. */
  ghost predicate CaughtUp(x: Timer, ts: int, n: int, listed: bool, due: int, refired: bool) {
    if x.due > ts then n == 0 && listed && due == x.due
    else if x.repeat >= 1000 then
      n == (ts - x.due) / x.repeat + 1 && listed && due == x.due + n * x.repeat && due - x.repeat <= ts < due
    else n == 1 && (listed ==> refired && due > ts)
  }

  ghost predicate AllCaughtUp(log0: seq<Event>, q0: seq<nat>, ids0: map<nat, Timer>, log: seq<Event>, q: seq<nat>, ids: map<nat, Timer>,
                              ts: int, scripts: seq<seq<Action>>) {
    forall k :: k in q0 ==>
      k in ids0 && CaughtUp(ids0[k], ts, FiredSince(log0, log, k), k in q, if k in q && k in ids then ids[k].due else 0, FiredBy(scripts, k))
  }

  /** Every entry of the list is there since the start, or walks its grid, or was fired by a callback. */
  ghost predicate Sourced(log0: seq<Event>, q0: seq<nat>, ids0: map<nat, Timer>, log: seq<Event>, q: seq<nat>, scripts: seq<seq<Action>>) {
    forall k :: k in q ==> (k in q0 && k in ids0 && (FiredSince(log0, log, k) == 0 || Repeats(ids0[k]))) || FiredBy(scripts, k)
  }

  lemma SourcedStep(log0: seq<Event>, q0: seq<nat>, ids0: map<nat, Timer>, log: seq<Event>, q: seq<nat>, ids: map<nat, Timer>,
                    log': seq<Event>, q': seq<nat>, ids': map<nat, Timer>, scripts: seq<seq<Action>>, n: nat, ts: int)
    requires Draining(log0, q0, ids0, log, q, ids, ts) && Sourced(log0, q0, ids0, log, q, scripts)
    requires q != [] && Expiry(q, ids, q', ids', q[0], ts) && FiredLog(log, log', q[0], ids[q[0]].due)
    requires forall k :: k in q' && (k !in q || (k == q[0] && !Repeats(ids[k]))) ==> Fires(Played1(scripts, n), k)
    ensures Sourced(log0, q0, ids0, log', q', scripts)
  {
    forall k | k in q'
      ensures (k in q0 && k in ids0 && (FiredSince(log0, log', k) == 0 || Repeats(ids0[k]))) || FiredBy(scripts, k)
    {
      if k !in q || (k == q[0] && !Repeats(ids[k])) {
        assert Fires(Played1(scripts, n), k);
        assert n < |scripts| && Fires(scripts[n], k);
      } else if k == q[0] {
        assert Tracked(q0, ids0, q, ids, ts, k, FiredSince(log0, log, k));
      } else {
        assert Fired(log', k) == Fired(log, k) + One(k == q[0]);
      }
    }
  }

  /** A drain under way, with its callbacks: `n` of them have run. */
  ghost predicate Underway(log0: seq<Event>, q0: seq<nat>, ids0: map<nat, Timer>, acted0: seq<Action>,
                           log: seq<Event>, q: seq<nat>, ids: map<nat, Timer>, acted: seq<Action>, scripts: seq<seq<Action>>, n: nat, ts: int) {
    && Draining(log0, q0, ids0, log, q, ids, ts) && Sourced(log0, q0, ids0, log, q, scripts)
    && n == Expirations(log) - Expirations(log0) && acted == acted0 + Played(scripts, n)
  }

  lemma UnderwayStep(log0: seq<Event>, q0: seq<nat>, ids0: map<nat, Timer>, acted0: seq<Action>,
                     log: seq<Event>, q: seq<nat>, ids: map<nat, Timer>, stamp: map<nat, nat>, acted: seq<Action>,
                     log': seq<Event>, q': seq<nat>, ids': map<nat, Timer>, acted': seq<Action>, scripts: seq<seq<Action>>, n: nat, ts: int)
    requires Underway(log0, q0, ids0, acted0, log, q, ids, acted, scripts, n, ts) && Ordered(q, ids, stamp)
    requires q != [] && Expiry(q, ids, q', ids', q[0], ts) && FiredLog(log, log', q[0], ids[q[0]].due)
    requires forall k :: k in q' && (k !in q || (k == q[0] && !Repeats(ids[k]))) ==> Fires(Played1(scripts, n), k)
    requires acted' == acted + Played1(scripts, n)
    ensures Underway(log0, q0, ids0, acted0, log', q', ids', acted', scripts, n + 1, ts)
  {
    DrainStep(log0, q0, ids0, log, q, ids, stamp, log', q', ids', ts);
    SourcedStep(log0, q0, ids0, log, q, ids, log', q', ids', scripts, n, ts);
    ExpirationsStep(log, log', q[0], ids[q[0]].due);
    assert acted' == acted0 + (Played(scripts, n) + Played1(scripts, n));
  }

  lemma CaughtUpAll(log0: seq<Event>, q0: seq<nat>, ids0: map<nat, Timer>, stamp0: map<nat, nat>,
                    log: seq<Event>, q: seq<nat>, ids: map<nat, Timer>, ts: int, scripts: seq<seq<Action>>)
    requires Draining(log0, q0, ids0, log, q, ids, ts) && Drained(log0, q0, ids0, log, q, ids, ts) && Ordered(q0, ids0, stamp0)
    requires Sourced(log0, q0, ids0, log, q, scripts)
    ensures AllCaughtUp(log0, q0, ids0, log, q, ids, ts, scripts)
  {
    forall k | k in q0
      ensures k in ids0 && CaughtUp(ids0[k], ts, FiredSince(log0, log, k), k in q, if k in q && k in ids then ids[k].due else 0, FiredBy(scripts, k))
    {
      assert Caught(q0, ids0, q, ids, ts, k, FiredSince(log0, log, k));
      assert Tracked(q0, ids0, q, ids, ts, k, FiredSince(log0, log, k));
      CaughtUpOne(q0, ids0, q, ids, ts, k, FiredSince(log0, log, k), FiredBy(scripts, k));
    }
  }

  lemma CaughtUpOne(q0: seq<nat>, ids0: map<nat, Timer>, q: seq<nat>, ids: map<nat, Timer>, ts: int, k: nat, n: int, refired: bool)
    requires k in q0 && k in ids0 && Caught(q0, ids0, q, ids, ts, k, n) && Tracked(q0, ids0, q, ids, ts, k, n)
    requires k in q ==> k in ids && ids[k].due > ts && (n == 0 || Repeats(ids0[k]) || refired)
    ensures CaughtUp(ids0[k], ts, n, k in q, if k in q && k in ids then ids[k].due else 0, refired)
  {
    var x := ids0[k];
    if x.due <= ts && x.repeat >= 1000 {
      ExpiriesExact(x, ts);
      GridStep(x, n - 1);
    }
  }

  /** What the loop has been through: the closures it ran and the actions its callbacks took. */
  datatype Trail = Trail(ran: seq<Closure>, acted: seq<Action>)

  class TimerEngine {
    var ids: map<nat, Timer>
    var timers: seq<nat>
    var pending: seq<Closure>
    var nextId: nat
    var owners: set<nat>
    ghost var held: multiset<nat>
    ghost var stamp: map<nat, nat>
    ghost var log: seq<Event>
    ghost var trail: Trail

    ghost function Refs(): Holders
      reads this
    {
      Holders(timers, pending, owners, held)
    }

    ghost predicate Valid()
      reads this
    {
      && Ordered(timers, ids, stamp)
      && StampsOk(timers, stamp, |log|)
      && RefsOk(ids, Refs())
      && OnceOk(timers, pending)
      && LogOk(log, timers)
      && (forall id :: id in ids ==> id < nextId)
    }

    constructor ()
      ensures Valid() && ids == map[] && timers == [] && pending == [] && owners == {} && log == []
      ensures held == multiset{} && trail == Trail([], [])
    {
      ids, timers, pending, nextId := map[], [], [], 0;
      owners, held, stamp, log, trail := {}, multiset{}, map[], [], Trail([], []);
    }

    /** `timer::timer`: a new id whose only reference is its owner. */
    method NewTimer(due: int, repeat: nat) returns (id: nat)
      requires Valid()
      modifies this
      ensures Valid() && id !in old(ids) && ids == old(ids)[id := Timer(due, repeat, 1)]
      ensures Refs() == old(Refs()).(owners := old(owners) + {id}) && log == old(log) && trail == old(trail)
    {
      id := nextId;
      assert RefsOf(ids, id) == Shares(Refs(), id);
      RefsChange(ids, Refs(), ids[id := Timer(due, repeat, 1)], Refs().(owners := owners + {id}));
      nextId := nextId + 1;
      ids := ids[id := Timer(due, repeat, 1)];
      owners := owners + {id};
    }

    /** `timer::~timer`: the owner's reference goes; a listed or awaited id lives on. */
    method DropTimer(id: nat)
      requires Valid() && id in owners
      modifies this
      ensures Valid() && ids == Released(old(ids), id)
      ensures Refs() == old(Refs()).(owners := old(owners) - {id}) && log == old(log) && trail == old(trail)
    {
      DropShare(id, Refs().(owners := owners - {id}));
      owners := owners - {id};
      ids := Released(ids, id);
    }

    /** One reference to `id` goes away: the count follows, and a listed id stays. */
    lemma DropShare(id: nat, h: Holders)
      requires Valid() && h.timers == timers
      requires forall k: nat :: Shares(h, k) == Shares(Refs(), k) - One(k == id)
      ensures RefsOk(Released(ids, id), h)
      ensures Ordered(timers, Released(ids, id), stamp)
    {
      assert RefsOf(ids, id) == Shares(Refs(), id);
      CountMember(timers, id);
      RefsChange(ids, Refs(), Released(ids, id), h);
    }

    /** `timer_schedule` on the loop thread. */
    method ScheduleInLoop(id: nat)
      requires Valid() && id in ids && Count(timers, id) + CountSchedules(pending, id) == 0
      modifies this
      ensures Valid() && ids == Referenced(old(ids), id)
      ensures Refs() == old(Refs()).(timers := InsertAt(old(timers), UpperBound(old(timers), old(ids), old(ids)[id].due), id))
      ensures log == old(log) + [Inserted(id)] && trail == old(trail)
    {
      CountMember(timers, id);
      var p := UpperBound(timers, ids, ids[id].due);
      InsertOrdered(timers, ids, stamp, id, |log|);
      OrderedReferenced(InsertAt(timers, p, id), ids, stamp[id := |log|], id);
      StampsInsert(timers, stamp, |log|, p, id);
      InsertEffect(ids, Refs(), log, p, id);
      ids := Referenced(ids, id);
      timers := InsertAt(timers, p, id);
      stamp := stamp[id := |log|];
      log := log + [Inserted(id)];
    }

    /** `timer_schedule` on any other thread: the id is kept alive by the closure. */
    method ScheduleFromOutside(id: nat)
      requires Valid() && id in ids && Count(timers, id) + CountSchedules(pending, id) == 0
      modifies this
      ensures Valid() && ids == Referenced(old(ids), id)
      ensures Refs() == old(Refs()).(pending := old(pending) + [Schedule(id)]) && log == old(log) && trail == old(trail)
    {
      forall k: nat ensures CountClosures(pending + [Schedule(id)], k) == CountClosures(pending, k) + One(k == id)
                    ensures CountSchedules(pending + [Schedule(id)], k) == CountSchedules(pending, k) + One(k == id) {
        ClosurePush(pending, Schedule(id), k);
      }
      RefsChange(ids, Refs(), Referenced(ids, id), Refs().(pending := pending + [Schedule(id)]));
      ids := Referenced(ids, id);
      pending := pending + [Schedule(id)];
    }

    /** `timer::cancel`: nothing to do when only the owner holds the id. */
    method CancelTimer(id: nat)
      requires Valid() && id in ids
      modifies this
      ensures Valid() && log == old(log) && trail == old(trail)
      ensures if old(ids)[id].refs == 1 then ids == old(ids) && Refs() == old(Refs())
              else ids == Referenced(old(ids), id) && Refs() == old(Refs()).(pending := old(pending) + [Cancel(id)])
    {
      if ids[id].refs != 1 {
        forall k: nat ensures CountClosures(pending + [Cancel(id)], k) == CountClosures(pending, k) + One(k == id)
                      ensures CountSchedules(pending + [Cancel(id)], k) == CountSchedules(pending, k) {
          ClosurePush(pending, Cancel(id), k);
        }
        RefsChange(ids, Refs(), Referenced(ids, id), Refs().(pending := pending + [Cancel(id)]));
        ids := Referenced(ids, id);
        pending := pending + [Cancel(id)];
      }
    }

    /** Take the entry at `p` off the list and call back; the reference is now on the stack. */
    method Take(p: nat, e: Event)
      requires Valid() && p < |timers| && !e.Inserted? && e.id == timers[p]
      modifies this
      ensures Valid() && ids == old(ids) && log == old(log) + [e]
      ensures Refs() == old(Refs()).(timers := old(timers)[..p] + old(timers)[p+1..], held := old(held) + multiset{e.id}) && trail == old(trail)
    {
      TakeEffect(ids, Refs(), log, p, e);
      OrderedErase(timers, ids, stamp, p);
      timers := timers[..p] + timers[p+1..];
      held := held + multiset{e.id};
      log := log + [e];
    }

    /** `id->release()` of a reference held on the stack. */
    method ReleaseHeld(id: nat)
      requires Valid() && id in held
      modifies this
      ensures Valid() && ids == Released(old(ids), id)
      ensures Refs() == old(Refs()).(held := old(held) - multiset{id}) && log == old(log) && trail == old(trail)
    {
      DropShare(id, Refs().(held := held - multiset{id}));
      held := held - multiset{id};
      ids := Released(ids, id);
    }

    /** The loop starts a closure; its reference is now on the stack. */
    method PopClosure() returns (c: Closure)
      requires Valid() && pending != []
      modifies this
      ensures Valid() && c == old(pending)[0] && ids == old(ids) && log == old(log)
      ensures Refs() == old(Refs()).(pending := old(pending)[1..], held := old(held) + multiset{c.id})
      ensures trail == old(trail).(ran := old(trail).ran + [c])
    {
      c := pending[0];
      RefsChange(ids, Refs(), ids, Refs().(pending := pending[1..], held := held + multiset{c.id}));
      forall k: nat ensures Count(timers, k) + CountSchedules(pending[1..], k) <= 1 {
        assert Count(timers, k) + CountSchedules(pending, k) <= 1;
      }
      pending := pending[1..];
      held := held + multiset{c.id};
      trail := trail.(ran := trail.ran + [c]);
    }

    /** One closure run by the loop: a deferred `timer_schedule`, or the body of `timer_cancel`, which calls
        back "aborted" if and only if the id is listed. That callback follows `script`, and may list
        timers again, its own included; entries of other timers stay. */
    method RunClosure(script: seq<Action>)
      requires Valid() && pending != [] && held == multiset{}
      modifies this
      ensures Valid() && held == multiset{} && old(pending)[1..] <= pending
      ensures trail == Trail(old(trail).ran + [old(pending)[0]],
                             old(trail).acted + (if old(pending)[0].Cancel? && old(pending)[0].id in old(timers) then script else []))
      ensures match old(pending)[0]
              case Schedule(id) => ids == old(ids) && log == old(log) + [Inserted(id)] && Listing(old(timers), timers, id)
              case Cancel(id) => if id in old(timers) then CalledBack(old(log), log, Aborted(id)) && Cancelled(old(timers), timers, id, script)
                                 else log == old(log) && timers == old(timers)
      ensures old(pending)[0].Schedule? || old(pending)[0].id !in old(timers) ==> owners == old(owners) && pending == old(pending)[1..]
      ensures forall k :: k in old(timers) && k != old(pending)[0].id ==> KeepsTimes(old(ids), ids, k)
    {
      var c := PopClosure();
      match c
      case Schedule(id) => FinishSchedule(id);
      case Cancel(id) => FinishCancel(id, script);
    }

    /** The drain of the run queue, as far as timers go: every closure that waits when it begins is run, in
        order; what callbacks queue meanwhile waits for the next one. */
    method RunPending(scripts: seq<seq<Action>>)
      requires Valid() && held == multiset{}
      modifies this
      ensures Valid() && held == multiset{}
      ensures trail.ran == old(trail).ran + old(pending)
    {
      ghost var all := pending;
      var n := |pending|;
      for i := 0 to n
        invariant Valid() && held == multiset{} && n == |all| && all[i..] <= pending
        invariant trail.ran == old(trail).ran + all[..i]
      {
        assert all[i..][0] == all[i] && all[i..][1..] == all[i+1..] && all[..i+1] == all[..i] + [all[i]];
        ghost var q := pending;
        RunClosure(if i < |scripts| then scripts[i] else []);
        assert all[i+1..] <= q[1..];
      }
      assert all[..n] == all;
    }

    method FinishSchedule(id: nat)
      requires Valid() && held == multiset{id} && Count(timers, id) + CountSchedules(pending, id) == 0
      modifies this
      ensures Valid() && held == multiset{} && owners == old(owners) && pending == old(pending) && trail == old(trail)
      ensures ids == old(ids) && log == old(log) + [Inserted(id)] && Listing(old(timers), timers, id)
    {
      assert RefsOf(ids, id) == Shares(Refs(), id);
      CountMember(timers, id);
      ghost var p := UpperBound(timers, ids, ids[id].due);
      InsertMembers(timers, p, id);
      ScheduleInLoop(id);
      ReleaseHeld(id);
      assert ids == old(ids);
    }

    method FinishCancel(id: nat, script: seq<Action>)
      requires Valid() && held == multiset{id}
      modifies this
      ensures Valid() && held == multiset{} && old(pending) <= pending
      ensures trail == old(trail).(acted := old(trail).acted + (if id in old(timers) then script else []))
      ensures if id in old(timers) then CalledBack(old(log), log, Aborted(id)) && Cancelled(old(timers), timers, id, script)
              else log == old(log) && timers == old(timers) && owners == old(owners) && pending == old(pending)
      ensures forall k :: k in old(timers) && k != id ==> KeepsTimes(old(ids), ids, k)
    {
      if id in timers {
        AbortListed(id, script);
      }
      LetGo(id);
    }

    /** The entry leaves the list, its callback runs, and the list's reference goes. */
    method AbortListed(id: nat, script: seq<Action>)
      requires Valid() && held == multiset{id} && id in timers
      modifies this
      ensures Valid() && held == multiset{id} && old(pending) <= pending
      ensures trail == old(trail).(acted := old(trail).acted + script)
      ensures CalledBack(old(log), log, Aborted(id)) && Cancelled(old(timers), timers, id, script)
      ensures forall k :: k in old(timers) && k != id ==> KeepsTimes(old(ids), ids, k)
    {
      var p :| 0 <= p < |timers| && timers[p] == id;
      EraseGone(timers, ids, stamp, p);
      Take(p, Aborted(id));
      Callback(script, id, false, Below(script));
      LetGo(id);
    }

    /** `id->release()` by the loop; listed timers keep their times. */
    method LetGo(id: nat)
      requires Valid() && id in held
      modifies this
      ensures Valid() && held == old(held) - multiset{id} && timers == old(timers) && pending == old(pending) && log == old(log)
      ensures owners == old(owners) && trail == old(trail) && forall k :: k in timers ==> KeepsTimes(old(ids), ids, k)
    {
      assert RefsOf(ids, id) == Shares(Refs(), id);
      CountMember(timers, id);
      ReleaseHeld(id);
    }

    /** `timer::due_time` on a timer that is not listed. */
    method SetDue(id: nat, due: int)
      requires Valid() && id in ids && id !in timers
      modifies this
      ensures Valid() && ids == old(ids)[id := old(ids)[id].(due := due)]
      ensures Refs() == old(Refs()) && log == old(log) && trail == old(trail)
    {
      DueEffect(ids, Refs(), stamp, id, due);
      ids := ids[id := ids[id].(due := due)];
    }

    /** `due_time(due).fire()` in a callback. */
    method FireLater(id: nat, due: int, ghost cur: nat, ghost rearm: bool, ghost ts: int)
      requires Valid() && cur in ids && id in ids && due > ts
      requires Count(timers, id) + CountSchedules(pending, id) == 0 && (id == cur ==> !rearm)
      modifies this
      ensures Valid() && held == old(held)
      ensures Quiet(old(timers), old(ids), timers, ids, cur, rearm, ts) && QuietLog(old(log), log)
      ensures Work(timers, ids, ts) == old(Work(timers, ids, ts))
      ensures pending == old(pending) && trail == old(trail) && forall k :: k in timers <==> k == id || k in old(timers)
      ensures ids[id].due == due && owners == old(owners) && log == old(log) + [Inserted(id)]
    {
      CountMember(timers, id);
      SetDue(id, due);
      WorkSame(timers, old(ids), ids, ts);
      ghost var m := ids;
      ScheduleMeasured(id, ts);
      assert Overdue(m[id], ts) == 0;
    }

    /** `timer_schedule` on the loop thread, by its effect on the measure and the log. */
    method ScheduleMeasured(id: nat, ghost ts: int)
      requires Valid() && id in ids && Count(timers, id) + CountSchedules(pending, id) == 0
      modifies this
      ensures Valid() && held == old(held) && pending == old(pending) && ids == Referenced(old(ids), id)
      ensures trail == old(trail) && owners == old(owners) && log == old(log) + [Inserted(id)]
      ensures forall k :: k in timers <==> k == id || k in old(timers)
      ensures QuietLog(old(log), log)
      ensures Work(timers, ids, ts) == old(Work(timers, ids, ts)) + Overdue(ids[id], ts)
    {
      ghost var p := UpperBound(timers, ids, ids[id].due);
      ScheduleInLoop(id);
      InsertMembers(old(timers), p, id);
      WorkInsert(old(timers), p, id, old(ids), ts);
      WorkSame(timers, old(ids), ids, ts);
      forall k: nat ensures Fired(log, k) == Fired(old(log), k) {
        LogPush(old(log), Inserted(id), k);
      }
    }

    /** One action of the callback for `cur`, which the loop holds. Actions outside the rules for
        callbacks (an id that is gone or already waiting, a time not after `ts`, a timer that
        the loop lists again itself) are passed over, so that every script stands for a lawful callback. */
    method Perform(a: Action, cur: nat, rearm: bool, ts: int)
      requires Valid() && cur in held
      modifies this
      ensures Valid() && held == old(held)
      ensures Quiet(old(timers), old(ids), timers, ids, cur, rearm, ts) && QuietLog(old(log), log)
      ensures Work(timers, ids, ts) == old(Work(timers, ids, ts))
      ensures CountSchedules(pending, cur) == CountSchedules(old(pending), cur) && old(pending) <= pending
      ensures forall k :: k in timers && k !in old(timers) ==> a.Fire? && a.id == k
      ensures trail == old(trail).(acted := old(trail).acted + [a])
      ensures Acted(a, cur, rearm, ts, old(ids), old(timers), old(pending), old(owners), old(log), ids, timers, pending, owners, log)
    {
      trail := trail.(acted := trail.acted + [a]);
      if a.Fire? {
        assert RefsOf(ids, cur) == Shares(Refs(), cur);
        if MayFire(ids, timers, pending, a.id, a.due, cur, rearm, ts) {
          FireLater(a.id, a.due, cur, rearm, ts);
        }
      } else {
        PerformElse(a, cur, rearm, ts);
      }
    }

    /** The actions that list nothing. */
    method PerformElse(a: Action, cur: nat, ghost rearm: bool, ghost ts: int)
      requires Valid() && cur in held && !a.Fire?
      modifies this
      ensures Valid() && held == old(held) && timers == old(timers) && log == old(log) && trail == old(trail)
      ensures Quiet(old(timers), old(ids), timers, ids, cur, rearm, ts)
      ensures Work(timers, ids, ts) == old(Work(timers, ids, ts))
      ensures CountSchedules(pending, cur) == CountSchedules(old(pending), cur) && old(pending) <= pending
      ensures Acted(a, cur, rearm, ts, old(ids), old(timers), old(pending), old(owners), old(log), ids, timers, pending, owners, log)
    {
      assert RefsOf(ids, cur) == Shares(Refs(), cur);
      match a {
        case Stop(id) =>
          if id in ids {
            CancelTimer(id);
            ClosurePush(old(pending), Cancel(id), cur);
          }
        case Drop(id) =>
          if id in owners {
            DropTimer(id);
            assert RefsOf(ids, cur) == Shares(Refs(), cur);
          }
        case Create(due, repeat) =>
          var _ := NewTimer(due, repeat);
      }
      WorkSame(timers, old(ids), ids, ts);
    }

    /** `id->callback(...)`: any number of lawful actions. */
    method Callback(script: seq<Action>, cur: nat, rearm: bool, ts: int)
      requires Valid() && cur in held
      modifies this
      ensures Valid() && held == old(held)
      ensures Quiet(old(timers), old(ids), timers, ids, cur, rearm, ts) && QuietLog(old(log), log)
      ensures Work(timers, ids, ts) == old(Work(timers, ids, ts))
      ensures CountSchedules(pending, cur) == CountSchedules(old(pending), cur) && old(pending) <= pending
      ensures forall k :: k in timers && k !in old(timers) ==> Fires(script, k)
      ensures trail == old(trail).(acted := old(trail).acted + script)
    {
      assert RefsOf(ids, cur) == Shares(Refs(), cur);
      for n := 0 to |script|
        invariant Valid() && held == old(held)
        invariant Quiet(old(timers), old(ids), timers, ids, cur, rearm, ts) && QuietLog(old(log), log)
        invariant Work(timers, ids, ts) == old(Work(timers, ids, ts))
        invariant CountSchedules(pending, cur) == CountSchedules(old(pending), cur) && old(pending) <= pending
        invariant forall k :: k in timers && k !in old(timers) ==> Fires(script, k)
        invariant trail.ran == old(trail).ran && trail.acted == old(trail).acted + script[..n]
      {
        ghost var q, m := timers, ids;
        Perform(script[n], cur, rearm, ts);
        QuietTrans(old(timers), old(ids), q, m, timers, ids, cur, rearm, ts);
        assert script[..n+1] == script[..n] + [script[n]];
      }
      assert script[..|script|] == script;
    }

    /** One turn of the `timer_drain` loop, for a front entry that is due. */
    method FireFront(ts: int, script: seq<Action>)
      requires Valid() && held == multiset{} && timers != [] && ids[timers[0]].due <= ts
      modifies this
      ensures Valid() && held == multiset{}
      ensures Expiry(old(timers), old(ids), timers, ids, old(timers)[0], ts)
      ensures FiredLog(old(log), log, old(timers)[0], old(ids)[old(timers)[0]].due)
      ensures Work(timers, ids, ts) < old(Work(timers, ids, ts))
      ensures trail == old(trail).(acted := old(trail).acted + script)
      ensures forall k :: k in timers && (k !in old(timers) || (k == old(timers)[0] && !Repeats(old(ids)[k]))) ==> Fires(script, k)
    {
      var id := timers[0];
      CallFront(ts, script);
      ghost var q, m := timers, ids;
      if Repeats(ids[id]) {
        Rearm(id, ts);
      }
      Settle(id, ts);
      ExpiryFrom(old(timers), old(ids), q, m, timers, ids, ts);
    }

    /** The front entry leaves the list and its callback runs. */
    method CallFront(ts: int, script: seq<Action>)
      requires Valid() && held == multiset{} && timers != [] && ids[timers[0]].due <= ts
      modifies this
      ensures Valid() && held == multiset{old(timers)[0]} && CountSchedules(pending, old(timers)[0]) == 0
      ensures old(timers)[0] !in old(timers)[1..]
      ensures Quiet(old(timers)[1..], old(ids), timers, ids, old(timers)[0], Repeats(old(ids)[old(timers)[0]]), ts)
      ensures FiredLog(old(log), log, old(timers)[0], old(ids)[old(timers)[0]].due)
      ensures Work(timers, ids, ts) == old(Work(timers, ids, ts)) - Overdue(old(ids)[old(timers)[0]], ts)
      ensures trail == old(trail).(acted := old(trail).acted + script)
      ensures forall k :: k in timers && k !in old(timers)[1..] ==> Fires(script, k)
    {
      var id := timers[0];
      EraseGone(timers, ids, stamp, 0);
      assert Count(timers, id) + CountSchedules(pending, id) <= 1;
      Take(0, Expired(id, ids[id].due));
      assert timers == old(timers)[1..];
      Callback(script, id, Repeats(ids[id]), ts);
      forall k: nat ensures Fired(log, k) == Fired(old(log), k) + One(k == id) {
        LogPush(old(log), Expired(id, old(ids)[id].due), k);
      }
    }

    /** The loop lets go of the expired id. */
    method Settle(id: nat, ghost ts: int)
      requires Valid() && held == multiset{id}
      modifies this
      ensures Valid() && held == multiset{} && log == old(log) && timers == old(timers) && trail == old(trail)
      ensures forall k :: k in timers ==> k in old(ids) && k in ids && ids[k].due == old(ids)[k].due && ids[k].repeat == old(ids)[k].repeat
      ensures Work(timers, ids, ts) == old(Work(timers, ids, ts))
    {
      assert RefsOf(ids, id) == Shares(Refs(), id);
      CountMember(timers, id);
      ReleaseHeld(id);
      WorkSame(timers, old(ids), ids, ts);
    }

    /** The next grid point of a repeating timer, and back into the list. */
    method Rearm(id: nat, ghost ts: int)
      requires Valid() && id in held && id in ids && id !in timers && CountSchedules(pending, id) == 0 && Repeats(ids[id])
      modifies this
      ensures Valid() && held == old(held) && id in ids && id in timers && trail == old(trail)
      ensures ids[id].due == old(ids)[id].due + old(ids)[id].repeat && ids[id].repeat == old(ids)[id].repeat
      ensures forall k :: k != id ==> (k in timers <==> k in old(timers))
      ensures ids.Keys == old(ids).Keys && forall k :: k in ids && k != id ==> ids[k] == old(ids)[k]
      ensures QuietLog(old(log), log)
      ensures Work(timers, ids, ts) == old(Work(timers, ids, ts)) + Overdue(ids[id], ts)
    {
      CountMember(timers, id);
      SetDue(id, ids[id].due + ids[id].repeat);
      WorkSame(timers, old(ids), ids, ts);
      ScheduleMeasured(id, ts);
    }

    /** `timer_drain` at time `ts`, the callbacks following `scripts`; `n` counts the expiries. */
    method Drain(ts: int, scripts: seq<seq<Action>>) returns (n: nat)
      requires Valid() && held == multiset{}
      modifies this
      ensures Valid() && held == multiset{}
      ensures Drained(old(log), old(timers), old(ids), log, timers, ids, ts)
      ensures AllCaughtUp(old(log), old(timers), old(ids), log, timers, ids, ts, scripts)
      ensures n == Expirations(log) - Expirations(old(log))
      ensures trail == old(trail).(acted := old(trail).acted + Played(scripts, n))
    {
      DrainStart(log, timers, ids, stamp, ts);
      n := 0;
      while timers != [] && ids[timers[0]].due <= ts
        invariant Valid() && held == multiset{} && trail.ran == old(trail).ran
        invariant Underway(old(log), old(timers), old(ids), old(trail).acted, log, timers, ids, trail.acted, scripts, n, ts)
        decreases Work(timers, ids, ts)
      {
        ghost var q, m, l, st, acted := timers, ids, log, stamp, trail.acted;
        FireFront(ts, Played1(scripts, n));
        UnderwayStep(old(log), old(timers), old(ids), old(trail).acted, l, q, m, st, acted, log, timers, ids, trail.acted, scripts, n, ts);
        n := n + 1;
      }
      DrainEnd(old(log), old(timers), old(ids), log, timers, ids, old(stamp), stamp, ts);
      CaughtUpAll(old(log), old(timers), old(ids), old(stamp), log, timers, ids, ts, scripts);
    }

    /** `next_wake_up_time`: one second when no timer is listed, else exactly the time to the first
        due one; so the sleep never passes the due time of any listed timer. */
    method NextWakeUp(now: int) returns (span: nat)
      requires Valid()
      ensures timers == [] ==> span == 1000000
      ensures forall k :: k in timers ==> now + span <= ids[k].due || (ids[k].due <= now && span == 0)
      ensures timers != [] && span > 0 ==> exists k :: k in timers && now + span == ids[k].due
      ensures timers != [] && span == 0 ==> exists k :: k in timers && ids[k].due <= now
    {
      if timers == [] {
        return 1000000;
      }
      var due := ids[timers[0]].due;
      assert timers[0] in timers;
      forall k | k in timers ensures due <= ids[k].due {
        var i :| 0 <= i < |timers| && timers[i] == k;
        assert i > 0 ==> Before(ids, stamp, timers[0], timers[i]);
      }
      if due <= now {
        return 0;
      }
      return due - now;
    }
  }

  // ---------------------------------------------------------------- the wait of the multiplexer

  /** The timeout in milliseconds passed to `epoll_wait` for a sleep of `span` microseconds. */
  function WaitMilliseconds(span: nat): int {
    Int32.Cast(span / 1000)
  }

  /** `epoll_wait` blocks for ever on a negative timeout; otherwise it returns in time. */
  predicate ReturnsBy(timeout: int, span: nat) {
    0 <= timeout && timeout * 1000 <= span
  }

  /** The wait ends by the due time exactly when the millisecond count survives the cast with
      its sign bit clear. */
  lemma WaitInTime(span: nat)
    ensures ReturnsBy(WaitMilliseconds(span), span) <==> span / 1000 % 0x1_0000_0000 < 0x8000_0000
  {
    Int32.LowIsRemainder(span / 1000);
    assert span / 1000 * 1000 <= span;
  }

  /** While the count fits, the wait falls short of the sleep by less than a millisecond. */
  lemma WaitClose(span: nat)
    requires span < 0x8000_0000 * 1000
    ensures 0 <= span - WaitMilliseconds(span) * 1000 < 1000
  {
  }

  /** A timer due in 2^31 milliseconds (under 25 days) makes the loop block without a timeout. */
  lemma WaitForever()
    ensures WaitMilliseconds(0x8000_0000 * 1000) < 0
    ensures forall span: nat :: span < 0x8000_0000 * 1000 ==> ReturnsBy(WaitMilliseconds(span), span)
  {
    forall span: nat | span < 0x8000_0000 * 1000 ensures ReturnsBy(WaitMilliseconds(span), span) {
      WaitInTime(span);
    }
  }
}
