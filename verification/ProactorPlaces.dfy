/** Every operation is in exactly one place, from submission until it finishes. */
module ProactorPlaces {
  import opened Proactor
  import opened ProactorLifetime

  datatype Place = AtThread(t: nat) | InQueue | InRun | Waits(d: nat, dir: Dir) | Finished

  function OpOcc(q: seq<Op>, id: nat): nat {
    if q == [] then 0 else One(q[0].id == id) + OpOcc(q[1..], id)
  }

  function IdOf(item: Item): Option<nat> {
    match item
    case Run(op) => Some(op.id)
    case Join(id, _, _) => Some(id)
    case Close(_) => None
  }

  predicate Carries(item: Item, id: nat) {
    IdOf(item) == Some(id)
  }

  function ItemOcc(items: seq<Item>, id: nat): nat {
    if items == [] then 0 else One(Carries(items[0], id)) + ItemOcc(items[1..], id)
  }

  lemma {:induction false} OpOccConcat(a: seq<Op>, b: seq<Op>, id: nat)
    ensures OpOcc(a + b, id) == OpOcc(a, id) + OpOcc(b, id)
  {
    if a == [] {
      assert a + b == b;
    } else {
      OpOccConcat(a[1..], b, id);
      assert (a + b)[1..] == a[1..] + b;
    }
  }

  lemma {:induction false} ItemOccConcat(a: seq<Item>, b: seq<Item>, id: nat)
    ensures ItemOcc(a + b, id) == ItemOcc(a, id) + ItemOcc(b, id)
  {
    if a == [] {
      assert a + b == b;
    } else {
      ItemOccConcat(a[1..], b, id);
      assert (a + b)[1..] == a[1..] + b;
    }
  }

  lemma ItemOccOne(item: Item, id: nat)
    ensures ItemOcc([item], id) == One(Carries(item, id))
  {
    assert [item][1..] == [];
  }

  lemma OpOccOne(op: Op, id: nat)
    ensures OpOcc([op], id) == One(op.id == id)
  {
    assert [op][1..] == [];
  }

  lemma {:induction false} RunsOcc(q: seq<Op>, id: nat)
    ensures ItemOcc(Runs(q), id) == OpOcc(q, id)
  {
    if q != [] {
      RunsOcc(q[1..], id);
      assert Runs(q)[1..] == Runs(q[1..]);
    }
  }

  function AgentOcc(a: Agent, id: nat): nat {
    match a
    case Posting(todo, _, _) => ItemOcc(todo, id)
    case Binding(_, carry) => One(carry == Some(id))
    case Carrying(_, k) => One(k == id)
  }

  function ThreadOcc(agents: map<nat, Agent>, t: nat, id: nat): nat {
    if t in agents then AgentOcc(agents[t], id) else 0
  }

  function WaitOcc(descs: map<nat, Desc>, d: nat, dir: Dir, id: nat): nat {
    if d in descs then OpOcc(Q(descs[d], dir), id) else 0
  }

  /** How often an operation occurs in a place. */
  function Occurs(s: State, p: Place, id: nat): nat {
    match p
    case AtThread(t) => ThreadOcc(s.agents, t, id)
    case InQueue => ItemOcc(s.queue, id)
    case InRun => ItemOcc(s.loop.ops, id)
    case Waits(d, dir) => WaitOcc(s.descs, d, dir, id)
    case Finished => OpOcc(s.finished, id)
  }

  /** `loc` says where each operation is; nothing is anywhere else, nothing is lost. */
  ghost predicate Placed(s: State, loc: map<nat, Place>) {
    && (forall id: nat :: id in loc <==> id < s.nextOp)
    && (forall p, id: nat :: Occurs(s, p, id) == One(id in loc && loc[id] == p))
  }

  ghost predicate OnePlace(s: State) {
    exists loc :: Placed(s, loc)
  }

  // ---------------------------------------------------------------- preservation

  /** A new operation appears in one place. */
  lemma Appears(s: State, s': State, to: Place)
    requires OnePlace(s) && s'.nextOp == s.nextOp + 1
    requires forall p, k: nat :: Occurs(s', p, k) == Occurs(s, p, k) + One(k == s.nextOp && p == to)
    ensures OnePlace(s')
  {
    var loc: map<nat, Place> :| Placed(s, loc);
    assert Placed(s', loc[s.nextOp := to]);
  }

  /** One operation goes from one place to another. */
  lemma Moves(s: State, s': State, id: nat, from: Place, to: Place)
    requires OnePlace(s) && s'.nextOp == s.nextOp && from != to && Occurs(s, from, id) > 0
    requires forall p, k: nat :: Occurs(s', p, k) + One(k == id && p == from) == Occurs(s, p, k) + One(k == id && p == to)
    ensures OnePlace(s')
  {
    var loc: map<nat, Place> :| Placed(s, loc);
    assert Placed(s', loc[id := to]);
  }

  lemma Stays(s: State, s': State)
    requires OnePlace(s) && s'.nextOp == s.nextOp
    requires forall p, k: nat :: Occurs(s', p, k) == Occurs(s, p, k)
    ensures OnePlace(s')
  {
    var loc: map<nat, Place> :| Placed(s, loc);
    assert Placed(s', loc);
  }

  lemma PlaceSubmit(s: State, t: nat, d: nat, dir: Dir)
    requires OnePlace(s) && t !in s.agents && d in s.descs
    ensures OnePlace(DoSubmit(s, t, d, dir, s.nextOp).(nextOp := s.nextOp + 1))
  {
    var s' := DoSubmit(s, t, d, dir, s.nextOp).(nextOp := s.nextOp + 1);
    forall p, k: nat ensures Occurs(s', p, k) == Occurs(s, p, k) + One(k == s.nextOp && p == AtThread(t)) {
      ItemOccOne(Join(s.nextOp, d, dir), k);
    }
    Appears(s, s', AtThread(t));
  }

  lemma PlaceSubmitCarried(s: State, t: nat, d: nat, id: nat)
    requires OnePlace(s) && t in s.agents && s.agents[t] == Carrying(d, id) && d in s.descs
    ensures OnePlace(DoSubmit(s, t, d, Wr, id))
  {
    var s' := DoSubmit(s, t, d, Wr, id);
    forall p, k: nat ensures Occurs(s', p, k) == Occurs(s, p, k) {
      ItemOccOne(Join(id, d, Wr), k);
    }
    Stays(s, s');
  }

  lemma PlaceExecute(s: State, t: nat, e: Err)
    requires OnePlace(s) && t !in s.agents
    ensures OnePlace(DoExecute(s, t, e))
  {
    var s' := DoExecute(s, t, e);
    forall p, k: nat ensures Occurs(s', p, k) == Occurs(s, p, k) + One(k == s.nextOp && p == AtThread(t)) {
      ItemOccOne(Run(Plain(s.nextOp)), k);
    }
    Appears(s, s', AtThread(t));
  }

  lemma PlaceUnbind(s: State, t: nat, d: nat)
    requires OnePlace(s) && t !in s.agents && d in s.descs
    ensures OnePlace(DoUnbind(s, t, d))
  {
    var s' := DoUnbind(s, t, d);
    forall p, k: nat ensures Occurs(s', p, k) == Occurs(s, p, k) {
      ItemOccOne(Close(d), k);
    }
    Stays(s, s');
  }

  lemma PlaceCreate(s: State, t: nat, kind: CreateKind)
    requires OnePlace(s) && t !in s.agents && s.nextDesc !in s.descs
    ensures OnePlace(DoCreate(s, t, kind))
  {
    var s', op := DoCreate(s, t, kind), Io(s.nextOp, s.nextDesc, Wr);
    var to := if kind == Connect then Waits(s.nextDesc, Wr) else AtThread(t);
    forall p, k: nat
      ensures Occurs(s', p, k) == Occurs(s, p, k) + One(kind != Open && k == s.nextOp && p == to)
    {
      OpOccOne(op, k);
    }
    if kind == Open {
      Stays(s, s');
    } else {
      Appears(s, s', to);
    }
  }

  lemma PlaceBindOk(s: State, t: nat, d: nat, carry: Option<nat>, ready: set<Dir>)
    requires OnePlace(s) && t in s.agents && s.agents[t] == Binding(d, carry) && d in s.descs
    ensures OnePlace(DoBindOk(s, t, d, carry, ready))
    ensures carry.None? ==> OnePlace(DoBindIgnored(s, t, d))
  {
    Stays(s, DoBindOk(s, t, d, carry, ready));
    if carry.None? {
      Stays(s, DoBindIgnored(s, t, d));
    }
  }

  lemma WaitingOcc(x: Desc, extra: seq<Item>, k: nat)
    ensures ItemOcc(Runs(Waiting(x)) + extra, k) == OpOcc(x.rd, k) + OpOcc(x.wr, k) + OpOcc(x.pr, k) + ItemOcc(extra, k)
  {
    ItemOccConcat(Runs(Waiting(x)), extra, k);
    RunsOcc(Waiting(x), k);
    OpOccConcat(x.rd + x.wr, x.pr, k);
    OpOccConcat(x.rd, x.wr, k);
  }

  lemma DestroyOcc(s: State, t: nat, d: nat, extra: seq<Item>, p: Place, k: nat)
    requires d in s.descs
    ensures Occurs(Destroy(s, t, d, extra), p, k) ==
            if p == AtThread(t) then
              Occurs(s, Waits(d, Rd), k) + Occurs(s, Waits(d, Wr), k) + Occurs(s, Waits(d, Pr), k) + ItemOcc(extra, k)
            else if p.Waits? && p.d == d then 0
            else Occurs(s, p, k)
  {
    if p == AtThread(t) {
      WaitingOcc(s.descs[d], extra, k);
    }
  }

  /** `descriptor_release` hands every waiting operation to the releasing thread. */
  lemma PlaceDestroy(s: State, t: nat, d: nat, extra: seq<Item>)
    requires OnePlace(s) && d in s.descs
    requires forall k: nat :: ThreadOcc(s.agents, t, k) == ItemOcc(extra, k)
    ensures OnePlace(Destroy(s, t, d, extra))
  {
    var s' := Destroy(s, t, d, extra);
    var loc: map<nat, Place> :| Placed(s, loc);
    var loc' := map id | id in loc :: if loc[id].Waits? && loc[id].d == d then AtThread(t) else loc[id];
    forall p, k: nat ensures Occurs(s', p, k) == One(k in loc' && loc'[k] == p) {
      DestroyOcc(s, t, d, extra, p, k);
      assert Occurs(s, p, k) == One(k in loc && loc[k] == p);
      assert Occurs(s, Waits(d, Rd), k) == One(k in loc && loc[k] == Waits(d, Rd));
      assert Occurs(s, Waits(d, Wr), k) == One(k in loc && loc[k] == Waits(d, Wr));
      assert Occurs(s, Waits(d, Pr), k) == One(k in loc && loc[k] == Waits(d, Pr));
    }
    assert Placed(s', loc');
  }

  lemma PlacePush(s: State, t: nat)
    requires OnePlace(s) && InPhase(s, t, Holding) && s.agents[t].todo != []
    ensures OnePlace(DoPush(s, t, s.agents[t].todo, s.agents[t].sent))
  {
    var s', item := DoPush(s, t, s.agents[t].todo, s.agents[t].sent), s.agents[t].todo[0];
    forall p, k: nat
      ensures Occurs(s', p, k) + One(Carries(item, k) && p == AtThread(t))
              == Occurs(s, p, k) + One(Carries(item, k) && p == InQueue)
    {
      ItemOccConcat(s.queue, [item], k);
      ItemOccOne(item, k);
    }
    if item.Close? {
      Stays(s, s');
    } else {
      Moves(s, s', IdOf(item).value, AtThread(t), InQueue);
    }
  }

  lemma PlaceSwap(s: State)
    requires OnePlace(s) && s.loop.ops == []
    ensures OnePlace(DoSwap(s))
  {
    var s' := DoSwap(s);
    var loc: map<nat, Place> :| Placed(s, loc);
    var loc' := map id | id in loc :: if loc[id] == InQueue then InRun else loc[id];
    forall p, k: nat ensures Occurs(s', p, k) == One(k in loc' && loc'[k] == p) {
      assert Occurs(s, p, k) == One(k in loc && loc[k] == p);
      assert Occurs(s, InQueue, k) == One(k in loc && loc[k] == InQueue);
      assert Occurs(s, InRun, k) == One(k in loc && loc[k] == InRun);
    }
    assert Placed(s', loc');
  }

  lemma PlaceStartRun(s: State)
    requires OnePlace(s) && s.loop.ops != [] && s.loop.ops[0].Run?
    ensures OnePlace(DoStart(s))
  {
    var s', op := DoStart(s), s.loop.ops[0].op;
    forall p, k: nat ensures Occurs(s', p, k) + One(k == op.id && p == InRun)
                             == Occurs(s, p, k) + One(k == op.id && p == Finished)
    {
      OpOccConcat(s.finished, [op], k);
      OpOccOne(op, k);
    }
    Moves(s, s', op.id, InRun, Finished);
  }

  lemma WaitUpdate(descs: map<nat, Desc>, d: nat, dir: Dir, q: seq<Op>, d': nat, dir': Dir, k: nat)
    requires d in descs
    ensures WaitOcc(descs[d := SetQ(descs[d], dir, q)], d', dir', k)
            == if d' == d && dir' == dir then OpOcc(q, k) else WaitOcc(descs, d', dir', k)
  {
  }

  lemma PlaceStartJoin(s: State)
    requires OnePlace(s) && s.loop.ops != [] && s.loop.ops[0].Join? && s.loop.ops[0].d in s.descs
    ensures OnePlace(DoStart(s))
  {
    var s', id, d, dir := DoStart(s), s.loop.ops[0].id, s.loop.ops[0].d, s.loop.ops[0].dir;
    var q, op := Q(s.descs[d], dir), Io(id, d, dir);
    forall p, k: nat ensures Occurs(s', p, k) + One(k == id && p == InRun)
                             == Occurs(s, p, k) + One(k == id && p == Waits(d, dir))
    {
      if p.Waits? {
        WaitUpdate(s.descs, d, dir, q + [op], p.d, p.dir, k);
        OpOccConcat(q, [op], k);
        OpOccOne(op, k);
      }
    }
    Moves(s, s', id, InRun, Waits(d, dir));
  }

  lemma PlaceStartClose(s: State)
    requires OnePlace(s) && s.loop.ops != [] && s.loop.ops[0].Close? && s.loop.ops[0].d in s.descs
    ensures OnePlace(DoStart(s))
  {
    Stays(s, DoStart(s));
  }

  lemma PlaceDone(s: State, d: nat, dir: Dir, e: Err)
    requires OnePlace(s) && d in s.descs
    ensures OnePlace(DoDone(s, d, dir, e))
  {
    var s', q := DoDone(s, d, dir, e), Q(s.descs[d], dir);
    if q != [] {
      var op := q[0];
      forall p, k: nat ensures Occurs(s', p, k) + One(k == op.id && p == Waits(d, dir))
                               == Occurs(s, p, k) + One(k == op.id && p == Finished)
      {
        match p {
          case Finished =>
            OpOccConcat(s.finished, [op], k);
            OpOccOne(op, k);
          case Waits(d', dir') => WaitUpdate(s.descs, d, dir, q[1..], d', dir', k);
          case _ =>
        }
      }
      Moves(s, s', op.id, Waits(d, dir), Finished);
    }
  }

  lemma PlacePost(s: State, t: nat, p: Phase)
    requires OnePlace(s) && t in s.agents && s.agents[t].Posting?
    ensures OnePlace(SetPhase(s, t, p))
    ensures s.agents[t].todo == [] ==> OnePlace(Remove(s, t))
  {
    Stays(s, SetPhase(s, t, p));
    if s.agents[t].todo == [] {
      Stays(s, Remove(s, t));
    }
  }

  /** Places depend on these components alone. */
  lemma SameParts(s: State, s': State)
    requires OnePlace(s) && s'.nextOp == s.nextOp
    requires s'.agents == s.agents && s'.queue == s.queue && s'.loop.ops == s.loop.ops && s'.finished == s.finished
    requires forall d, dir, k: nat :: WaitOcc(s'.descs, d, dir, k) == WaitOcc(s.descs, d, dir, k)
    ensures OnePlace(s')
  {
    Stays(s, s');
  }

  /** Every step keeps every operation in exactly one place. */
  lemma KeepPlaces(s: State, l: Label)
    requires Core(s) && OnePlace(s) && Enabled(s, l)
    ensures OnePlace(Apply(s, l))
  {
    if LoopStep(l) {
      KeepLoopPlaces(s, l);
    } else if PostStep(l) {
      KeepPostPlaces(s, l);
    } else {
      KeepSubmitPlaces(s, l);
    }
  }

  lemma KeepPostPlaces(s: State, l: Label)
    requires Core(s) && OnePlace(s) && Enabled(s, l) && PostStep(l)
    ensures OnePlace(Apply(s, l))
  {
    if l.Push? {
      PlacePush(s, l.t);
    } else if l.WakeUp? {
      PlacePost(s, l.t, NeedWake);
      SameParts(Remove(s, l.t), Apply(s, l));
    } else if l.Unlock? {
      PlacePost(s, l.t, NeedWake);
      SameParts(SetPhase(s, l.t, NeedWake), Apply(s, l));
    } else if l.Acquire? {
      PlacePost(s, l.t, Holding);
      SameParts(SetPhase(s, l.t, Holding), Apply(s, l));
    } else if l.Bump? {
      PlacePost(s, l.t, Holding);
      SameParts(SetPhase(s, l.t, Holding), Apply(s, l));
    }
  }

  lemma KeepSubmitPlaces(s: State, l: Label)
    requires Core(s) && OnePlace(s) && Enabled(s, l) && !PostStep(l) && !LoopStep(l)
    ensures OnePlace(Apply(s, l))
  {
    if l.Submit? {
      PlaceSubmit(s, l.t, l.d, l.dir);
    } else if l.Execute? {
      PlaceExecute(s, l.t, l.e);
    } else if l.Unbind? {
      PlaceUnbind(s, l.t, l.d);
    } else if l.Create? {
      PlaceCreate(s, l.t, l.kind);
    } else if l.BindOk? {
      PlaceBindOk(s, l.t, s.agents[l.t].d, s.agents[l.t].carry, l.ready);
    } else if l.BindIgnored? {
      PlaceBindOk(s, l.t, s.agents[l.t].d, s.agents[l.t].carry, {});
    } else if l.BindFail? {
      PlaceBindFail(s, l.t, s.agents[l.t].d, s.agents[l.t].carry, l.e);
    } else if l.SubmitCarried? {
      PlaceSubmitCarried(s, l.t, s.agents[l.t].d, s.agents[l.t].id);
    } else if l.Ready? {
      SameParts(s, DoReady(s, l.d, l.dir));
    } else if l.Unready? {
      SameParts(s, DoUnready(s, l.d, l.dir));
    }
  }

  lemma PlaceBindFail(s: State, t: nat, d: nat, carry: Option<nat>, e: Err)
    requires OnePlace(s) && t in s.agents && s.agents[t] == Binding(d, carry) && d in s.descs
    ensures OnePlace(DoBindFail(s, t, d, carry, e))
  {
    var s1 := if Get(s, d).wr != [] then s.(err := s.err[Get(s, d).wr[0].id := e]) else s;
    SameParts(s, s1);
    match carry
    case None => PlaceDestroy(s1, t, d, []);
    case Some(id) =>
      var s2 := s1.(err := s1.err[id := e]);
      SameParts(s1, s2);
      forall k: nat ensures ThreadOcc(s2.agents, t, k) == ItemOcc([Run(Plain(id))], k) {
        ItemOccOne(Run(Plain(id)), k);
      }
      PlaceDestroy(s2, t, d, [Run(Plain(id))]);
  }

  lemma KeepLoopPlaces(s: State, l: Label)
    requires Core(s) && OnePlace(s) && Enabled(s, l) && LoopStep(l)
    ensures OnePlace(Apply(s, l))
  {
    if l.Start? {
      PlaceStart(s);
    } else if l.Done? || l.Last? || l.Drop? {
      PlaceRelease(s, l);
    } else if l.Swap? {
      PlaceSwap(s);
    } else if l.Poll? {
      SameParts(s, DoPoll(s, l.evs));
    } else {
      KeepControlPlaces(s, l);
    }
  }

  lemma PlaceStart(s: State)
    requires Core(s) && OnePlace(s) && s.loop.ops != []
    ensures OnePlace(DoStart(s))
  {
    match s.loop.ops[0]
    case Run(_) => PlaceStartRun(s);
    case Join(_, d, _) =>
      HeadAlive(s, d);
      PlaceStartJoin(s);
    case Close(d) =>
      HeadAlive(s, d);
      PlaceStartClose(s);
  }

  lemma PlaceRelease(s: State, l: Label)
    requires Core(s) && OnePlace(s) && Enabled(s, l) && (l.Done? || l.Last? || l.Drop?)
    ensures OnePlace(Apply(s, l))
  {
    CurAlive(s);
    var d := s.loop.cur.d;
    if l.Done? {
      PlaceDone(s, d, s.loop.cur.dirs[0], l.e);
    } else if l.Last? {
      SameParts(s, WithCur(s, NoCur));
      PlaceDestroy(WithCur(s, NoCur), LOOP, d, []);
    } else {
      SameParts(s, DoDrop(s, d));
    }
  }

  lemma KeepControlPlaces(s: State, l: Label)
    requires OnePlace(s) && Enabled(s, l)
    requires LoopStep(l) && !l.Swap? && !l.Start? && !l.Done? && !l.Last? && !l.Drop? && !l.Poll?
    ensures OnePlace(Apply(s, l))
  {
    SameParts(s, Apply(s, l));
  }
}
