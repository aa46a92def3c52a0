/** Reference-counted memory blocks: src/block.cpp over include/tcode/fixed_size_allocator.hpp, with the
    byte buffers of src/byte_buffer.cpp that share them. Blocks and buffers are addressed by number;
    `blocks` holds every block obtained from `malloc` and not yet given back to it. */
module Blocks {
  import Int32

  type Byte = x: int | 0 <= x < 256

  datatype Handle = Null | At(b: nat)

  datatype Block = Block(refs: nat, capacity: nat, data: seq<Byte>)

  datatype Buffer = Buffer(block: Handle, read: nat, write: nat)

  /** The eleven size classes. */
  const Classes: nat := 11

  function SizeOf(c: nat): nat
    requires c < Classes
  {
    if c == 0 then 4 else if c == 1 then 8 else if c == 2 then 16 else if c == 3 then 32 else if c == 4 then 64
    else if c == 5 then 256 else if c == 6 then 1024 else if c == 7 then 2048 else if c == 8 then 4096
    else if c == 9 then 8192 else 16384
  }

  /** The sizes are the entries of `alloc_size_table`. */
  lemma SizeTable(c: nat)
    requires c < Classes
    ensures Classes == 11 && SizeOf(c) == [4, 8, 16, 32, 64, 256, 1024, 2048, 4096, 8192, 16384][c]
  {
  }

  /** The first class from `c` on that fits. */
  function ClassFrom(size: nat, c: nat): (r: nat)
    requires c <= Classes
    ensures c <= r <= Classes && (r < Classes ==> size <= SizeOf(r))
    ensures forall d :: c <= d < r ==> SizeOf(d) < size
    decreases Classes - c
  {
    if c == Classes || size <= SizeOf(c) then c else ClassFrom(size, c + 1)
  }

  /** The capacity of a block allocated for `size` bytes. */
  function Granted(size: nat): (cap: nat)
    ensures size <= cap && (if size > 16384 then cap == size else cap <= 16384)
    ensures forall c :: 0 <= c < Classes && size <= SizeOf(c) ==> cap <= SizeOf(c)
    ensures size <= 16384 ==> exists c :: 0 <= c < Classes && cap == SizeOf(c)
  {
    var c := ClassFrom(size, 0);
    if c < Classes then SizeOf(c) else size
  }

  /** A block of a class size goes to that class, and a block from `malloc` has no class: so the capacity
      alone says where a block belongs. */
  lemma GrantedClass(size: nat, c: nat)
    requires c < Classes
    ensures Granted(size) == SizeOf(c) <==> ClassFrom(size, 0) == c
  {
    var r := ClassFrom(size, 0);
    if r < Classes {
      if SizeOf(r) == SizeOf(c) {
        SizesDiffer(r, c);
      }
    } else {
      assert SizeOf(c) < size;
    }
  }

  /** No two classes have the same size. */
  lemma SizesDiffer(c: nat, d: nat)
    requires c < Classes && d < Classes && SizeOf(c) == SizeOf(d)
    ensures c == d
  {
  }

  const FreeThreshold: nat := 4096

  function Min(a: nat, b: nat): nat {
    if a < b then a else b
  }

  function One(b: bool): nat {
    if b then 1 else 0
  }

  // ---------------------------------------------------------------- counting owners

  function Owners(buffers: map<nat, Buffer>, b: nat): set<nat> {
    set k | k in buffers && buffers[k].block == At(b)
  }

  function Count(buffers: map<nat, Buffer>, b: nat): nat {
    |Owners(buffers, b)|
  }

  function Holds(buffers: map<nat, Buffer>, k: nat, b: nat): bool {
    k in buffers && buffers[k].block == At(b)
  }

  lemma CountUpdate(buffers: map<nat, Buffer>, k: nat, v: Buffer, b: nat)
    ensures Count(buffers[k := v], b) == Count(buffers, b) - One(Holds(buffers, k, b)) + One(v.block == At(b))
  {
    var old', new' := Owners(buffers, b), Owners(buffers[k := v], b);
    if v.block == At(b) {
      assert new' == old' + {k};
    } else {
      assert new' == old' - {k};
    }
  }

  lemma CountRemove(buffers: map<nat, Buffer>, k: nat, b: nat)
    ensures Count(buffers - {k}, b) == Count(buffers, b) - One(Holds(buffers, k, b))
  {
    assert Owners(buffers - {k}, b) == Owners(buffers, b) - {k};
  }

  lemma {:induction false} SubsetSize(a: set<nat>, b: set<nat>)
    requires a <= b
    ensures |a| <= |b|
  {
    if a != {} {
      var x :| x in a;
      SubsetSize(a - {x}, b - {x});
    }
  }

  lemma CountOwner(buffers: map<nat, Buffer>, k: nat, b: nat)
    requires Holds(buffers, k, b)
    ensures Count(buffers, b) >= 1
    ensures Count(buffers, b) == 1 ==> forall j :: Holds(buffers, j, b) ==> j == k
  {
    assert k in Owners(buffers, b);
    if Count(buffers, b) == 1 {
      forall j | Holds(buffers, j, b) ensures j == k {
        assert {j, k} <= Owners(buffers, b);
        if j != k {
          assert |{j, k}| == 2;
          SubsetSize({j, k}, Owners(buffers, b));
        }
      }
    }
  }

  // ---------------------------------------------------------------- invariant

  function RefsOf(blocks: map<nat, Block>, b: nat): nat {
    if b in blocks then blocks[b].refs else 0
  }

  /** Every count is the number of buffers holding the block, plus handles on the stack. */
  ghost predicate RefsOk(blocks: map<nat, Block>, buffers: map<nat, Buffer>, held: multiset<nat>) {
    forall b: nat :: RefsOf(blocks, b) == Count(buffers, b) + held[b]
  }

  ghost predicate Distinct(q: seq<nat>) {
    forall i, j :: 0 <= i < j < |q| ==> q[i] != q[j]
  }

  /** Pool `c` holds unreferenced blocks of its own size, each once. */
  ghost predicate PoolOk(blocks: map<nat, Block>, pool: seq<nat>, size: nat) {
    && (forall i :: 0 <= i < |pool| ==> pool[i] in blocks && blocks[pool[i]].refs == 0 && blocks[pool[i]].capacity == size)
    && Distinct(pool)
    && |pool| <= FreeThreshold + 1
  }

  predicate Idle(blocks: map<nat, Block>, b: nat) {
    b in blocks && blocks[b].refs == 0
  }

  ghost predicate Pooled(pools: seq<seq<nat>>, b: nat) {
    exists c :: 0 <= c < |pools| && b in pools[c]
  }

  /** The pools are in order, and a block that nobody references is in one of them. */
  ghost predicate PoolsOk(blocks: map<nat, Block>, pools: seq<seq<nat>>) {
    && |pools| == Classes
    && (forall c :: 0 <= c < |pools| ==> PoolOk(blocks, pools[c], SizeOf(c)))
    && (forall b :: Idle(blocks, b) ==> Pooled(pools, b))
  }

  ghost predicate BlocksOk(blocks: map<nat, Block>, nextBlock: nat) {
    forall b :: b in blocks ==> |blocks[b].data| == blocks[b].capacity && b < nextBlock
  }

  /** Each time a block was handed out it has come back exactly once, or is still in use. */
  ghost predicate LivesOk(blocks: map<nat, Block>, taken: multiset<nat>, returned: multiset<nat>) {
    forall b: nat :: taken[b] == returned[b] + One(RefsOf(blocks, b) > 0)
  }

  function CapacityOf(blocks: map<nat, Block>, h: Handle): nat {
    if h.At? && h.b in blocks then blocks[h.b].capacity else 0
  }

  /** The cursors of every buffer are in order and inside its block. */
  ghost predicate CursorsOk(blocks: map<nat, Block>, buffers: map<nat, Buffer>, nextBuffer: nat) {
    forall k :: k in buffers ==> buffers[k].read <= buffers[k].write <= CapacityOf(blocks, buffers[k].block) && k < nextBuffer
  }

  /** The bytes a buffer stands for. */
  function ContentOf(blocks: map<nat, Block>, x: Buffer): seq<Byte> {
    if x.block.At? && x.block.b in blocks && x.read <= x.write <= |blocks[x.block.b].data|
    then blocks[x.block.b].data[x.read..x.write] else []
  }

  /** A step that leaves a referenced block alone but for its count. */
  ghost predicate SameBytes(blocks: map<nat, Block>, blocks': map<nat, Block>, b: nat) {
    b in blocks && b in blocks' && blocks'[b].data == blocks[b].data && blocks'[b].capacity == blocks[b].capacity
  }

  /** Buffers outside `ks` are untouched and read the same. */
  ghost predicate Spared(blocks: map<nat, Block>, buffers: map<nat, Buffer>, blocks': map<nat, Block>, buffers': map<nat, Buffer>, ks: set<nat>) {
    forall k :: k in buffers && k !in ks ==>
      k in buffers' && buffers'[k] == buffers[k] && ContentOf(blocks', buffers'[k]) == ContentOf(blocks, buffers[k])
  }

  lemma SparedUpdate(blocks: map<nat, Block>, buffers: map<nat, Buffer>, blocks': map<nat, Block>, k: nat, x: Buffer)
    requires Spared(blocks, buffers, blocks', buffers[k := Nothing], {k})
    ensures Spared(blocks, buffers, blocks', buffers[k := x], {k})
    ensures buffers[k := Nothing][k := x] == buffers[k := x]
  {
    forall j | j in buffers && j != k
      ensures j in buffers[k := x] && buffers[k := x][j] == buffers[j] && ContentOf(blocks', buffers[k := x][j]) == ContentOf(blocks, buffers[j])
    {
      assert buffers[k := Nothing][j] == buffers[j];
    }
  }

  lemma SparedTrans(blocks: map<nat, Block>, buffers: map<nat, Buffer>, blocks1: map<nat, Block>, buffers1: map<nat, Buffer>,
                    blocks2: map<nat, Block>, buffers2: map<nat, Buffer>, ks: set<nat>)
    requires Spared(blocks, buffers, blocks1, buffers1, ks) && Spared(blocks1, buffers1, blocks2, buffers2, ks)
    ensures Spared(blocks, buffers, blocks2, buffers2, ks)
  {
  }

  // ---------------------------------------------------------------- pools

  lemma PoolPop(blocks: map<nat, Block>, pools: seq<seq<nat>>, c: nat, x: Block)
    requires PoolsOk(blocks, pools) && c < |pools| && pools[c] != [] && x.refs > 0
    ensures var p := pools[c]; var b := p[|p|-1];
            b in blocks && blocks[b].refs == 0 && blocks[b].capacity == SizeOf(c) && PoolsOk(blocks[b := x], pools[c := p[..|p|-1]])
  {
    var p := pools[c];
    var b := p[|p|-1];
    assert PoolOk(blocks, p, SizeOf(c));
    var pools', blocks' := pools[c := p[..|p|-1]], blocks[b := x];
    forall d | 0 <= d < |pools'| ensures PoolOk(blocks', pools'[d], SizeOf(d)) {
      assert PoolOk(blocks, pools[d], SizeOf(d));
      assert d != c ==> SizeOf(d) != SizeOf(c);
    }
    forall k | Idle(blocks', k) ensures Pooled(pools', k) {
      assert k != b ==> Idle(blocks, k);
      var d :| 0 <= d < |pools| && k in pools[d];
      assert k in pools'[d];
    }
  }

  lemma PoolPush(blocks: map<nat, Block>, pools: seq<seq<nat>>, c: nat, b: nat)
    requires PoolsOk(blocks, pools) && c < |pools| && |pools[c]| <= FreeThreshold
    requires b in blocks && blocks[b].refs > 0 && blocks[b].capacity == SizeOf(c)
    ensures PoolsOk(blocks[b := blocks[b].(refs := 0)], pools[c := pools[c] + [b]])
  {
    var pools', blocks' := pools[c := pools[c] + [b]], blocks[b := blocks[b].(refs := 0)];
    forall d | 0 <= d < |pools'| ensures PoolOk(blocks', pools'[d], SizeOf(d)) {
      assert PoolOk(blocks, pools[d], SizeOf(d));
    }
    forall k | Idle(blocks', k) ensures Pooled(pools', k) {
      assert k != b ==> Idle(blocks, k);
      if k == b {
        assert k in pools'[c];
      } else {
        var d :| 0 <= d < |pools| && k in pools[d];
        assert k in pools'[d];
      }
    }
  }

  /** Changes to blocks in use do not concern the pools. */
  lemma PoolsSame(blocks: map<nat, Block>, blocks': map<nat, Block>, pools: seq<seq<nat>>)
    requires PoolsOk(blocks, pools)
    requires forall b :: b in blocks && blocks[b].refs == 0 ==> b in blocks' && blocks'[b] == blocks[b]
    requires forall b :: b in blocks' && blocks'[b].refs == 0 ==> b in blocks && blocks[b].refs == 0
    ensures PoolsOk(blocks', pools)
  {
    forall d | 0 <= d < |pools| ensures PoolOk(blocks', pools[d], SizeOf(d)) {
      assert PoolOk(blocks, pools[d], SizeOf(d));
    }
    forall k | Idle(blocks', k) ensures Pooled(pools, k) {
      assert Idle(blocks, k);
    }
  }

  lemma AddFresh(blocks: map<nat, Block>, pools: seq<seq<nat>>, b: nat, x: Block)
    requires BlocksOk(blocks, b) && PoolsOk(blocks, pools) && x.refs == 1 && |x.data| == x.capacity
    ensures BlocksOk(blocks[b := x], b + 1) && PoolsOk(blocks[b := x], pools)
    ensures RefsOf(blocks, b) == 0 && OthersSame(blocks, blocks[b := x], b)
  {
    PoolsSame(blocks, blocks[b := x], pools);
  }

  lemma DropBlock(blocks: map<nat, Block>, pools: seq<seq<nat>>, nextBlock: nat, b: nat)
    requires BlocksOk(blocks, nextBlock) && PoolsOk(blocks, pools) && RefsOf(blocks, b) == 1
    ensures BlocksOk(blocks - {b}, nextBlock) && PoolsOk(blocks - {b}, pools)
    ensures RefsOf(blocks - {b}, b) == 0 && OthersSame(blocks, blocks - {b}, b)
  {
    PoolsSame(blocks, blocks - {b}, pools);
  }

  /** One block's count and one stack handle change together. */
  lemma RefsShift(blocks: map<nat, Block>, buffers: map<nat, Buffer>, held: multiset<nat>, blocks': map<nat, Block>, held': multiset<nat>)
    requires RefsOk(blocks, buffers, held)
    requires forall b: nat :: RefsOf(blocks', b) + held[b] == RefsOf(blocks, b) + held'[b]
    ensures RefsOk(blocks', buffers, held')
  {
    forall b: nat ensures RefsOf(blocks', b) == Count(buffers, b) + held'[b] {
      assert RefsOf(blocks, b) == Count(buffers, b) + held[b];
    }
  }

  lemma SparedBySame(blocks: map<nat, Block>, buffers: map<nat, Buffer>, held: multiset<nat>, blocks': map<nat, Block>, nextBuffer: nat)
    requires RefsOk(blocks, buffers, held) && CursorsOk(blocks, buffers, nextBuffer)
    requires forall b :: b in blocks && Count(buffers, b) > 0 ==> SameBytes(blocks, blocks', b)
    ensures Spared(blocks, buffers, blocks', buffers, {}) && CursorsOk(blocks', buffers, nextBuffer)
  {
    forall k | k in buffers && buffers[k].block.At? ensures SameBytes(blocks, blocks', buffers[k].block.b) {
      CountOwner(buffers, k, buffers[k].block.b);
      assert RefsOf(blocks, buffers[k].block.b) == Count(buffers, buffers[k].block.b) + held[buffers[k].block.b];
    }
  }

  /** Everything but the pools. */
  datatype Snapshot = Snapshot(
    blocks: map<nat, Block>, buffers: map<nat, Buffer>, held: multiset<nat>,
    taken: multiset<nat>, returned: multiset<nat>, nextBuffer: nat)

  ghost predicate Owned(s: Snapshot) {
    && RefsOk(s.blocks, s.buffers, s.held)
    && LivesOk(s.blocks, s.taken, s.returned)
    && CursorsOk(s.blocks, s.buffers, s.nextBuffer)
  }

  ghost predicate OthersSame(blocks: map<nat, Block>, blocks': map<nat, Block>, b: nat) {
    forall x :: x != b ==> (x in blocks' <==> x in blocks) && (x in blocks' ==> blocks'[x] == blocks[x])
  }

  lemma LivesShift(s: Snapshot, s': Snapshot, b: nat)
    requires LivesOk(s.blocks, s.taken, s.returned) && OthersSame(s.blocks, s'.blocks, b)
    requires forall x: nat :: x != b ==> s'.taken[x] == s.taken[x] && s'.returned[x] == s.returned[x]
    requires s'.taken[b] - s.taken[b] + One(RefsOf(s.blocks, b) > 0) == s'.returned[b] - s.returned[b] + One(RefsOf(s'.blocks, b) > 0)
    ensures LivesOk(s'.blocks, s'.taken, s'.returned)
  {
    forall x: nat ensures s'.taken[x] == s'.returned[x] + One(RefsOf(s'.blocks, x) > 0) {
      assert s.taken[x] == s.returned[x] + One(RefsOf(s.blocks, x) > 0);
    }
  }

  /** One block's count and the stack handles to it change alike; the other blocks stay. */
  lemma HeldShift(s: Snapshot, s': Snapshot, b: nat)
    requires Owned(s) && s'.buffers == s.buffers && s'.nextBuffer == s.nextBuffer && OthersSame(s.blocks, s'.blocks, b)
    requires forall x: nat :: x != b ==> s'.held[x] == s.held[x]
    requires RefsOf(s'.blocks, b) + s.held[b] == RefsOf(s.blocks, b) + s'.held[b]
    requires Count(s.buffers, b) > 0 ==> SameBytes(s.blocks, s'.blocks, b)
    ensures RefsOk(s'.blocks, s'.buffers, s'.held) && CursorsOk(s'.blocks, s'.buffers, s'.nextBuffer)
    ensures Spared(s.blocks, s.buffers, s'.blocks, s'.buffers, {})
  {
    RefsShift(s.blocks, s.buffers, s.held, s'.blocks, s'.held);
    SparedBySame(s.blocks, s.buffers, s.held, s'.blocks, s.nextBuffer);
  }

  /** What an allocation changes: block `b` comes into use with one reference, on the stack. */
  ghost predicate Allocated(s: Snapshot, s': Snapshot, b: nat, capacity: nat) {
    && s'.held == s.held + multiset{b} && s'.taken == s.taken + multiset{b} && s'.returned == s.returned
    && s'.buffers == s.buffers && s'.nextBuffer == s.nextBuffer
    && RefsOf(s.blocks, b) == 0 && b in s'.blocks && s'.blocks[b].refs == 1 && s'.blocks[b].capacity == capacity
    && OthersSame(s.blocks, s'.blocks, b)
  }

  /** A pooled block with a new header. */
  function Revived(x: Block, capacity: nat): Block {
    Block(1, capacity, x.data)
  }

  /** Pool `c` is that of the capacity for `size` bytes, and has a block to give. */
  predicate Serves(pools: seq<seq<nat>>, c: nat, size: nat)
    requires c < |pools| == Classes
  {
    SizeOf(c) == Granted(size) && pools[c] != []
  }

  /** The block is the last one of the pool that serves, and leaves it. */
  ghost predicate Popped(pools: seq<seq<nat>>, pools': seq<seq<nat>>, size: nat, b: nat) {
    |pools| == |pools'| == Classes && forall c :: 0 <= c < Classes ==> pools[c] == if SizeOf(c) == Granted(size) then pools'[c] + [b] else pools'[c]
  }

  lemma AllocatedValid(s: Snapshot, s': Snapshot, b: nat, capacity: nat)
    requires Owned(s) && Allocated(s, s', b, capacity)
    ensures Owned(s') && Spared(s.blocks, s.buffers, s'.blocks, s'.buffers, {})
  {
    assert RefsOf(s.blocks, b) == Count(s.buffers, b) + s.held[b];
    HeldShift(s, s', b);
    LivesShift(s, s', b);
  }

  /** What dropping one stack reference changes: other blocks are untouched, and `b` keeps its
      bytes for as long as anyone else refers to it. */
  ghost predicate Freed(s: Snapshot, s': Snapshot, b: nat) {
    && s'.held == s.held - multiset{b} && s'.taken == s.taken
    && s'.returned == s.returned + (if RefsOf(s.blocks, b) == 1 then multiset{b} else multiset{})
    && s'.buffers == s.buffers && s'.nextBuffer == s.nextBuffer
    && RefsOf(s'.blocks, b) + 1 == RefsOf(s.blocks, b)
    && (RefsOf(s.blocks, b) > 1 ==> SameBytes(s.blocks, s'.blocks, b))
    && OthersSame(s.blocks, s'.blocks, b)
  }

  /** Where a block goes with its last reference: to the end of the pool of its size, unless that pool
      is over the threshold; a block without a class, and one turned away, goes back to `malloc`. */
  ghost predicate Returned(blocks: map<nat, Block>, pools: seq<seq<nat>>, blocks': map<nat, Block>, pools': seq<seq<nat>>, b: nat) {
    && b in blocks && |pools| == |pools'| == Classes
    && (forall c :: 0 <= c < Classes ==>
          pools'[c] == if SizeOf(c) == blocks[b].capacity && |pools[c]| <= 4096 then pools[c] + [b] else pools[c])
    && (b in blocks' <==> exists c :: 0 <= c < Classes && SizeOf(c) == blocks[b].capacity && |pools[c]| <= 4096)
  }

  lemma ReturnedToClass(blocks: map<nat, Block>, pools: seq<seq<nat>>, blocks': map<nat, Block>, pools': seq<seq<nat>>, c: nat, b: nat)
    requires b in blocks && |pools| == Classes && c < Classes && SizeOf(c) == blocks[b].capacity
    requires if |pools[c]| > FreeThreshold then pools' == pools && b !in blocks' else pools' == pools[c := pools[c] + [b]] && b in blocks'
    ensures Returned(blocks, pools, blocks', pools', b)
  {
    forall d: nat | d < Classes && SizeOf(d) == blocks[b].capacity ensures d == c {
      SizesDiffer(c, d);
    }
  }

  lemma FreedValid(s: Snapshot, s': Snapshot, b: nat)
    requires Owned(s) && b in s.held && Freed(s, s', b)
    ensures Owned(s') && Spared(s.blocks, s.buffers, s'.blocks, s'.buffers, {})
  {
    assert RefsOf(s.blocks, b) == Count(s.buffers, b) + s.held[b];
    HeldShift(s, s', b);
    LivesShift(s, s', b);
  }

  /** One reference less to a block that has more. */
  function Lessened(blocks: map<nat, Block>, b: nat): map<nat, Block>
    requires RefsOf(blocks, b) > 1
  {
    blocks[b := blocks[b].(refs := blocks[b].refs - 1)]
  }

  lemma SharedOk(s: Snapshot, nextBlock: nat, pools: seq<seq<nat>>, b: nat)
    requires Owned(s) && BlocksOk(s.blocks, nextBlock) && PoolsOk(s.blocks, pools) && b in s.held && RefsOf(s.blocks, b) > 1
    ensures var m := Lessened(s.blocks, b);
            var s' := s.(blocks := m, held := s.held - multiset{b});
            Owned(s') && BlocksOk(m, nextBlock) && PoolsOk(m, pools) && Freed(s, s', b)
  {
    var m := Lessened(s.blocks, b);
    PoolsSame(s.blocks, m, pools);
    FreedValid(s, s.(blocks := m, held := s.held - multiset{b}), b);
  }

  /** The last reference goes, and the block with it. */
  ghost function Discarded(s: Snapshot, b: nat): Snapshot {
    s.(blocks := s.blocks - {b}, held := s.held - multiset{b}, returned := s.returned + multiset{b})
  }

  lemma DiscardedOk(s: Snapshot, nextBlock: nat, pools: seq<seq<nat>>, b: nat)
    requires Owned(s) && BlocksOk(s.blocks, nextBlock) && PoolsOk(s.blocks, pools) && b in s.held && RefsOf(s.blocks, b) == 1
    ensures var s' := Discarded(s, b);
            Owned(s') && BlocksOk(s'.blocks, nextBlock) && PoolsOk(s'.blocks, pools) && Freed(s, s', b)
  {
    DropBlock(s.blocks, pools, nextBlock, b);
    FreedValid(s, Discarded(s, b), b);
  }

  // ---------------------------------------------------------------- handles in buffers

  lemma DuplicatedOk(s: Snapshot, nextBlock: nat, pools: seq<seq<nat>>, b: nat)
    requires Owned(s) && BlocksOk(s.blocks, nextBlock) && PoolsOk(s.blocks, pools) && RefsOf(s.blocks, b) > 0
    ensures var m := s.blocks[b := s.blocks[b].(refs := s.blocks[b].refs + 1)];
            && Owned(s.(blocks := m, held := s.held + multiset{b})) && BlocksOk(m, nextBlock) && PoolsOk(m, pools)
            && Spared(s.blocks, s.buffers, m, s.buffers, {})
  {
    var m := s.blocks[b := s.blocks[b].(refs := s.blocks[b].refs + 1)];
    PoolsSame(s.blocks, m, pools);
    RefsShift(s.blocks, s.buffers, s.held, m, s.held + multiset{b});
    SparedBySame(s.blocks, s.buffers, s.held, m, s.nextBuffer);
  }

  const Nothing := Buffer(Null, 0, 0)

  /** A buffer lets go of its handle, which is then on the stack. */
  function Detached(s: Snapshot, k: nat): Snapshot
    requires k in s.buffers
  {
    s.(buffers := s.buffers[k := Nothing],
       held := if s.buffers[k].block.At? then s.held + multiset{s.buffers[k].block.b} else s.held)
  }

  lemma DetachedOk(s: Snapshot, k: nat)
    requires Owned(s) && k in s.buffers
    ensures Owned(Detached(s, k))
  {
    var s' := Detached(s, k);
    forall b: nat ensures RefsOf(s'.blocks, b) == Count(s'.buffers, b) + s'.held[b] {
      assert RefsOf(s.blocks, b) == Count(s.buffers, b) + s.held[b];
      CountUpdate(s.buffers, k, Nothing, b);
    }
  }

  /** A handle on the stack is stored in a buffer that has none. */
  function Attached(s: Snapshot, k: nat, x: Buffer): Snapshot {
    s.(buffers := s.buffers[k := x],
       held := if x.block.At? then s.held - multiset{x.block.b} else s.held,
       nextBuffer := if k < s.nextBuffer then s.nextBuffer else k + 1)
  }

  lemma AttachedOk(s: Snapshot, k: nat, x: Buffer)
    requires Owned(s) && (k in s.buffers ==> s.buffers[k].block.Null?) && (x.block.At? ==> x.block.b in s.held)
    requires x.read <= x.write <= CapacityOf(s.blocks, x.block)
    ensures Owned(Attached(s, k, x))
  {
    var s' := Attached(s, k, x);
    forall b: nat ensures RefsOf(s'.blocks, b) == Count(s'.buffers, b) + s'.held[b] {
      assert RefsOf(s.blocks, b) == Count(s.buffers, b) + s.held[b];
      CountUpdate(s.buffers, k, x, b);
    }
  }

  lemma RemovedOk(s: Snapshot, k: nat)
    requires Owned(s) && k in s.buffers && s.buffers[k].block.Null?
    ensures Owned(s.(buffers := s.buffers - {k}))
  {
    forall b: nat ensures RefsOf(s.blocks, b) == Count(s.buffers - {k}, b) + s.held[b] {
      assert RefsOf(s.blocks, b) == Count(s.buffers, b) + s.held[b];
      CountRemove(s.buffers, k, b);
    }
  }

  lemma SwapOk(s: Snapshot, k: nat, r: nat)
    requires Owned(s) && k in s.buffers && r in s.buffers
    ensures Owned(s.(buffers := s.buffers[k := s.buffers[r]][r := s.buffers[k]]))
  {
    var q := s.buffers[k := s.buffers[r]];
    forall b: nat ensures RefsOf(s.blocks, b) == Count(q[r := s.buffers[k]], b) + s.held[b] {
      assert RefsOf(s.blocks, b) == Count(s.buffers, b) + s.held[b];
      CountUpdate(s.buffers, k, s.buffers[r], b);
      CountUpdate(q, r, s.buffers[k], b);
    }
  }

  /** No other buffer has the block of `k`. */
  ghost predicate Sole(buffers: map<nat, Buffer>, k: nat) {
    k in buffers && forall j :: j in buffers && j != k && buffers[j].block.At? ==> buffers[j].block != buffers[k].block
  }

  lemma SoleUpdate(buffers: map<nat, Buffer>, k: nat, x: Buffer)
    requires x.block.At? && Count(buffers, x.block.b) == One(Holds(buffers, k, x.block.b))
    ensures Sole(buffers[k := x], k)
  {
    forall j | Holds(buffers, j, x.block.b) && j != k ensures false {
      CountOwner(buffers, j, x.block.b);
    }
    var q := buffers[k := x];
    forall j | j in q && j != k && q[j].block.At? ensures q[j].block != x.block {
      assert !Holds(buffers, j, x.block.b);
    }
  }

  /** A buffer is the sole owner of its block exactly when one buffer holds it. */
  lemma SoleCount(buffers: map<nat, Buffer>, k: nat)
    requires k in buffers && buffers[k].block.At?
    ensures Sole(buffers, k) <==> Count(buffers, buffers[k].block.b) == 1
  {
    var b := buffers[k].block.b;
    CountOwner(buffers, k, b);
    if Sole(buffers, k) {
      assert Owners(buffers, b) == {k};
    } else {
      var j :| j in buffers && j != k && buffers[j].block.At? && buffers[j].block == buffers[k].block;
      assert Holds(buffers, j, b);
    }
  }

  /** `reserve` has nothing to do: nobody shares the block and it has more room than asked for. */
  ghost predicate Keeps(blocks: map<nat, Block>, buffers: map<nat, Buffer>, k: nat, sz: nat) {
    k in buffers && buffers[k].block.At? && Sole(buffers, k) && sz < Int32.Cast(CapacityOf(blocks, buffers[k].block))
  }

  // ---------------------------------------------------------------- bytes and cursors

  /** `memcpy` of `src` to position `at`. */
  function Overwrite(data: seq<Byte>, at: nat, src: seq<Byte>): (r: seq<Byte>)
    requires at + |src| <= |data|
    ensures |r| == |data| && r[at..at + |src|] == src
    ensures forall i :: 0 <= i < |data| && !(at <= i < at + |src|) ==> r[i] == data[i]
  {
    data[..at] + src + data[at + |src|..]
  }

  lemma OverwriteBefore(data: seq<Byte>, at: nat, src: seq<Byte>, from: nat, to: nat)
    requires at + |src| <= |data| && from <= to <= at
    ensures Overwrite(data, at, src)[from..to] == data[from..to]
    ensures Overwrite(data, at, src)[from..at + |src|] == data[from..at] + src
  {
    var r := Overwrite(data, at, src);
    assert r[from..at + |src|] == r[from..at] + r[at..at + |src|];
  }

  function MinInt(a: int, b: int): int {
    if a < b then a else b
  }

  function MaxInt(a: int, b: int): int {
    if a > b then a else b
  }

  /** `wr_ptr(move)`: how far the write cursor really moves. */
  function WriteMove(x: Buffer, capacity: nat, move: int): int
    requires x.read <= x.write <= capacity
  {
    if move >= 0 then MinInt(move, Int32.Cast(capacity - x.write)) else MaxInt(move, -Int32.Cast(x.write - x.read))
  }

  /** `rd_ptr(move)`. */
  function ReadMove(x: Buffer, move: int): int
    requires x.read <= x.write
  {
    if move >= 0 then MinInt(move, Int32.Cast(x.write - x.read)) else MaxInt(move, -Int32.Cast(x.read))
  }

  predicate InOrder(read: int, write: int, capacity: int) {
    0 <= read <= write <= capacity
  }

  ghost predicate MovesSafe(x: Buffer, capacity: nat)
    requires x.read <= x.write <= capacity
  {
    forall move: int :: InOrder(x.read, x.write + WriteMove(x, capacity, move), capacity) && InOrder(x.read + ReadMove(x, move), x.write, capacity)
  }

  ghost predicate AllMovesSafe(capacity: nat) {
    forall x: Buffer :: x.read <= x.write <= capacity ==> MovesSafe(x, capacity)
  }

  /** Both cursor moves keep the cursors in order, from every position and for every distance,
      exactly when the capacity fits a signed 32-bit integer. */
  lemma CursorMoves(capacity: nat)
    ensures AllMovesSafe(capacity) <==> capacity < Int32.Limit
  {
    if capacity >= Int32.Limit {
      var at := capacity - Int32.Limit;
      var x := Buffer(Null, at, at);
      assert Int32.Cast(capacity - x.write) == -Int32.Limit;
      assert WriteMove(x, capacity, 0) < 0;
      assert !MovesSafe(x, capacity);
    }
  }

  /** A call of `wr_ptr` or `rd_ptr`. */
  datatype CursorMove = OnWrite(move: int) | OnRead(move: int)

  /** The cursors stay in order through a sequence of moves. */
  ghost predicate Survives(x: Buffer, capacity: nat, moves: seq<CursorMove>)
    requires x.read <= x.write <= capacity
    decreases |moves|
  {
    moves == [] ||
    match moves[0]
    case OnWrite(move) =>
      var write := x.write + WriteMove(x, capacity, move);
      if InOrder(x.read, write, capacity) then Survives(Buffer(x.block, x.read, write), capacity, moves[1..]) else false
    case OnRead(move) =>
      var read := x.read + ReadMove(x, move);
      if InOrder(read, x.write, capacity) then Survives(Buffer(x.block, read, x.write), capacity, moves[1..]) else false
  }

  /** From a fresh buffer the exact condition is weaker, since not all positions are reached: every sequence of
      moves is safe if and only if the capacity, cast, is not negative. The buffer then behaves
      as if the cast were its capacity. */
  lemma FreshMoves(capacity: nat)
    ensures (forall moves: seq<CursorMove> :: Survives(Nothing, capacity, moves)) <==> Int32.Cast(capacity) >= 0
  {
    if Int32.Cast(capacity) >= 0 {
      forall moves: seq<CursorMove> ensures Survives(Nothing, capacity, moves) {
        Int32.CastMinus(capacity, 0);
        SafeMoves(Nothing, capacity, moves);
      }
    } else {
      FirstMove(capacity);
    }
  }

  /** Otherwise a move by nothing at all breaks it. */
  lemma FirstMove(capacity: nat)
    requires Int32.Cast(capacity) < 0
    ensures !Survives(Nothing, capacity, [OnWrite(0)])
  {
    assert WriteMove(Nothing, capacity, 0) < 0;
  }

  /** The first failing capacity is 2^31, and a buffer created with that size has it. */
  lemma FirstFailure()
    ensures Int32.Cast(Int32.Limit) < 0 && Granted(Int32.Limit) == Int32.Limit
    ensures !Survives(Nothing, Granted(Int32.Limit), [OnWrite(0)])
  {
    FirstMove(Int32.Limit);
  }

  lemma {:induction false} SafeMoves(x: Buffer, capacity: nat, moves: seq<CursorMove>)
    requires x.read <= x.write <= Int32.Cast(capacity) && x.write <= capacity
    ensures Survives(x, capacity, moves)
    decreases |moves|
  {
    if moves != [] {
      Int32.CastMinus(capacity, 0);
      match moves[0]
      case OnWrite(move) =>
        MoveRange(x, capacity, move);
        SafeMoves(Buffer(x.block, x.read, x.write + WriteMove(x, capacity, move)), capacity, moves[1..]);
      case OnRead(move) =>
        MoveRange(x, capacity, move);
        SafeMoves(Buffer(x.block, x.read + ReadMove(x, move), x.write), capacity, moves[1..]);
    }
  }

  /** What the moves are, up to the cast of the capacity. */
  lemma MoveRange(x: Buffer, capacity: nat, move: int)
    requires x.read <= x.write <= Int32.Cast(capacity) && x.write <= capacity
    ensures Int32.Cast(capacity) <= capacity
    ensures WriteMove(x, capacity, move) == if move >= 0 then MinInt(move, Int32.Cast(capacity) - x.write) else MaxInt(move, x.read - x.write)
    ensures ReadMove(x, move) == if move >= 0 then MinInt(move, x.write - x.read) else MaxInt(move, 0 - x.read)
  {
    Int32.CastMinus(capacity, x.write);
    Int32.CastMinus(capacity, Int32.Cast(capacity));
  }

  /** `wr_ptr` where the casts are harmless. */
  method WriteDistance(x: Buffer, capacity: nat, move: int) returns (moved: int)
    requires x.read <= x.write <= Int32.Cast(capacity) && x.write <= capacity
    ensures moved == if move >= 0 then MinInt(move, Int32.Cast(capacity) - x.write) else MaxInt(move, x.read - x.write)
  {
    MoveRange(x, capacity, move);
    moved := WriteMove(x, capacity, move);
  }

  /** `wr_ptr` past bytes just written. */
  method WrittenDistance(x: Buffer, capacity: nat, n: nat) returns (moved: int)
    requires x.read <= x.write && x.write + n <= capacity && capacity - x.write < Int32.Limit
    ensures moved == n
  {
    moved := WriteMove(x, capacity, Int32.Cast(n));
  }

  /** `rd_ptr`, forwards over at most the content or backwards over at most what was read. */
  method ReadDistance(x: Buffer, move: int) returns (moved: int)
    requires x.read <= x.write && (if move >= 0 then x.write - x.read < Int32.Limit else x.read < Int32.Limit)
    ensures moved == if move >= 0 then MinInt(move, x.write - x.read) else MaxInt(move, 0 - x.read)
  {
    moved := ReadMove(x, move);
  }

  /** `rd_ptr` past bytes just read. */
  method ConsumedDistance(x: Buffer, n: nat) returns (moved: int)
    requires x.read + n <= x.write && x.write - x.read < Int32.Limit
    ensures moved == n
  {
    moved := ReadMove(x, Int32.Cast(n));
  }

  /** The buffers that an append to `k` can show through to: those sharing its block with a write
      cursor beyond that of `k`. */
  function Exposed(buffers: map<nat, Buffer>, k: nat): set<nat>
    requires k in buffers
  {
    set j | j in buffers && (j == k || (buffers[j].block.At? && buffers[j].block == buffers[k].block && buffers[j].write > buffers[k].write))
  }

  function Sharers(buffers: map<nat, Buffer>, k: nat): set<nat>
    requires k in buffers
  {
    set j | j in buffers && (j == k || (buffers[j].block.At? && buffers[j].block == buffers[k].block))
  }

  function Poked(blocks: map<nat, Block>, b: nat, at: nat, src: seq<Byte>): map<nat, Block>
    requires b in blocks && at + |src| <= |blocks[b].data|
  {
    blocks[b := blocks[b].(data := Overwrite(blocks[b].data, at, src))]
  }

  lemma PokedOk(s: Snapshot, nextBlock: nat, pools: seq<seq<nat>>, b: nat, at: nat, src: seq<Byte>)
    requires Owned(s) && BlocksOk(s.blocks, nextBlock) && PoolsOk(s.blocks, pools)
    requires RefsOf(s.blocks, b) > 0 && at + |src| <= |s.blocks[b].data|
    ensures var m := Poked(s.blocks, b, at, src);
            Owned(s.(blocks := m)) && BlocksOk(m, nextBlock) && PoolsOk(m, pools)
  {
    var m := Poked(s.blocks, b, at, src);
    PoolsSame(s.blocks, m, pools);
    RefsShift(s.blocks, s.buffers, s.held, m, s.held);
    forall x: nat ensures RefsOf(m, x) == RefsOf(s.blocks, x) {
    }
  }

  /** Bytes put at the write cursor extend the content. */
  lemma WriteContent(blocks: map<nat, Block>, x: Buffer, src: seq<Byte>)
    requires x.block.At? && x.block.b in blocks && x.read <= x.write && x.write + |src| <= |blocks[x.block.b].data|
    ensures var m := Poked(blocks, x.block.b, x.write, src);
            ContentOf(m, x.(write := x.write + |src|)) == ContentOf(blocks, x) + src && forall h :: CapacityOf(m, h) == CapacityOf(blocks, h)
  {
    OverwriteBefore(blocks[x.block.b].data, x.write, src, x.read, x.write);
  }

  /** The effect of an append: the content grows by `src`, the capacity is the same, and a buffer that
      shares the block without having written past this one's cursor sees no change. */
  ghost predicate Appended(blocks: map<nat, Block>, buffers: map<nat, Buffer>, blocks': map<nat, Block>, buffers': map<nat, Buffer>, k: nat, src: seq<Byte>) {
    && k in buffers && buffers' == buffers[k := Wrote(buffers[k], |src|)]
    && ContentOf(blocks', buffers'[k]) == ContentOf(blocks, buffers[k]) + src
    && (forall h :: CapacityOf(blocks', h) == CapacityOf(blocks, h))
    && Spared(blocks, buffers, blocks', buffers', Exposed(buffers, k))
  }

  /** An append shows in no buffer but the exposed ones. */
  lemma WriteSpares(blocks: map<nat, Block>, buffers: map<nat, Buffer>, blocks': map<nat, Block>, buffers': map<nat, Buffer>, k: nat, src: seq<Byte>)
    requires k in buffers
    requires forall j :: j in buffers && j != k ==> j in buffers' && buffers'[j] == buffers[j]
    requires if buffers[k].block.At? then
               var b := buffers[k].block.b;
               && b in blocks && buffers[k].write + |src| <= |blocks[b].data|
               && blocks' == Poked(blocks, b, buffers[k].write, src)
             else blocks' == blocks
    ensures Spared(blocks, buffers, blocks', buffers', Exposed(buffers, k))
  {
    forall j | j in buffers && j !in Exposed(buffers, k) ensures ContentOf(blocks', buffers'[j]) == ContentOf(blocks, buffers[j]) {
      var x := buffers[j];
      if x.block.At? && x.block == buffers[k].block && x.read <= x.write {
        OverwriteBefore(blocks[x.block.b].data, buffers[k].write, src, x.read, x.write);
      }
    }
  }

  lemma SeekOk(s: Snapshot, k: nat, x: Buffer)
    requires Owned(s) && k in s.buffers && x.block == s.buffers[k].block && x.read <= x.write <= CapacityOf(s.blocks, x.block)
    ensures Owned(s.(buffers := s.buffers[k := x]))
  {
    forall b: nat ensures RefsOf(s.blocks, b) == Count(s.buffers[k := x], b) + s.held[b] {
      assert RefsOf(s.blocks, b) == Count(s.buffers, b) + s.held[b];
      CountUpdate(s.buffers, k, x, b);
    }
  }

  lemma PlacedOk(s: Snapshot, k: nat, read: nat, write: nat)
    requires Owned(s) && k in s.buffers && read <= write <= CapacityOf(s.blocks, s.buffers[k].block)
    ensures Owned(s.(buffers := Placed(s.buffers, k, read, write)))
  {
    SeekOk(s, k, Buffer(s.buffers[k].block, read, write));
  }

  lemma HandleInUse(s: Snapshot, k: nat)
    requires Owned(s) && k in s.buffers && s.buffers[k].block.At?
    ensures RefsOf(s.blocks, s.buffers[k].block.b) > 0
  {
    var b := s.buffers[k].block.b;
    CountOwner(s.buffers, k, b);
    assert RefsOf(s.blocks, b) == Count(s.buffers, b) + s.held[b];
  }

  /** Buffer `k` keeps its block and gets other cursors. */
  function Placed(buffers: map<nat, Buffer>, k: nat, read: nat, write: nat): map<nat, Buffer>
    requires k in buffers
  {
    buffers[k := Buffer(buffers[k].block, read, write)]
  }

  function Wrote(x: Buffer, n: nat): Buffer {
    x.(write := x.write + n)
  }

  /** The memory after an append to `x`. */
  function Extended(blocks: map<nat, Block>, x: Buffer, src: seq<Byte>): map<nat, Block> {
    if x.block.At? && x.block.b in blocks && x.write + |src| <= |blocks[x.block.b].data|
    then Poked(blocks, x.block.b, x.write, src) else blocks
  }

  lemma AppendOk(s: Snapshot, nextBlock: nat, pools: seq<seq<nat>>, k: nat, src: seq<Byte>)
    requires Owned(s) && BlocksOk(s.blocks, nextBlock) && PoolsOk(s.blocks, pools)
    requires k in s.buffers && s.buffers[k].write + |src| <= CapacityOf(s.blocks, s.buffers[k].block)
    ensures var x := s.buffers[k];
            var m := Extended(s.blocks, x, src);
            Owned(s.(blocks := m, buffers := s.buffers[k := Wrote(x, |src|)])) && BlocksOk(m, nextBlock) && PoolsOk(m, pools)
  {
    var x := s.buffers[k];
    var m := Extended(s.blocks, x, src);
    if x.block.At? {
      HandleInUse(s, k);
      PokedOk(s, nextBlock, pools, x.block.b, x.write, src);
    }
    assert CapacityOf(m, x.block) == CapacityOf(s.blocks, x.block);
    SeekOk(s.(blocks := m), k, Wrote(x, |src|));
  }

  lemma AppendEffect(s: Snapshot, nextBlock: nat, k: nat, src: seq<Byte>)
    requires Owned(s) && BlocksOk(s.blocks, nextBlock)
    requires k in s.buffers && s.buffers[k].write + |src| <= CapacityOf(s.blocks, s.buffers[k].block)
    ensures var x := s.buffers[k];
            Appended(s.blocks, s.buffers, Extended(s.blocks, x, src), s.buffers[k := Wrote(x, |src|)], k, src)
  {
    var x := s.buffers[k];
    if x.block.At? {
      HandleInUse(s, k);
      WriteContent(s.blocks, x, src);
    }
    WriteSpares(s.blocks, s.buffers, Extended(s.blocks, x, src), s.buffers[k := Wrote(x, |src|)], k, src);
  }

  /** A block that starts with the same bytes shows the same content. */
  lemma PrefixContent(blocks: map<nat, Block>, x: Buffer, blocks': map<nat, Block>, b: nat)
    requires x.block.At? && x.block.b in blocks && b in blocks' && blocks[x.block.b].data <= blocks'[b].data
    requires x.read <= x.write <= |blocks[x.block.b].data|
    ensures ContentOf(blocks', Buffer(At(b), x.read, x.write)) == ContentOf(blocks, x)
  {
    var d, e := blocks[x.block.b].data, blocks'[b].data;
    assert e[..|d|] == d;
    assert e[x.read..x.write] == e[..|d|][x.read..x.write];
  }

  lemma ContentLength(s: Snapshot, nextBlock: nat, k: nat)
    requires Owned(s) && BlocksOk(s.blocks, nextBlock) && k in s.buffers
    ensures |ContentOf(s.blocks, s.buffers[k])| == s.buffers[k].write - s.buffers[k].read
  {
    if s.buffers[k].block.At? {
      HandleInUse(s, k);
    }
  }

  /** The memory after moving the content of `x` to the front of its block. */
  function Fitted(blocks: map<nat, Block>, x: Buffer): map<nat, Block> {
    if x.block.At? && x.block.b in blocks then Poked(blocks, x.block.b, 0, ContentOf(blocks, x)) else blocks
  }

  /** Buffer `k` with its cursors moved down to the start of the block. */
  function FittedAt(buffers: map<nat, Buffer>, k: nat): (q: map<nat, Buffer>)
    requires k in buffers
    ensures k in q
  {
    var x := buffers[k];
    if x.read <= x.write then buffers[k := Buffer(x.block, 0, x.write - x.read)] else buffers
  }

  /** It keeps the content, and shows only in the buffers sharing the block. */
  lemma FitEffect(blocks: map<nat, Block>, buffers: map<nat, Buffer>, k: nat)
    requires k in buffers && buffers[k].read <= buffers[k].write <= CapacityOf(blocks, buffers[k].block)
    requires forall b :: b in blocks ==> |blocks[b].data| == blocks[b].capacity
    ensures var m := Fitted(blocks, buffers[k]);
            var q := FittedAt(buffers, k);
            ContentOf(m, q[k]) == ContentOf(blocks, buffers[k]) && Spared(blocks, buffers, m, q, Sharers(buffers, k))
  {
  }

  lemma FitOk(s: Snapshot, nextBlock: nat, pools: seq<seq<nat>>, k: nat)
    requires Owned(s) && BlocksOk(s.blocks, nextBlock) && PoolsOk(s.blocks, pools) && k in s.buffers
    ensures var m := Fitted(s.blocks, s.buffers[k]);
            Owned(s.(blocks := m, buffers := FittedAt(s.buffers, k))) && BlocksOk(m, nextBlock) && PoolsOk(m, pools)
  {
    var x := s.buffers[k];
    if x.block.At? {
      HandleInUse(s, k);
      PokedOk(s, nextBlock, pools, x.block.b, 0, ContentOf(s.blocks, x));
    }
    SeekOk(s.(blocks := Fitted(s.blocks, x)), k, Buffer(x.block, 0, x.write - x.read));
  }

  /** Moving the read cursor over a prefix removes it from the content. */
  lemma ReadContent(blocks: map<nat, Block>, buffers: map<nat, Buffer>, k: nat, out: seq<Byte>)
    requires k in buffers && out <= ContentOf(blocks, buffers[k])
    ensures out + ContentOf(blocks, Placed(buffers, k, buffers[k].read + |out|, buffers[k].write)[k]) == ContentOf(blocks, buffers[k])
  {
  }

  lemma SoleExposed(buffers: map<nat, Buffer>, k: nat)
    requires Sole(buffers, k)
    ensures Exposed(buffers, k) == {k}
  {
  }

  datatype Operation =
    | Make(size: nat) | MakeCopy(r: nat) | MakeMove(r: nat)
    | SetCopy(k: nat, r: nat) | SetMove(k: nat, r: nat) | Exchange(k: nat, r: nat)
    | Grow(k: nat, size: nat) | Shrink(k: nat) | Kill(k: nat)
    | Put(k: nat, src: seq<Byte>) | Get(k: nat, size: nat) | Compact(k: nat)

  class Memory {
    var blocks: map<nat, Block>
    var pools: seq<seq<nat>>
    var buffers: map<nat, Buffer>
    var nextBlock: nat
    var nextBuffer: nat
    ghost var held: multiset<nat>
    ghost var taken: multiset<nat>
    ghost var returned: multiset<nat>

    ghost function Now(): Snapshot
      reads this
    {
      Snapshot(blocks, buffers, held, taken, returned, nextBuffer)
    }

    ghost predicate Valid()
      reads this
    {
      BlocksOk(blocks, nextBlock) && PoolsOk(blocks, pools) && Owned(Now())
    }

    constructor ()
      ensures Valid() && held == multiset{} && blocks == map[] && buffers == map[]
    {
      blocks, buffers, nextBlock, nextBuffer := map[], map[], 0, 0;
      pools := seq(Classes, _ => []);
      held, taken, returned := multiset{}, multiset{}, multiset{};
    }

    /** `malloc`: the bytes are whatever they happen to be. */
    method Malloc(size: nat) returns (data: seq<Byte>)
      ensures |data| == size
    {
      data := *;
      if |data| != size {
        data := seq(size, _ => 0);
      }
    }

    /** The smallest class that fits, or none. */
    method FindClass(size: nat) returns (c: nat)
      ensures c == ClassFrom(size, 0)
    {
      c := 0;
      while c < Classes && SizeOf(c) < size
        invariant c <= Classes && ClassFrom(size, 0) == ClassFrom(size, c)
      {
        c := c + 1;
      }
    }

    /** `fixed_size_allocator::alloc` with a pooled block. */
    method AllocPooled(c: nat) returns (b: nat)
      requires Valid() && c < |pools| && pools[c] != []
      modifies this
      ensures Valid() && Allocated(old(Now()), Now(), b, SizeOf(c))
      ensures old(pools)[c] == pools[c] + [b] && pools == old(pools)[c := pools[c]] && b in old(blocks) && blocks[b].data == old(blocks)[b].data
    {
      var p := pools[c];
      b := p[|p|-1];
      assert PoolOk(blocks, p, SizeOf(c));
      assert p == p[..|p|-1] + [b];
      PoolPop(blocks, pools, c, Revived(blocks[b], SizeOf(c)));
      pools := pools[c := p[..|p|-1]];
      blocks := blocks[b := Revived(blocks[b], SizeOf(c))];
      held := held + multiset{b};
      taken := taken + multiset{b};
      AllocatedValid(old(Now()), Now(), b, SizeOf(c));
    }

    method AllocFresh(capacity: nat) returns (b: nat)
      requires Valid()
      modifies this
      ensures Valid() && Allocated(old(Now()), Now(), b, capacity)
      ensures pools == old(pools) && b !in old(blocks)
    {
      b := nextBlock;
      var data := Malloc(capacity);
      AddFresh(blocks, pools, nextBlock, Block(1, capacity, data));
      nextBlock := nextBlock + 1;
      blocks := blocks[b := Block(1, capacity, data)];
      held := held + multiset{b};
      taken := taken + multiset{b};
      AllocatedValid(old(Now()), Now(), b, capacity);
    }

    /** `block_manager::alloc`. */
    method Alloc(size: nat) returns (b: nat)
      requires Valid()
      modifies this
      ensures Valid() && Allocated(old(Now()), Now(), b, Granted(size)) && |old(pools)| == Classes
      ensures if exists c :: 0 <= c < Classes && Serves(old(pools), c, size) then Popped(old(pools), pools, size, b) else pools == old(pools) && b !in old(blocks)
    {
      var c := FindClass(size);
      forall d: nat | d < Classes ensures SizeOf(d) == Granted(size) <==> d == c {
        GrantedClass(size, d);
      }
      if c < Classes {
        if pools[c] != [] {
          assert Serves(pools, c, size);
          b := AllocPooled(c);
        } else {
          b := AllocFresh(SizeOf(c));
        }
      } else {
        b := AllocFresh(size);
      }
    }

    /** `fixed_size_allocator::free`: the pool takes the block unless it is over its threshold; the
        trimming loop that follows in that case never runs, since the pool is larger than its target. */
    method FreeToPool(c: nat, b: nat)
      requires Valid() && c < |pools| && b in held && b in blocks && blocks[b].refs == 1 && blocks[b].capacity == SizeOf(c)
      modifies this
      ensures Valid() && Freed(old(Now()), Now(), b)
      ensures if |old(pools)[c]| > 4096 then pools == old(pools) && b !in blocks
              else pools == old(pools)[c := old(pools)[c] + [b]] && b in blocks
    {
      if |pools[c]| > FreeThreshold {
        FreeToSystem(b);
      } else {
        PoolPush(blocks, pools, c, b);
        pools := pools[c := pools[c] + [b]];
        blocks := blocks[b := blocks[b].(refs := 0)];
        held := held - multiset{b};
        returned := returned + multiset{b};
        FreedValid(old(Now()), Now(), b);
      }
    }

    /** `std::free`. */
    method FreeToSystem(b: nat)
      requires Valid() && b in held && b in blocks && blocks[b].refs == 1
      modifies this
      ensures Valid() && Freed(old(Now()), Now(), b) && pools == old(pools) && b !in blocks
    {
      DiscardedOk(Now(), nextBlock, pools, b);
      blocks := blocks - {b};
      held := held - multiset{b};
      returned := returned + multiset{b};
      assert Now() == Discarded(old(Now()), b);
      assert Owned(Now());
    }

    /** The last reference goes: the block returns to the class of its capacity, or to `malloc`. */
    method FreeLast(b: nat)
      requires Valid() && b in held && b in blocks && blocks[b].refs == 1
      modifies this
      ensures Valid() && Freed(old(Now()), Now(), b) && Returned(old(blocks), old(pools), blocks, pools, b)
    {
      var c := 0;
      while c < Classes && SizeOf(c) != blocks[b].capacity
        invariant c <= Classes && forall d :: 0 <= d < c ==> SizeOf(d) != blocks[b].capacity
      {
        c := c + 1;
      }
      if c < Classes {
        FreeToPool(c, b);
        ReturnedToClass(old(blocks), old(pools), blocks, pools, c, b);
      } else {
        FreeToSystem(b);
      }
    }

    /** `block_manager::free`. */
    method Free(b: nat)
      requires Valid() && b in held
      modifies this
      ensures Valid() && Freed(old(Now()), Now(), b)
      ensures if RefsOf(old(blocks), b) == 1 then Returned(old(blocks), old(pools), blocks, pools, b) else pools == old(pools)
    {
      assert RefsOf(blocks, b) == Count(buffers, b) + held[b];
      if blocks[b].refs == 1 {
        FreeLast(b);
      } else {
        FreeShared(b);
      }
    }

    /** Others still refer to the block. */
    method FreeShared(b: nat)
      requires Valid() && b in held && RefsOf(blocks, b) > 1
      modifies this
      ensures Valid() && Freed(old(Now()), Now(), b) && pools == old(pools)
    {
      SharedOk(Now(), nextBlock, pools, b);
      blocks := Lessened(blocks, b);
      held := held - multiset{b};
      assert Now() == old(Now()).(blocks := blocks, held := held);
    }

    // -------------------------------------------------------------- ownership

    /** `block::duplicate`. */
    method Duplicate(h: Handle)
      requires Valid() && (h.At? ==> RefsOf(blocks, h.b) > 0)
      modifies this
      ensures Valid() && buffers == old(buffers) && nextBuffer == old(nextBuffer)
      ensures held == if h.At? then old(held) + multiset{h.b} else old(held)
      ensures Spared(old(blocks), buffers, blocks, buffers, {})
      ensures h.At? ==> SameBytes(old(blocks), blocks, h.b)
    {
      if h.At? {
        DuplicatedOk(Now(), nextBlock, pools, h.b);
        blocks := blocks[h.b := blocks[h.b].(refs := blocks[h.b].refs + 1)];
        held := held + multiset{h.b};
        assert Now() == old(Now()).(blocks := blocks, held := held);
      }
    }

    /** Buffer `k` frees the handle it had; nobody else notices. */
    method Drop(k: nat)
      requires Valid() && k in buffers
      modifies this
      ensures Valid() && held == old(held) && buffers == old(buffers)[k := Nothing] && nextBuffer == old(nextBuffer)
      ensures Spared(old(blocks), old(buffers), blocks, buffers, {k})
      ensures forall b :: b in held ==> SameBytes(old(blocks), blocks, b)
    {
      var h := buffers[k].block;
      DetachedOk(Now(), k);
      buffers := buffers[k := Nothing];
      held := if h.At? then held + multiset{h.b} else held;
      ghost var s := Now();
      if h.At? {
        Free(h.b);
        FreedValid(s, Now(), h.b);
      }
      forall b | b in held ensures SameBytes(old(blocks), blocks, b) {
        assert RefsOf(s.blocks, b) == Count(s.buffers, b) + s.held[b];
      }
    }

    /** Buffer `k` frees its handle and takes over `x`, whose handle is on the stack. */
    method Install(k: nat, x: Buffer)
      requires Valid() && k in buffers && (x.block.At? ==> x.block.b in held)
      requires x.read <= x.write <= CapacityOf(blocks, x.block)
      modifies this
      ensures Valid() && buffers == old(buffers)[k := x] && nextBuffer == old(nextBuffer)
      ensures held == if x.block.At? then old(held) - multiset{x.block.b} else old(held)
      ensures Spared(old(blocks), old(buffers), blocks, buffers, {k})
      ensures x.block.At? ==> SameBytes(old(blocks), blocks, x.block.b)
    {
      Drop(k);
      SparedUpdate(old(blocks), old(buffers), blocks, k, x);
      Put(k, x);
    }

    /** A buffer without a block takes over `x`, whose handle is on the stack. */
    method Put(k: nat, x: Buffer)
      requires Valid() && k in buffers && buffers[k].block.Null? && (x.block.At? ==> x.block.b in held)
      requires x.read <= x.write <= CapacityOf(blocks, x.block)
      modifies this`buffers, this`held
      ensures Valid() && buffers == old(buffers)[k := x]
      ensures held == if x.block.At? then old(held) - multiset{x.block.b} else old(held)
    {
      AttachedOk(Now(), k, x);
      ghost var s := Attached(Now(), k, x);
      buffers := buffers[k := x];
      held := if x.block.At? then held - multiset{x.block.b} else held;
      assert Now() == s;
    }

    /** A new buffer takes over `x`, whose handle is on the stack. */
    method Enter(x: Buffer) returns (k: nat)
      requires Valid() && (x.block.At? ==> x.block.b in held) && x.read <= x.write <= CapacityOf(blocks, x.block)
      modifies this
      ensures Valid() && k == old(nextBuffer) && k !in old(buffers) && buffers == old(buffers)[k := x] && blocks == old(blocks)
      ensures held == if x.block.At? then old(held) - multiset{x.block.b} else old(held)
    {
      k := nextBuffer;
      AttachedOk(Now(), k, x);
      buffers := buffers[k := x];
      held := if x.block.At? then held - multiset{x.block.b} else held;
      nextBuffer := nextBuffer + 1;
    }

    /** Outside every operation no handle is on the stack: counts are exactly the buffers. */
    ghost predicate Quiet()
      reads this
    {
      Valid() && held == multiset{}
    }

    /** A block's count in a quiet state; sole ownership is a count of one. */
    lemma CountIsOwners(b: nat)
      requires Quiet()
      ensures RefsOf(blocks, b) == Count(buffers, b)
      ensures Pooled(pools, b) ==> Count(buffers, b) == 0
    {
      assert RefsOf(blocks, b) == Count(buffers, b) + held[b];
      if Pooled(pools, b) {
        var c :| 0 <= c < |pools| && b in pools[c];
        assert PoolOk(blocks, pools[c], SizeOf(c));
      }
    }

    lemma HandleLive(k: nat)
      requires Valid() && k in buffers && buffers[k].block.At?
      ensures buffers[k].block.b in blocks && blocks[buffers[k].block.b].refs > 0
    {
      HandleInUse(Now(), k);
    }

    /** `byte_buffer()`. */
    method Create() returns (k: nat)
      requires Quiet()
      modifies this
      ensures Quiet() && k !in old(buffers) && buffers == old(buffers)[k := Nothing] && blocks == old(blocks)
    {
      k := Enter(Nothing);
    }

    /** `byte_buffer(sz)`: empty, with room for at least `sz` bytes, and unshared. */
    method CreateSized(sz: nat) returns (k: nat)
      requires Quiet()
      modifies this
      ensures Quiet() && k !in old(buffers) && k in buffers && buffers == old(buffers)[k := buffers[k]]
      ensures buffers[k].read == 0 && buffers[k].write == 0 && CapacityOf(blocks, buffers[k].block) == Granted(sz)
      ensures Sole(buffers, k) && Spared(old(blocks), old(buffers), blocks, buffers, {})
    {
      var b := AllocFilled(sz, []);
      SoleUpdate(buffers, nextBuffer, Buffer(At(b), 0, 0));
      k := Enter(Buffer(At(b), 0, 0));
    }

    /** Copy construction shares the block. */
    method Copy(r: nat) returns (k: nat)
      requires Quiet() && r in buffers
      modifies this
      ensures Quiet() && k !in old(buffers) && buffers == old(buffers)[k := old(buffers)[r]]
      ensures Spared(old(blocks), old(buffers), blocks, buffers, {})
      ensures ContentOf(blocks, buffers[k]) == ContentOf(old(blocks), old(buffers)[r])
    {
      var x := buffers[r];
      if x.block.At? {
        HandleLive(r);
      }
      Duplicate(x.block);
      k := Enter(x);
    }

    /** Move construction takes the block and empties the source. */
    method Move(r: nat) returns (k: nat)
      requires Quiet() && r in buffers
      modifies this
      ensures Quiet() && k !in old(buffers) && buffers == old(buffers)[r := Nothing][k := old(buffers)[r]] && blocks == old(blocks)
    {
      var x := buffers[r];
      DetachedOk(Now(), r);
      buffers := buffers[r := Nothing];
      held := if x.block.At? then held + multiset{x.block.b} else held;
      k := Enter(x);
    }

    /** Copy assignment, onto itself included. */
    method Assign(k: nat, r: nat)
      requires Quiet() && k in buffers && r in buffers
      modifies this
      ensures Quiet() && buffers == old(buffers)[k := old(buffers)[r]]
      ensures Spared(old(blocks), old(buffers), blocks, buffers, {k})
      ensures ContentOf(blocks, buffers[k]) == ContentOf(old(blocks), old(buffers)[r])
    {
      var x := buffers[r];
      if x.block.At? {
        HandleLive(r);
      }
      Duplicate(x.block);
      ghost var m := blocks;
      Install(k, x);
      SparedTrans(old(blocks), old(buffers), m, old(buffers), blocks, buffers, {k});
    }

    /** Move assignment: the source ends up empty, so moving a buffer onto itself loses its content. */
    method MoveAssign(k: nat, r: nat)
      requires Quiet() && k in buffers && r in buffers
      modifies this
      ensures Quiet() && buffers == old(buffers)[k := old(buffers)[r]][r := Nothing]
      ensures Spared(old(blocks), old(buffers), blocks, buffers, {k, r})
      ensures k != r ==> ContentOf(blocks, buffers[k]) == ContentOf(old(blocks), old(buffers)[r])
    {
      Assign(k, r);
      ghost var m, q := blocks, buffers;
      Drop(r);
      SparedTrans(old(blocks), old(buffers), m, q, blocks, buffers, {k, r});
    }

    /** Destruction. */
    method Destroy(k: nat)
      requires Quiet() && k in buffers
      modifies this
      ensures Quiet() && buffers == old(buffers) - {k}
      ensures Spared(old(blocks), old(buffers), blocks, buffers, {k})
    {
      Drop(k);
      RemovedOk(Now(), k);
      buffers := buffers - {k};
      assert buffers == old(buffers) - {k};
    }

    /** `swap`. */
    method Swap(k: nat, r: nat)
      requires Valid() && k in buffers && r in buffers
      modifies this`buffers
      ensures Valid() && buffers == old(buffers)[k := old(buffers)[r]][r := old(buffers)[k]]
    {
      SwapOk(Now(), k, r);
      buffers := buffers[k := buffers[r]][r := buffers[k]];
    }

    // -------------------------------------------------------------- bytes

    /** `memcpy` into a block in use. */
    method Poke(b: nat, at: nat, src: seq<Byte>)
      requires Valid() && RefsOf(blocks, b) > 0 && at + |src| <= |blocks[b].data|
      modifies this`blocks
      ensures Valid() && blocks == Poked(old(blocks), b, at, src)
    {
      PokedOk(Now(), nextBlock, pools, b, at, src);
      blocks := Poked(blocks, b, at, src);
    }

    /** New cursors for a buffer. */
    method Seek(k: nat, read: nat, write: nat)
      requires Valid() && k in buffers && read <= write <= CapacityOf(blocks, buffers[k].block)
      modifies this`buffers
      ensures Valid() && buffers == Placed(old(buffers), k, read, write)
    {
      PlacedOk(Now(), k, read, write);
      buffers := Placed(buffers, k, read, write);
      assert Now() == old(Now()).(buffers := buffers);
    }

    /** The bytes go to the write cursor, and the cursor moves past them. */
    method PutBytes(k: nat, src: seq<Byte>)
      requires Valid() && k in buffers && buffers[k].write + |src| <= CapacityOf(blocks, buffers[k].block)
      modifies this`blocks, this`buffers
      ensures Valid() && blocks == Extended(old(blocks), old(buffers)[k], src)
      ensures buffers == old(buffers)[k := Wrote(old(buffers)[k], |src|)]
    {
      AppendOk(Now(), nextBlock, pools, k, src);
      var x := buffers[k];
      blocks := Extended(blocks, x, src);
      buffers := buffers[k := Wrote(x, |src|)];
      assert Now() == old(Now()).(blocks := blocks, buffers := buffers);
    }

    /** `write`: appends the prefix of `src` that fits. */
    method Write(k: nat, src: seq<Byte>) returns (n: nat)
      requires Valid() && k in buffers && CapacityOf(blocks, buffers[k].block) - buffers[k].write < Int32.Limit
      modifies this`blocks, this`buffers
      ensures n == Min(|src|, CapacityOf(old(blocks), old(buffers)[k].block) - old(buffers)[k].write)
      ensures Valid() && Appended(old(blocks), old(buffers), blocks, buffers, k, src[..n])
    {
      var x := buffers[k];
      var capacity := CapacityOf(blocks, x.block);
      n := Min(|src|, capacity - x.write);
      n := WrittenDistance(x, capacity, n);
      AppendEffect(Now(), nextBlock, k, src[..n]);
      assert |src[..n]| == n;
      PutBytes(k, src[..n]);
    }

    /** `peak`: the first bytes of the content, without consuming them. */
    method Peek(k: nat, sz: nat) returns (out: seq<Byte>)
      requires Valid() && k in buffers
      ensures out == ContentOf(blocks, buffers[k])[..Min(sz, buffers[k].write - buffers[k].read)]
    {
      var x := buffers[k];
      if x.block.At? {
        HandleLive(k);
        out := blocks[x.block.b].data[x.read..x.read + Min(sz, x.write - x.read)];
        assert out == blocks[x.block.b].data[x.read..x.write][..Min(sz, x.write - x.read)];
      } else {
        out := [];
      }
    }

    /** `read`: removes the prefix it returns. */
    method Read(k: nat, sz: nat) returns (out: seq<Byte>)
      requires Valid() && k in buffers && buffers[k].write - buffers[k].read < Int32.Limit
      modifies this`buffers
      ensures |out| == Min(sz, old(buffers)[k].write - old(buffers)[k].read)
      ensures Valid() && k in buffers && buffers == Placed(old(buffers), k, buffers[k].read, old(buffers)[k].write) && buffers[k].read == old(buffers)[k].read + |out|
      ensures out + ContentOf(blocks, buffers[k]) == ContentOf(blocks, old(buffers)[k])
    {
      var x := buffers[k];
      out := Peek(k, sz);
      ContentLength(Now(), nextBlock, k);
      ReadContent(blocks, buffers, k, out);
      var moved := ConsumedDistance(x, |out|);
      assert moved == |out|;
      Seek(k, x.read + |out|, x.write);
    }

    /** `clear`. */
    method Clear(k: nat)
      requires Valid() && k in buffers
      modifies this`buffers
      ensures Valid() && buffers == Placed(old(buffers), k, 0, 0)
    {
      var x := buffers[k];
      Seek(k, 0, 0);
    }

    /** `wr_ptr(move)`. */
    method MoveWriteCursor(k: nat, move: int) returns (moved: int)
      requires Valid() && k in buffers && buffers[k].write <= Int32.Cast(CapacityOf(blocks, buffers[k].block))
      modifies this`buffers
      ensures Valid()
      ensures k in buffers && buffers == Placed(old(buffers), k, old(buffers)[k].read, buffers[k].write) && buffers[k].write == old(buffers)[k].write + moved
      ensures if move >= 0 then moved == MinInt(move, Int32.Cast(CapacityOf(blocks, old(buffers)[k].block)) - old(buffers)[k].write)
              else moved == MaxInt(move, old(buffers)[k].read - old(buffers)[k].write)
    {
      var x := buffers[k];
      moved := WriteDistance(x, CapacityOf(blocks, x.block), move);
      Seek(k, x.read, x.write + moved);
    }

    /** `rd_ptr(move)`: backwards as far as the start of the block. */
    method MoveReadCursor(k: nat, move: int) returns (moved: int)
      requires Valid() && k in buffers && (if move >= 0 then buffers[k].write - buffers[k].read else buffers[k].read) < Int32.Limit
      modifies this`buffers
      ensures Valid()
      ensures k in buffers && buffers == Placed(old(buffers), k, buffers[k].read, old(buffers)[k].write) && buffers[k].read == old(buffers)[k].read + moved
      ensures if move >= 0 then moved == MinInt(move, old(buffers)[k].write - old(buffers)[k].read)
              else moved == MaxInt(move, 0 - old(buffers)[k].read)
    {
      var x := buffers[k];
      moved := ReadDistance(x, move);
      Seek(k, x.read + moved, x.write);
    }

    /** A fresh block holding `src` becomes the block of `k`. */
    method Replace(k: nat, size: nat, src: seq<Byte>)
      requires Quiet() && k in buffers && |src| <= Granted(size)
      modifies this
      ensures Quiet() && k in buffers && buffers == old(buffers)[k := Buffer(buffers[k].block, 0, |src|)]
      ensures ContentOf(blocks, buffers[k]) == src && CapacityOf(blocks, buffers[k].block) == Granted(size)
      ensures Sole(buffers, k) && Spared(old(blocks), old(buffers), blocks, buffers, {k})
    {
      var b := AllocFilled(size, src);
      ghost var m := blocks;
      Install(k, Buffer(At(b), 0, |src|));
      SparedTrans(old(blocks), old(buffers), m, old(buffers), blocks, buffers, {k});
      SoleUpdate(old(buffers), k, Buffer(At(b), 0, |src|));
    }

    /** A fresh block that starts with `src`. */
    method AllocFilled(size: nat, src: seq<Byte>) returns (b: nat)
      requires Quiet() && |src| <= Granted(size)
      modifies this
      ensures Valid() && held == multiset{b} && buffers == old(buffers) && nextBuffer == old(nextBuffer)
      ensures b in blocks && Count(buffers, b) == 0 && blocks[b].capacity == |blocks[b].data| == Granted(size) && src <= blocks[b].data
      ensures Spared(old(blocks), buffers, blocks, buffers, {})
    {
      b := Alloc(size);
      AllocatedValid(old(Now()), Now(), b, Granted(size));
      assert RefsOf(old(blocks), b) == Count(old(buffers), b) + old(held)[b];
      ghost var m := blocks;
      Fill(b, src);
      SparedTrans(old(blocks), buffers, m, buffers, blocks, buffers, {});
    }

    /** Bytes go to the start of a block that no buffer holds yet. */
    method Fill(b: nat, src: seq<Byte>)
      requires Valid() && b in blocks && RefsOf(blocks, b) > 0 && Count(buffers, b) == 0 && |src| <= blocks[b].capacity
      modifies this`blocks
      ensures Valid() && b in blocks && blocks[b].capacity == old(blocks)[b].capacity && |blocks[b].data| == blocks[b].capacity
      ensures src <= blocks[b].data
      ensures Spared(old(blocks), buffers, blocks, buffers, {})
    {
      Poke(b, 0, src);
      SparedBySame(old(blocks), buffers, held, blocks, nextBuffer);
    }

    /** `shrink_to_fit`: the smallest block that holds the content, unshared. */
    method ShrinkToFit(k: nat) returns (skipped: int)
      requires Quiet() && k in buffers
      modifies this
      ensures Quiet() && k in buffers && buffers[k].read == 0 && Sole(buffers, k)
      ensures ContentOf(blocks, buffers[k]) == ContentOf(old(blocks), old(buffers)[k])
      ensures CapacityOf(blocks, buffers[k].block) == Granted(|ContentOf(old(blocks), old(buffers)[k])|)
      ensures skipped == Int32.Cast(old(buffers)[k].read)
      ensures Spared(old(blocks), old(buffers), blocks, buffers, {k})
    {
      ContentLength(Now(), nextBlock, k);
      skipped := Int32.Cast(buffers[k].read);
      var length := buffers[k].write - buffers[k].read;
      var src := Peek(k, length);
      assert src == ContentOf(blocks, buffers[k]);
      Replace(k, length, src);
    }

    /** `reserve`. A block held by this buffer alone, with more room than asked for, stays as it is. Otherwise the
        buffer gets a fresh block with the first bytes of its content. In either case the block is unshared
        afterwards and has room for `sz` bytes, and no other buffer has noticed. */
    method Reserve(k: nat, sz: nat)
      requires Quiet() && k in buffers && sz < Int32.Limit
      modifies this
      ensures Quiet() && k in buffers && Sole(buffers, k) && sz <= CapacityOf(blocks, buffers[k].block)
      ensures Spared(old(blocks), old(buffers), blocks, buffers, {k})
      ensures if Keeps(old(blocks), old(buffers), k, sz) then blocks == old(blocks) && buffers == old(buffers) && pools == old(pools)
              else && CapacityOf(blocks, buffers[k].block) == Granted(sz) && buffers[k].read == 0
                   && ContentOf(blocks, buffers[k])
                      == ContentOf(old(blocks), old(buffers)[k])[..Min(|ContentOf(old(blocks), old(buffers)[k])|, Granted(sz))]
      ensures buffers[k] == old(buffers)[k] || buffers[k].write == |ContentOf(blocks, buffers[k])|
    {
      var x := buffers[k];
      if x.block.At? {
        HandleLive(k);
        SoleCount(buffers, k);
        CountIsOwners(x.block.b);
        if blocks[x.block.b].refs == 1 && sz < Int32.Cast(blocks[x.block.b].capacity) {
          return;
        }
      }
      ContentLength(Now(), nextBlock, k);
      var src := Peek(k, Granted(sz));
      Replace(k, sz, src);
    }

    /** The bytes move and the cursors follow. */
    method Shift(k: nat)
      requires Valid() && k in buffers
      modifies this`blocks, this`buffers
      ensures Valid() && blocks == Fitted(old(blocks), old(buffers)[k]) && buffers == FittedAt(old(buffers), k)
    {
      FitOk(Now(), nextBlock, pools, k);
      var x := buffers[k];
      blocks := Fitted(blocks, x);
      buffers := FittedAt(buffers, k);
      assert Now() == old(Now()).(blocks := blocks, buffers := buffers);
    }

    /** `fit`: the content moves to the start of the block. */
    method Fit(k: nat)
      requires Valid() && k in buffers
      modifies this`blocks, this`buffers
      ensures Valid() && buffers == FittedAt(old(buffers), k) && buffers[k].block == old(buffers)[k].block
      ensures buffers[k].read == 0 && buffers[k].write == old(buffers)[k].write - old(buffers)[k].read
      ensures ContentOf(blocks, buffers[k]) == ContentOf(old(blocks), old(buffers)[k])
      ensures Spared(old(blocks), old(buffers), blocks, buffers, Sharers(old(buffers), k))
    {
      FitEffect(blocks, buffers, k);
      Shift(k);
    }

    /** `byte_buffer(buf, len)`. */
    method CreateFrom(src: seq<Byte>) returns (k: nat)
      requires Quiet() && |src| < Int32.Limit
      modifies this
      ensures Quiet() && k !in old(buffers) && k in buffers && ContentOf(blocks, buffers[k]) == src
      ensures Spared(old(blocks), old(buffers), blocks, buffers, {})
    {
      var b := AllocFilled(|src|, src);
      assert blocks[b].data[..|src|] == src;
      k := Enter(Buffer(At(b), 0, |src|));
    }

    /** `block::copy`: a fresh block with the same bytes. */
    method CopyBlock(b: nat) returns (c: nat)
      requires Quiet() && RefsOf(blocks, b) > 0
      modifies this
      ensures Valid() && held == multiset{c} && buffers == old(buffers) && nextBuffer == old(nextBuffer)
      ensures c in blocks && Count(buffers, c) == 0 && old(blocks)[b].data <= blocks[c].data && |blocks[c].data| == blocks[c].capacity
      ensures Spared(old(blocks), buffers, blocks, buffers, {})
    {
      c := AllocFilled(blocks[b].capacity, blocks[b].data);
    }

    /** `copy`: the same bytes and cursors in a block of its own. */
    method DeepCopy(r: nat) returns (k: nat)
      requires Quiet() && r in buffers
      modifies this
      ensures Quiet() && k !in old(buffers) && k in buffers
      ensures ContentOf(blocks, buffers[k]) == ContentOf(old(blocks), old(buffers)[r])
      ensures Sole(buffers, k) && Spared(old(blocks), old(buffers), blocks, buffers, {})
    {
      var x := buffers[r];
      if x.block.Null? {
        k := Create();
      } else {
        HandleLive(r);
        var b := CopyBlock(x.block.b);
        PrefixContent(old(blocks), x, blocks, b);
        SoleUpdate(buffers, nextBuffer, Buffer(At(b), x.read, x.write));
        k := Enter(Buffer(At(b), x.read, x.write));
      }
    }

    /** Any number of later writes to an unshared buffer leaves every other buffer as it was. */
    method WriteAll(k: nat, chunks: seq<seq<Byte>>)
      requires Quiet() && Sole(buffers, k) && CapacityOf(blocks, buffers[k].block) < Int32.Limit
      modifies this`blocks, this`buffers
      ensures Quiet() && Sole(buffers, k)
      ensures ContentOf(old(blocks), old(buffers)[k]) <= ContentOf(blocks, buffers[k])
      ensures Spared(old(blocks), old(buffers), blocks, buffers, {k})
    {
      for i := 0 to |chunks|
        invariant Quiet() && Sole(buffers, k) && CapacityOf(blocks, buffers[k].block) < Int32.Limit
        invariant ContentOf(old(blocks), old(buffers)[k]) <= ContentOf(blocks, buffers[k])
        invariant Spared(old(blocks), old(buffers), blocks, buffers, {k})
      {
        ghost var m, q := blocks, buffers;
        var _ := Write(k, chunks[i]);
        SoleExposed(q, k);
        SparedTrans(old(blocks), old(buffers), m, q, blocks, buffers, {k});
      }
    }

    /** A buffer operation of a program; those on buffers that do not exist are passed over. */
    method Perform(op: Operation)
      requires Quiet()
      modifies this
      ensures Quiet()
    {
      match op
      case Make(size) => var _ := CreateSized(size);
      case MakeCopy(r) => if r in buffers { var _ := Copy(r); }
      case MakeMove(r) => if r in buffers { var _ := Move(r); }
      case SetCopy(k, r) => if k in buffers && r in buffers { Assign(k, r); }
      case SetMove(k, r) => if k in buffers && r in buffers { MoveAssign(k, r); }
      case Exchange(k, r) => if k in buffers && r in buffers { Swap(k, r); }
      case Grow(k, size) => if k in buffers && size < Int32.Limit { Reserve(k, size); }
      case Shrink(k) => if k in buffers { var _ := ShrinkToFit(k); }
      case Kill(k) => if k in buffers { Destroy(k); }
      case Put(k, src) => if k in buffers && CapacityOf(blocks, buffers[k].block) < Int32.Limit { var _ := Write(k, src); }
      case Get(k, size) => if k in buffers && CapacityOf(blocks, buffers[k].block) < Int32.Limit { var _ := Read(k, size); }
      case Compact(k) => if k in buffers { Fit(k); }
    }

    /** Over any program of buffer operations: every count is the number of buffers holding the block,
        pooled blocks belong to nobody and lie in the pool of their size, no pool has more than 4097
        entries, and every block taken has come back once or is in use. */
    method Run(program: seq<Operation>)
      requires Quiet()
      modifies this
      ensures Quiet()
      ensures forall b: nat :: RefsOf(blocks, b) == Count(buffers, b) && (Pooled(pools, b) ==> Count(buffers, b) == 0)
      ensures forall b: nat :: taken[b] == returned[b] + One(Count(buffers, b) > 0)
      ensures forall c :: 0 <= c < Classes ==> |pools[c]| <= 4097 && forall i :: 0 <= i < |pools[c]| ==> pools[c][i] in blocks && blocks[pools[c][i]].capacity == SizeOf(c)
    {
      for i := 0 to |program|
        invariant Quiet()
      {
        Perform(program[i]);
      }
      forall b: nat ensures RefsOf(blocks, b) == Count(buffers, b) && (Pooled(pools, b) ==> Count(buffers, b) == 0) {
        CountIsOwners(b);
      }
      forall c | 0 <= c < Classes ensures PoolOk(blocks, pools[c], SizeOf(c)) {
      }
    }
  }
}
