/**
 Coroutine stacks with a guard page, as in `src/stack_allocator.cpp`: memory mappings that are owned by
 an allocator or wait in a pool to be used again. The allocators are entries of a map, so that what
 holds of all of them can be said; the kernel is the map of live mappings with their contents.
*/
module StackPool {
  import opened Wrappers

  const MINIMUM_STACK := 16 * 1024
  const POOL_LIMIT := 64

  type Block = nat
  type Id = nat

  datatype Options = Options(size: nat, maxSize: nat, guardPage: bool, pool: bool)

  datatype StackError = TooSmall | ExceedsMaximum | BadAlloc

  datatype Built = Stack(id: Id) | Failure(error: StackError)

  datatype PooledBlock = PooledBlock(mapping: Block, mappingSize: nat, usableSize: nat)

  /** Without a guard page the bytes come from the heap and there is no mapping. */
  datatype Allocator = Allocator(mapping: Option<Block>, mappingSize: nat, size: nat, pooled: bool)

  /** A mapping of the kernel: its size and the bytes that have been written, the others being zero. */
  datatype Mapping = Mapping(size: nat, bytes: map<nat, bv8>)

  function RoundUp(size: nat, page: nat): (r: nat)
    requires page > 0
    ensures size <= r < size + page && r % page == 0
  {
    var r := (size + page - 1) / page * page;
    RoundUpIsTight(size, page);
    r
  }

  lemma RoundUpIsTight(size: nat, page: nat)
    requires page > 0
    ensures var r := (size + page - 1) / page * page; size <= r < size + page && r % page == 0
  {
    var n := size + page - 1;
    assert n == n / page * page + n % page;
    MultipleOfPage(n / page, page);
  }

  lemma MultipleOfPage(k: nat, page: nat)
    requires page > 0
    ensures k * page % page == 0
  {
    var q, m := k * page / page, k * page % page;
    assert (k - q) * page == m;
    Multiple(k - q, page);
  }

  lemma Multiple(d: int, page: nat)
    requires page > 0
    ensures d >= 1 ==> d * page >= page
    ensures d <= -1 ==> d * page + page <= 0
    ensures d == 0 ==> d * page == 0
  {
  }

  predicate ZeroFrom(bytes: map<nat, bv8>, first: nat, size: nat) {
    forall k :: k in bytes && first <= k < first + size ==> bytes[k] == 0
  }

  function Blocks(pool: seq<PooledBlock>): set<Block> {
    set i | 0 <= i < |pool| :: pool[i].mapping
  }

  ghost predicate PoolDistinct(pool: seq<PooledBlock>) {
    forall i, j :: 0 <= i < j < |pool| ==> pool[i].mapping != pool[j].mapping
  }

  ghost predicate PoolOk(pool: seq<PooledBlock>, mapped: map<Block, Mapping>, page: nat) {
    && |pool| <= POOL_LIMIT
    && PoolDistinct(pool)
    && (forall i :: 0 <= i < |pool| ==>
          var b := pool[i];
          && b.mapping in mapped && b.mappingSize == mapped[b.mapping].size == b.usableSize + page
          && ZeroFrom(mapped[b.mapping].bytes, page, b.usableSize))
  }

  ghost predicate AllocatorsOk(allocators: map<Id, Allocator>, mapped: map<Block, Mapping>, page: nat) {
    && (forall a :: a in allocators && allocators[a].mapping.Some? ==>
          var x := allocators[a];
          x.mapping.value in mapped && x.mappingSize == mapped[x.mapping.value].size == x.size + page)
    && (forall a, b :: a in allocators && b in allocators && a != b && allocators[a].mapping.Some? ==>
          allocators[a].mapping != allocators[b].mapping)
  }

  predicate Owns(allocators: map<Id, Allocator>, a: Id, block: Block) {
    a in allocators && allocators[a].mapping == Some(block)
  }

  /** Every live mapping has one owner, or else one place in the pool. */
  ghost predicate OwnedOnce(allocators: map<Id, Allocator>, pool: seq<PooledBlock>, mapped: map<Block, Mapping>) {
    && (forall b :: b in mapped ==> b in Blocks(pool) || exists a :: Owns(allocators, a, b))
    && (forall a, b :: Owns(allocators, a, b) ==> b !in Blocks(pool))
  }

  lemma TakeFromPool(allocators: map<Id, Allocator>, pool: seq<PooledBlock>, mapped: map<Block, Mapping>,
                     i: nat, id: Id, mappingSize: nat, size: nat)
    requires OwnedOnce(allocators, pool, mapped) && i < |pool| && id !in allocators
    requires PoolDistinct(pool)
    ensures OwnedOnce(allocators[id := Allocator(Some(pool[i].mapping), mappingSize, size, true)],
                      pool[..i] + pool[i + 1..], mapped)
  {
    var block := pool[i].mapping;
    var allocators' := allocators[id := Allocator(Some(block), mappingSize, size, true)];
    WithoutOne(pool, i);
    forall b | b in mapped
      ensures b in Blocks(pool[..i] + pool[i + 1..]) || exists a :: Owns(allocators', a, b)
    {
      if b == block {
        assert Owns(allocators', id, b);
      } else if b !in Blocks(pool) {
        var a :| Owns(allocators, a, b);
        assert Owns(allocators', a, b);
      }
    }
    forall a, b | Owns(allocators', a, b)
      ensures b !in Blocks(pool[..i] + pool[i + 1..])
    {
      assert a != id ==> Owns(allocators, a, b);
    }
  }

  /** What `memset` leaves. */
  function Cleared(bytes: map<nat, bv8>, first: nat, size: nat): map<nat, bv8> {
    map k | k in bytes :: if first <= k < first + size then 0 else bytes[k]
  }

  lemma BlocksSnoc(pool: seq<PooledBlock>, b: PooledBlock)
    ensures Blocks(pool + [b]) == Blocks(pool) + {b.mapping}
  {
    var all := pool + [b];
    forall k
      ensures k in Blocks(all) <==> k in Blocks(pool) || k == b.mapping
    {
      if k in Blocks(pool) {
        var i :| 0 <= i < |pool| && pool[i].mapping == k;
        assert all[i] == pool[i];
      }
      assert all[|pool|] == b;
    }
  }

  lemma GiveToPool(allocators: map<Id, Allocator>, pool: seq<PooledBlock>, mapped: map<Block, Mapping>,
                   mapped': map<Block, Mapping>, id: Id, b: PooledBlock)
    requires OwnedOnce(allocators, pool, mapped) && Owns(allocators, id, b.mapping) && mapped'.Keys == mapped.Keys
    requires forall x, y :: x in allocators && y in allocators && x != y && allocators[x].mapping.Some? ==>
               allocators[x].mapping != allocators[y].mapping
    ensures OwnedOnce(allocators - {id}, pool + [b], mapped') && b.mapping !in Blocks(pool)
    ensures forall i :: 0 <= i < |pool| ==> pool[i].mapping != b.mapping
  {
    BlocksSnoc(pool, b);
    assert forall i :: 0 <= i < |pool| ==> pool[i].mapping in Blocks(pool);
    OwnersLeft(allocators, id, b.mapping);
  }

  /** Without one owner, the mappings of the others. */
  lemma OwnersLeft(allocators: map<Id, Allocator>, id: Id, block: Block)
    requires Owns(allocators, id, block)
    requires forall x, y :: x in allocators && y in allocators && x != y && allocators[x].mapping.Some? ==>
               allocators[x].mapping != allocators[y].mapping
    ensures forall a, b :: Owns(allocators - {id}, a, b) ==> Owns(allocators, a, b) && b != block
    ensures forall a, b :: Owns(allocators, a, b) && b != block ==> Owns(allocators - {id}, a, b)
  {
  }

  lemma Unmap(allocators: map<Id, Allocator>, pool: seq<PooledBlock>, mapped: map<Block, Mapping>, id: Id, block: Block)
    requires OwnedOnce(allocators, pool, mapped) && Owns(allocators, id, block)
    requires forall x, y :: x in allocators && y in allocators && x != y && allocators[x].mapping.Some? ==>
               allocators[x].mapping != allocators[y].mapping
    ensures OwnedOnce(allocators - {id}, pool, mapped - {block})
    ensures forall i :: 0 <= i < |pool| ==> pool[i].mapping != block
  {
    assert forall i :: 0 <= i < |pool| ==> pool[i].mapping in Blocks(pool);
    OwnersLeft(allocators, id, block);
  }

  lemma NothingOwned(allocators: map<Id, Allocator>, pool: seq<PooledBlock>, mapped: map<Block, Mapping>, id: Id)
    requires OwnedOnce(allocators, pool, mapped) && id in allocators && allocators[id].mapping.None?
    ensures OwnedOnce(allocators - {id}, pool, mapped)
  {
    assert forall a, b :: Owns(allocators, a, b) <==> Owns(allocators - {id}, a, b);
  }

  lemma TakeKeepsRest(allocators: map<Id, Allocator>, pool: seq<PooledBlock>, mapped: map<Block, Mapping>, page: nat,
                      i: nat, id: Id)
    requires OwnedOnce(allocators, pool, mapped) && PoolOk(pool, mapped, page) && AllocatorsOk(allocators, mapped, page)
    requires i < |pool| && id !in allocators
    ensures PoolOk(pool[..i] + pool[i + 1..], mapped, page)
    ensures AllocatorsOk(allocators[id := Allocator(Some(pool[i].mapping), pool[i].mappingSize,
                                                    pool[i].usableSize, true)],
                         mapped, page)
    ensures pool[i].mapping in mapped && pool[i].mappingSize == pool[i].usableSize + page
    ensures ZeroFrom(mapped[pool[i].mapping].bytes, page, pool[i].usableSize) && PoolDistinct(pool)
  {
    hide ZeroFrom;
    assert forall k :: 0 <= k < |pool| ==> pool[k].mapping in Blocks(pool);
    forall a | a in allocators && allocators[a].mapping.Some?
      ensures allocators[a].mapping.value != pool[i].mapping
    {
      assert Owns(allocators, a, allocators[a].mapping.value);
    }
    var rest := pool[..i] + pool[i + 1..];
    assert forall k :: 0 <= k < |rest| ==> rest[k] == pool[if k < i then k else k + 1];
  }

  lemma NewOwner(allocators: map<Id, Allocator>, pool: seq<PooledBlock>, mapped: map<Block, Mapping>, page: nat,
                 id: Id, x: Allocator, m: Mapping)
    requires OwnedOnce(allocators, pool, mapped) && PoolOk(pool, mapped, page) && id !in allocators
    requires x.mapping.Some? ==> x.mapping.value !in mapped
    ensures OwnedOnce(allocators[id := x], pool, if x.mapping.Some? then mapped[x.mapping.value := m] else mapped)
  {
    var allocators' := allocators[id := x];
    var mapped' := if x.mapping.Some? then mapped[x.mapping.value := m] else mapped;
    forall b | b in mapped' && b !in Blocks(pool)
      ensures exists a :: Owns(allocators', a, b)
    {
      if b in mapped {
        var a :| Owns(allocators, a, b);
        assert Owns(allocators', a, b);
      } else {
        assert Owns(allocators', id, b);
      }
    }
    forall a, b | Owns(allocators', a, b)
      ensures b !in Blocks(pool)
    {
      assert a != id ==> Owns(allocators, a, b);
    }
  }

  lemma MoveOwner(allocators: map<Id, Allocator>, pool: seq<PooledBlock>, mapped: map<Block, Mapping>,
                  id: Id, other: Id)
    requires OwnedOnce(allocators, pool, mapped) && id !in allocators && other in allocators
    ensures var x := allocators[other];
            OwnedOnce(allocators[id := x][other := Allocator(None, 0, x.size, false)], pool, mapped)
  {
    var x := allocators[other];
    var allocators' := allocators[id := x][other := Allocator(None, 0, x.size, false)];
    forall b | b in mapped && b !in Blocks(pool)
      ensures exists a :: Owns(allocators', a, b)
    {
      var a :| Owns(allocators, a, b);
      assert Owns(allocators', if a == other then id else a, b);
    }
    forall a, b | Owns(allocators', a, b)
      ensures b !in Blocks(pool)
    {
      assert Owns(allocators, if a == id then other else a, b);
    }
  }

  lemma SwapOwners(allocators: map<Id, Allocator>, pool: seq<PooledBlock>, mapped: map<Block, Mapping>,
                   id: Id, other: Id)
    requires OwnedOnce(allocators, pool, mapped) && id in allocators && other in allocators
    ensures OwnedOnce(allocators[id := allocators[other]][other := allocators[id]], pool, mapped)
  {
    var allocators' := allocators[id := allocators[other]][other := allocators[id]];
    forall b | b in mapped && b !in Blocks(pool)
      ensures exists a :: Owns(allocators', a, b)
    {
      var a :| Owns(allocators, a, b);
      assert Owns(allocators', if a == id then other else if a == other then id else a, b);
    }
    forall a, b | Owns(allocators', a, b)
      ensures b !in Blocks(pool)
    {
      assert Owns(allocators, if a == id then other else if a == other then id else a, b);
    }
  }

  lemma WithoutOne(pool: seq<PooledBlock>, i: nat)
    requires i < |pool| && PoolDistinct(pool)
    ensures Blocks(pool[..i] + pool[i + 1..]) == Blocks(pool) - {pool[i].mapping}
  {
    var rest := pool[..i] + pool[i + 1..];
    forall b
      ensures b in Blocks(rest) <==> b in Blocks(pool) && b != pool[i].mapping
    {
      if b in Blocks(pool) && b != pool[i].mapping {
        var k :| 0 <= k < |pool| && pool[k].mapping == b;
        assert rest[if k < i then k else k - 1] == pool[k];
      }
      if b in Blocks(rest) {
        var k :| 0 <= k < |rest| && rest[k].mapping == b;
        assert pool[if k < i then k else k + 1] == rest[k];
      }
    }
  }

  class StackAllocators {
    const page: nat
    var pool: seq<PooledBlock>
    var mapped: map<Block, Mapping>
    var allocators: map<Id, Allocator>

    ghost predicate Valid()
      reads this
    {
      && page > 0
      && PoolOk(pool, mapped, page)
      && AllocatorsOk(allocators, mapped, page)
      && OwnedOnce(allocators, pool, mapped)
    }

    constructor (page: nat)
      requires page > 0
      ensures Valid() && this.page == page && allocators == map[]
    {
      this.page, pool, mapped, allocators := page, [], map[], map[];
    }

    predicate IsFirst(pool: seq<PooledBlock>, i: nat, size: nat) {
      i < |pool| && pool[i].usableSize == size && forall j :: 0 <= j < i ==> pool[j].usableSize != size
    }

    /** The first block in the pool of that size, as `find_if` finds it. */
    method Find(size: nat) returns (i: nat)
      ensures i <= |pool|
      ensures i < |pool| ==> pool[i].usableSize == size
      ensures forall j :: 0 <= j < i ==> pool[j].usableSize != size
    {
      i := 0;
      while i < |pool| && pool[i].usableSize != size
        invariant i <= |pool| && forall j :: 0 <= j < i ==> pool[j].usableSize != size
      {
        i := i + 1;
      }
    }

    /** `id` and `block` are an unused name and an unused address; `mapOk` and `protectOk` say whether
        the kernel maps a fresh block and protects its first page. */
    method Construct(options: Options, id: Id, block: Block, mapOk: bool, protectOk: bool)
      returns (built: Built, ghost reused: nat)
      requires Valid() && id !in allocators && block !in mapped
      modifies this
      ensures Valid()
      ensures options.size < MINIMUM_STACK ==> built == Failure(TooSmall)
      ensures options.size >= MINIMUM_STACK && options.maxSize < options.size ==> built == Failure(ExceedsMaximum)
      ensures built.Failure? ==> allocators == old(allocators) && mapped == old(mapped) && pool == old(pool)
      ensures built.Stack? ==>
                && built.id == id && allocators.Keys == old(allocators).Keys + {id}
                && (forall a :: a in old(allocators) ==> allocators[a] == old(allocators)[a])
                && options.size <= allocators[id].size
      ensures built.Stack? && options.guardPage ==>
                && var x := allocators[id];
                && x.mapping.Some? && x.mapping.value in mapped && x.pooled == options.pool
                && x.size < options.size + page && x.size % page == 0 && x.mappingSize == x.size + page
                && ZeroFrom(mapped[x.mapping.value].bytes, page, x.size)
      ensures built.Stack? && mapped != old(mapped) ==> options.guardPage && mapOk && protectOk
      ensures options.size >= MINIMUM_STACK && options.maxSize >= options.size ==>
                var size := RoundUp(options.size, page);
                if !options.guardPage then
                  && built == Stack(id) && pool == old(pool) && mapped == old(mapped)
                  && allocators[id] == Allocator(None, 0, options.size, false)
                else if options.pool && exists i :: 0 <= i < |old(pool)| && old(pool)[i].usableSize == size then
                  && built == Stack(id) && IsFirst(old(pool), reused, size) && mapped == old(mapped)
                  && pool == old(pool)[..reused] + old(pool)[reused + 1..]
                  && allocators[id] ==
                       Allocator(Some(old(pool)[reused].mapping), old(pool)[reused].mappingSize, size, true)
                else
                  && built == (if mapOk && protectOk then Stack(id) else Failure(BadAlloc)) && pool == old(pool)
                  && (built.Stack? ==>
                        && allocators[id] == Allocator(Some(block), size + page, size, options.pool)
                        && mapped.Keys == old(mapped).Keys + {block})
    {
      hide OwnedOnce, ZeroFrom, Blocks, PoolOk;
      reused := 0;
      if options.size < MINIMUM_STACK {
        return Failure(TooSmall), 0;
      }
      if options.maxSize < options.size {
        return Failure(ExceedsMaximum), 0;
      }
      if !options.guardPage {
        NewOwner(allocators, pool, mapped, page, id, Allocator(None, 0, options.size, false), Mapping(0, map[]));
        allocators := allocators[id := Allocator(None, 0, options.size, false)];
        return Stack(id), 0;
      }
      var size := RoundUp(options.size, page);
      if options.pool {
        var found, first := TakePooled(size, id);
        if found {
          return Stack(id), first;
        }
      }
      var mapped := MapFresh(size, id, block, options.pool, mapOk, protectOk);
      if !mapped {
        return Failure(BadAlloc), 0;
      }
      return Stack(id), 0;
    }

    /** Take the first block of that size out of the pool. */
    method TakePooled(size: nat, id: Id) returns (found: bool, ghost first: nat)
      requires Valid() && id !in allocators
      modifies `allocators, `pool
      ensures Valid() && (found <==> exists i :: 0 <= i < |old(pool)| && old(pool)[i].usableSize == size)
      ensures !found ==> allocators == old(allocators) && pool == old(pool)
      ensures found ==>
                && allocators.Keys == old(allocators).Keys + {id} && allocators == old(allocators)[id := allocators[id]]
                && var x := allocators[id];
                && x.mapping.Some? && x.mapping.value in mapped && x.pooled
                && x.size == size && x.mappingSize == size + page
                && ZeroFrom(mapped[x.mapping.value].bytes, page, size)
      ensures found ==>
                && IsFirst(old(pool), first, size) && pool == old(pool)[..first] + old(pool)[first + 1..]
                && allocators[id] == Allocator(Some(old(pool)[first].mapping), old(pool)[first].mappingSize, size, true)
    {
      hide OwnedOnce, ZeroFrom, Blocks, PoolOk, AllocatorsOk;
      var i := Find(size);
      first := i;
      found := i < |pool|;
      if found {
        var b := pool[i];
        TakeKeepsRest(allocators, pool, mapped, page, i, id);
        TakeFromPool(allocators, pool, mapped, i, id, b.mappingSize, size);
        allocators := allocators[id := Allocator(Some(b.mapping), b.mappingSize, size, true)];
        pool := pool[..i] + pool[i + 1..];
      }
    }

    /** Map a fresh block and protect its first page, or undo the mapping. */
    method MapFresh(size: nat, id: Id, block: Block, pooled: bool, mapOk: bool, protectOk: bool) returns (ok: bool)
      requires Valid() && id !in allocators && block !in mapped
      modifies `allocators, `mapped
      ensures Valid() && (ok <==> mapOk && protectOk)
      ensures !ok ==> allocators == old(allocators) && mapped == old(mapped)
      ensures ok ==>
                && allocators == old(allocators)[id := Allocator(Some(block), size + page, size, pooled)]
                && block in mapped && mapped == old(mapped)[block := mapped[block]]
                && ZeroFrom(mapped[block].bytes, page, size)
    {
      hide OwnedOnce, Blocks;
      if !mapOk {
        return false;
      }
      var total := size + page;
      mapped := mapped[block := Mapping(total, map[])];
      if !protectOk {
        mapped := mapped - {block};
        assert mapped == old(mapped);
        return false;
      }
      NewOwner(allocators, pool, old(mapped), page, id,
               Allocator(Some(block), total, size, pooled), Mapping(total, map[]));
      allocators := allocators[id := Allocator(Some(block), total, size, pooled)];
      return true;
    }

    /** A stack that is given up goes back to the pool with its bytes cleared, or is unmapped. */
    method Destroy(id: Id)
      requires Valid() && id in allocators
      modifies this
      ensures Valid() && allocators == old(allocators) - {id}
      ensures var x := old(allocators)[id];
              if x.mapping.None? then pool == old(pool) && mapped == old(mapped)
              else if x.pooled && |old(pool)| < POOL_LIMIT then
                && pool == old(pool) + [PooledBlock(x.mapping.value, x.mappingSize, x.size)]
                && mapped.Keys == old(mapped).Keys
              else pool == old(pool) && mapped == old(mapped) - {x.mapping.value}
      ensures forall b :: b in mapped && old(allocators)[id].mapping != Some(b) ==>
                b in old(mapped) && mapped[b] == old(mapped)[b]
    {
      hide Blocks, OwnedOnce;
      var x := allocators[id];
      allocators := allocators - {id};
      if x.mapping.Some? {
        var block := x.mapping.value;
        assert Owns(old(allocators), id, block);
        if x.pooled && |pool| < POOL_LIMIT {
          var m := mapped[block];
          mapped := mapped[block := m.(bytes := Cleared(m.bytes, page, x.size))];
          pool := pool + [PooledBlock(block, x.mappingSize, x.size)];
          GiveToPool(old(allocators), old(pool), old(mapped), mapped, id, PooledBlock(block, x.mappingSize, x.size));
        } else {
          mapped := mapped - {block};
          Unmap(old(allocators), pool, old(mapped), id, block);
        }
      } else {
        NothingOwned(old(allocators), pool, mapped, id);
      }
    }

    /** Construction from another allocator, which is left without a mapping. */
    method MoveConstruct(id: Id, other: Id)
      requires Valid() && id !in allocators && other in allocators
      modifies `allocators
      ensures Valid()
      ensures allocators == old(allocators)[id := old(allocators)[other]]
                                           [other := Allocator(None, 0, old(allocators)[other].size, false)]
    {
      var x := allocators[other];
      MoveOwner(allocators, pool, mapped, id, other);
      allocators := allocators[id := x][other := Allocator(None, 0, x.size, false)];
    }

    /** Assignment swaps, so that the other allocator will release what this one had. */
    method MoveAssign(id: Id, other: Id)
      requires Valid() && id in allocators && other in allocators
      modifies `allocators
      ensures Valid()
      ensures allocators == old(allocators)[id := old(allocators)[other]][other := old(allocators)[id]]
    {
      if id != other {
        SwapOwners(allocators, pool, mapped, id, other);
        allocators := allocators[id := allocators[other]][other := allocators[id]];
      }
      assert allocators == old(allocators)[id := old(allocators)[other]][other := old(allocators)[id]];
    }

    /** The coroutine writes to its stack. */
    method Write(id: Id, offset: nat, value: bv8)
      requires Valid() && id in allocators && allocators[id].mapping.Some? && offset < allocators[id].size
      modifies `mapped
      ensures Valid() && mapped.Keys == old(mapped).Keys
      ensures forall b :: b in mapped && allocators[id].mapping != Some(b) ==> mapped[b] == old(mapped)[b]
      ensures var block := allocators[id].mapping.value;
              && block in old(mapped) && block in mapped
              && mapped[block].bytes == old(mapped)[block].bytes[page + offset := value]
    {
      var block := allocators[id].mapping.value;
      assert Owns(allocators, id, block);
      assert forall i :: 0 <= i < |pool| ==> pool[i].mapping in Blocks(pool);
      var m := mapped[block];
      mapped := mapped[block := m.(bytes := m.bytes[page + offset := value])];
    }
  }
}
