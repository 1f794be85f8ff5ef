/** The buffer pool, the move-only handles that lease its buffers, and the work items that carry
    a handle through the pipeline. `leases` records which handle object owns each lease, so that two
    handles cannot own the same buffer and no lease can be returned twice. */
module BufferPools {
  import opened Base
  import opened LeaseSpec
  import opened Metrics

  /** Why a work item is rejected. */
  datatype ItemError = InvalidHandle | NoValidBytes | BeyondCapacity

  class AlignedBufferPool {
    const buffers: seq<array<byte>>
    var available: seq<nat>
    const inUse: array<bool>
    const metric: Gauge?
    ghost var leases: map<nat, BufferHandle>

    ghost function Repr(): set<object> {
      {this, inUse} + if metric == null then {} else {metric as object}
    }

    ghost function Model(): Pool
      reads this, inUse
    {
      Pool(available, inUse[..])
    }

    ghost predicate Valid()
      reads this, Repr()
    {
      ValidWith(leases.Keys)
    }

    /** Flags, free list and gauge agree with this set of leased indices. */
    ghost predicate ValidWith(leased: set<nat>)
      reads this, Repr()
    {
      && inUse.Length == |buffers| <= I64_MAX
      && Bookkeeping(|buffers|, Model(), leased)
      && (metric != null ==> metric.Valid() && metric.current == |leased|)
    }

    constructor (blocks: seq<array<byte>>, gauge: Gauge?)
      requires |blocks| <= I64_MAX
      requires gauge != null ==> gauge.Valid() && gauge.current == 0
      ensures Valid() && leases == map[] && fresh(inUse) && buffers == blocks && metric == gauge
      ensures Model() == InitialPool(|blocks|)
    {
      buffers, metric, leases := blocks, gauge, map[];
      var flags := new bool[|blocks|](_ => false);
      inUse := flags;
      available := [];
      new;
      var index := |blocks|;
      while index > 0
        invariant 0 <= index <= |blocks|
        invariant leases == map[] && |available| == |blocks| - index
        invariant forall k :: 0 <= k < |available| ==> available[k] == |blocks| - 1 - k
        invariant forall k :: 0 <= k < inUse.Length ==> !inUse[k]
      {
        available := available + [index - 1];
        index := index - 1;
      }
      assert |InitialPool(|blocks|).free| == |blocks|;
      assert available == InitialPool(|blocks|).free;
      assert inUse[..] == InitialPool(|blocks|).inUse;
      InitialBookkeeping(|blocks|);
      assert leases.Keys == {};
    }

    /** Pops the newest free index and flags it. */
    method PopAvailable() returns (i: nat)
      requires available != [] && inUse.Length == |buffers| && TakeIndex(Model()) < inUse.Length
      modifies this`available, inUse
      ensures i == TakeIndex(old(Model())) && Model() == AfterTake(old(Model()))
    {
      i := available[|available| - 1];
      available := available[..|available| - 1];
      inUse[i] := true;
    }

    /** Takes an index out of the free list and counts it as in flight, before a handle owns it. */
    method MarkTaken() returns (i: nat)
      requires Valid() && available != []
      modifies this`available, inUse, if metric == null then {} else {metric}
      ensures i == TakeIndex(old(Model())) && Model() == AfterTake(old(Model())) && i !in leases
      ensures ValidWith(leases.Keys + {i})
    {
      TakeBookkeeping(|buffers|, Model(), leases.Keys);
      assert |leases.Keys| < |buffers|;
      assert inUse.Length == |inUse[..]| == |buffers|;
      hide Bookkeeping, AfterTake;
      i := PopAvailable();
      if metric != null {
        metric.Increment();
      }
    }

    /** The part of `acquire` that runs once a buffer is free. */
    method Acquire() returns (h: BufferHandle)
      requires Valid() && available != []
      modifies Repr()
      ensures Valid() && fresh(h)
      ensures Model() == AfterTake(old(Model()))
      ensures h.pool == this && h.index == TakeIndex(old(Model())) && h.index !in old(leases)
      ensures leases == old(leases)[h.index := h]
    {
      hide Bookkeeping, AfterTake, TakeIndex, ValidWith, Model;
      var i := MarkTaken();
      h := new BufferHandle(this, i);
      Register(i, h);
    }

    /** Records the owner of a taken index. */
    ghost method Register(i: nat, h: BufferHandle)
      requires ValidWith(leases.Keys + {i}) && i !in leases
      modifies this`leases
      ensures Valid() && Model() == old(Model()) && leases == old(leases)[i := h]
    {
      hide Bookkeeping;
      ghost var leased := leases.Keys;
      leases := leases[i := h];
      assert leases.Keys == leased + {i};
    }

    method TryAcquire() returns (r: Option<BufferHandle>)
      requires Valid()
      modifies Repr()
      ensures Valid()
      ensures r.Some? <==> old(available) != []
      ensures r.Some? ==> fresh(r.value) && r.value.pool == this && r.value.index == TakeIndex(old(Model()))
      ensures r.Some? ==> Model() == AfterTake(old(Model())) && leases == old(leases)[r.value.index := r.value]
      ensures r.None? ==> Model() == old(Model()) && leases == old(leases)
    {
      if available == [] {
        return None;
      }
      var h := Acquire();
      return Some(h);
    }

    method Release(i: nat)
      requires Valid() && i in leases
      modifies Repr()
      ensures Valid() && Model() == AfterGive(old(Model()), i) && leases == old(leases) - {i}
    {
      ghost var before, leased := Model(), leases.Keys;
      GiveBookkeeping(|buffers|, before, leased, i);
      assert i < |buffers|;
      hide Bookkeeping;
      inUse[i] := false;
      available := available + [i];
      if metric != null {
        metric.Decrement();
      }
      leases := leases - {i};
      assert Model() == AfterGive(before, i);
      assert leases.Keys == leased - {i};
    }

    lemma LeaseInRange(i: nat)
      requires Valid() && i in leases
      ensures i < |buffers|
    {
    }

    /** The assertion in the destructor holds exactly when no handle holds a lease. */
    lemma AllReturned()
      requires Valid()
      ensures |available| == |buffers| <==> leases == map[]
    {
    }
  }

  class BufferHandle {
    var pool: AlignedBufferPool?
    var index: nat

    ghost function PoolRepr(): set<object>
      reads this
    {
      if pool == null then {} else pool.Repr()
    }

    /** A handle is empty, or the pool is valid and names this object as the owner of the lease. */
    ghost predicate Owns()
      reads this, PoolRepr()
    {
      pool != null ==> pool.Valid() && index in pool.leases && pool.leases[index] == this
    }

    /** Two handles never share a buffer. */
    lemma Exclusive(other: BufferHandle)
      requires Owns() && other.Owns() && pool != null && pool == other.pool && this != other
      ensures index != other.index
    {
    }

    constructor (p: AlignedBufferPool, i: nat)
      ensures pool == p && index == i
    {
      pool, index := p, i;
    }

    /** Returns the lease, if there is one; a second release does nothing. */
    method Release()
      requires Owns()
      modifies this, PoolRepr()
      ensures pool == null && index == 0
      ensures old(pool) != null ==>
                && old(pool).Valid()
                && old(pool).leases == old(pool.leases) - {old(index)}
                && old(pool).Model() == AfterGive(old(pool.Model()), old(index))
    {
      var owner, released := pool, index;
      pool, index := null, 0;
      if owner != null {
        owner.Release(released);
      }
    }

    /** Move construction: the lease changes owner, the pool does not change. */
    constructor Move(other: BufferHandle)
      requires other.Owns()
      modifies other, if other.pool == null then {} else {other.pool}
      ensures pool == old(other.pool) && index == old(other.index)
      ensures other.pool == null && other.index == 0 && Owns()
      ensures pool != null ==>
                && pool.leases == old(other.pool.leases)[index := this]
                && pool.Model() == old(other.pool.Model())
    {
      pool, index := other.pool, other.index;
      new;
      other.pool, other.index := null, 0;
      if pool != null {
        pool.leases := pool.leases[index := this];
      }
    }

    /** A release leaves the lease of any other handle alone, in the same pool or in another one. */
    method ReleaseBeside(other: BufferHandle)
      requires this != other && Owns() && other.Owns()
      requires pool != null && other.pool != null && pool != other.pool ==> pool.Repr() !! other.pool.Repr()
      modifies this, PoolRepr()
      ensures pool == null && index == 0
      ensures other.Owns() && other.pool == old(other.pool) && other.index == old(other.index)
      ensures old(pool) != null ==> old(pool).Valid() && old(pool).leases == old(pool.leases) - {old(index)}
      ensures other.pool != null && other.pool != old(pool) ==> other.pool.leases == old(other.pool.leases)
    {
      hide Bookkeeping, AfterGive;
      if pool != null && pool == other.pool {
        Exclusive(other);
      }
      Release();
    }

    /** Move assignment returns the lease this handle held, then takes the other's. */
    method Assign(other: BufferHandle)
      requires Owns() && other.Owns()
      requires pool != null && other.pool != null && pool != other.pool ==> pool.Repr() !! other.pool.Repr()
      modifies this, other, PoolRepr(), other.PoolRepr()
      ensures this == other ==> pool == old(pool) && index == old(index)
      ensures this != other ==>
                && pool == old(other.pool) && index == old(other.index)
                && other.pool == null && other.index == 0
      ensures Owns() && other.Owns()
      ensures this != other && old(pool) != null && old(pool) != old(other.pool) ==>
                old(pool).Valid() && old(pool).leases == old(pool.leases) - {old(index)}
      ensures this != other && old(pool) != null && old(pool) == old(other.pool) ==>
                pool.leases == (old(pool.leases) - {old(index)})[index := this]
    {
      hide Bookkeeping;
      if this != other {
        ReleaseBeside(other);
        TakeFrom(other);
      }
    }

    /** The exchange in both moves: this handle is empty and takes the other's lease. */
    method TakeFrom(other: BufferHandle)
      requires this != other && pool == null && other.Owns()
      modifies this, other, if other.pool == null then {} else {other.pool}
      ensures pool == old(other.pool) && index == old(other.index)
      ensures other.pool == null && other.index == 0 && Owns()
      ensures pool != null ==>
                pool.leases == old(other.pool.leases)[index := this] && pool.Model() == old(other.pool.Model())
    {
      hide Bookkeeping;
      pool, index := other.pool, other.index;
      other.pool, other.index := null, 0;
      if pool != null {
        ghost var leased := pool.leases.Keys;
        pool.leases := pool.leases[index := this];
        assert pool.leases.Keys == leased;
      }
    }
  }

  /** A block with the lease of the buffer that holds it. */
  class BlockWorkItem {
    var blockIndex: nat
    var fileOffset: nat
    var validBytes: nat
    var buffer: BufferHandle

    constructor (index: nat, offset: nat, bytes: nat, handle: BufferHandle)
      ensures blockIndex == index && fileOffset == offset && validBytes == bytes && buffer == handle
    {
      blockIndex, fileOffset, validBytes, buffer := index, offset, bytes, handle;
    }

    /** The checked constructor. It takes the lease in every case: when it rejects the arguments,
        unwinding destroys the member it moved the lease into, so the lease goes back to the pool. */
    static method Create(index: nat, offset: nat, bytes: nat, source: BufferHandle)
      returns (r: Result<BlockWorkItem, ItemError>)
      requires source.Owns()
      modifies source, source.PoolRepr()
      ensures source.pool == null && source.index == 0
      ensures r.Ok? <==>
                old(source.pool) != null && 0 < bytes
                && old(source.index) < |old(source.pool).buffers|
                && bytes <= old(source.pool).buffers[old(source.index)].Length
      ensures r.Ok? ==>
                && fresh(r.value) && r.value.blockIndex == index && r.value.fileOffset == offset
                && r.value.validBytes == bytes
                && r.value.buffer.pool == old(source.pool) && r.value.buffer.index == old(source.index)
                && r.value.buffer.Owns()
      ensures r.Err? ==> r.error == ErrorOf(old(source.pool) != null, bytes)
      ensures r.Err? && old(source.pool) != null ==>
                && old(source.pool).Valid()
                && old(source.pool).leases == old(source.pool.leases) - {old(source.index)}
    {
      hide Bookkeeping;
      var handle := new BufferHandle.Move(source);
      r := FromMember(index, offset, bytes, handle);
    }

    /** The checks are made in this order. */
    static function ErrorOf(valid: bool, bytes: nat): ItemError {
      if !valid then InvalidHandle else if bytes == 0 then NoValidBytes else BeyondCapacity
    }

    /** The checks, once the lease is in the new item's member. */
    static method FromMember(index: nat, offset: nat, bytes: nat, handle: BufferHandle)
      returns (r: Result<BlockWorkItem, ItemError>)
      requires handle.Owns()
      modifies handle, handle.PoolRepr()
      ensures r.Ok? <==>
                old(handle.pool) != null && 0 < bytes
                && old(handle.index) < |old(handle.pool).buffers|
                && bytes <= old(handle.pool).buffers[old(handle.index)].Length
      ensures r.Ok? ==>
                && fresh(r.value) && r.value.blockIndex == index && r.value.fileOffset == offset
                && r.value.validBytes == bytes && r.value.buffer == handle
                && handle.pool == old(handle.pool) && handle.index == old(handle.index) && handle.Owns()
                && (handle.pool != null ==> handle.pool.leases == old(handle.pool.leases))
      ensures r.Err? ==> r.error == ErrorOf(old(handle.pool) != null, bytes)
      ensures r.Err? && old(handle.pool) != null ==>
                && old(handle.pool).Valid()
                && old(handle.pool).leases == old(handle.pool.leases) - {old(handle.index)}
    {
      if handle.pool != null {
        handle.pool.LeaseInRange(handle.index);
      }
      hide Bookkeeping;
      if handle.pool != null && 0 < bytes && bytes <= handle.pool.buffers[handle.index].Length {
        var item := new BlockWorkItem(index, offset, bytes, handle);
        return Ok(item);
      }
      var error := ErrorOf(handle.pool != null, bytes);
      handle.Release();
      return Err(error);
    }

    /** Move construction: the metadata and the lease change hands, and the other item is left empty. */
    constructor Move(other: BlockWorkItem)
      requires other.buffer.Owns()
      modifies other, other.buffer, other.buffer.PoolRepr()
      ensures blockIndex == old(other.blockIndex) && fileOffset == old(other.fileOffset)
      ensures validBytes == old(other.validBytes) && fresh(buffer) && buffer.Owns()
      ensures buffer.pool == old(other.buffer.pool) && buffer.index == old(other.buffer.index)
      ensures other.blockIndex == other.fileOffset == other.validBytes == 0
      ensures other.buffer == old(other.buffer) && other.buffer.pool == null
    {
      hide Bookkeeping;
      var handle := new BufferHandle.Move(other.buffer);
      blockIndex, fileOffset, validBytes, buffer := other.blockIndex, other.fileOffset, other.validBytes, handle;
      new;
      other.blockIndex, other.fileOffset, other.validBytes := 0, 0, 0;
    }

    /** Move assignment also returns the lease that this item held; assigning to itself does nothing. */
    method Assign(other: BlockWorkItem)
      requires buffer.Owns() && other.buffer.Owns() && (this != other ==> buffer != other.buffer)
      requires buffer.pool != null && other.buffer.pool != null && buffer.pool != other.buffer.pool ==>
                 buffer.pool.Repr() !! other.buffer.pool.Repr()
      modifies this, other, buffer, other.buffer, buffer.PoolRepr(), other.buffer.PoolRepr()
      ensures blockIndex == old(other.blockIndex) && fileOffset == old(other.fileOffset)
      ensures validBytes == old(other.validBytes) && buffer == old(buffer) && buffer.Owns()
      ensures buffer.pool == old(other.buffer.pool) && buffer.index == old(other.buffer.index)
      ensures this != other ==> other.blockIndex == other.fileOffset == other.validBytes == 0 && other.buffer.pool == null
      ensures this != other && old(buffer.pool) != null && old(buffer.pool) == old(other.buffer.pool) ==>
                buffer.pool.leases == (old(buffer.pool.leases) - {old(buffer.index)})[buffer.index := buffer]
      ensures this != other && old(buffer.pool) != null && old(buffer.pool) != old(other.buffer.pool) ==>
                old(buffer.pool).leases == old(buffer.pool.leases) - {old(buffer.index)}
    {
      hide Bookkeeping, AlignedBufferPool.Valid;
      if this != other {
        TakeMetadata(other);
        buffer.Assign(other.buffer);
      }
    }

    /** The exchange of the metadata; the handles are not in the write frame. */
    method TakeMetadata(other: BlockWorkItem)
      requires this != other
      modifies this`blockIndex, this`fileOffset, this`validBytes
      modifies other`blockIndex, other`fileOffset, other`validBytes
      ensures blockIndex == old(other.blockIndex) && fileOffset == old(other.fileOffset)
      ensures validBytes == old(other.validBytes)
      ensures other.blockIndex == other.fileOffset == other.validBytes == 0
    {
      blockIndex, fileOffset, validBytes := other.blockIndex, other.fileOffset, other.validBytes;
      other.blockIndex, other.fileOffset, other.validBytes := 0, 0, 0;
    }

    /** Only the bytes the reader produced are visible. */
    function ValidData(): (r: seq<byte>)
      reads this, buffer, if buffer.pool == null then [] else buffer.pool.buffers
      requires buffer.pool != null && buffer.index < |buffer.pool.buffers|
      requires validBytes <= buffer.pool.buffers[buffer.index].Length
      ensures |r| == validBytes && r <= buffer.pool.buffers[buffer.index][..]
    {
      buffer.pool.buffers[buffer.index][..validBytes]
    }
  }
}
