/** Size-classed buffer pools: `ChunkPool` for outbound chunks, `RightSizedPool` and
    `AdaptiveBufferPool` for receive buffers. */
module Pools {
  import opened Common

  /** An owned byte vector: its allocation, the allocation's capacity, and the bytes in it. */
  datatype Vec = Vec(id: nat, cap: nat, data: Bytes) {
    predicate Valid() { |data| <= cap }
  }

  const CHUNK_CLASSES: seq<nat> := [1024, 2048, 4096, 8192, 16384, 32768, 65536]
  const RIGHT_SIZED_CLASSES: seq<nat> := [16 * 1024, 64 * 1024, 256 * 1024, 1024 * 1024, 4 * 1024 * 1024]
  const RIGHT_SIZED_MAX: nat := 256

  function BucketRoom(bucket: nat): nat { RIGHT_SIZED_MAX }

  predicate Increasing(classes: seq<nat>) {
    forall i, j :: 0 <= i < j < |classes| ==> classes[i] < classes[j]
  }

  /** `position`: the smallest class that holds `len`. */
  function ClassFor(classes: seq<nat>, len: nat): (r: Option<nat>)
    ensures r.Some? ==> r.value < |classes| && len <= classes[r.value]
    ensures r.Some? ==> forall i :: 0 <= i < r.value ==> classes[i] < len
    ensures r.None? ==> forall i :: 0 <= i < |classes| ==> classes[i] < len
  {
    if classes == [] then None
    else if len <= classes[0] then Some(0)
    else
      var r := ClassFor(classes[1..], len);
      if r.Some? then Some(r.value + 1) else None
  }

  /** `rposition`, behind the cut at the largest class: the largest class the capacity covers. */
  function ClassCovered(classes: seq<nat>, cap: nat): (r: Option<nat>)
    ensures r.Some? ==> r.value < |classes| && classes[r.value] <= cap <= classes[|classes| - 1]
    ensures r.Some? ==> forall i :: r.value < i < |classes| ==> cap < classes[i]
    ensures r.None? ==> classes == [] || cap > classes[|classes| - 1] || forall i :: 0 <= i < |classes| ==> cap < classes[i]
  {
    if classes == [] || cap > classes[|classes| - 1] then None else LastCovered(classes, cap)
  }

  function LastCovered(classes: seq<nat>, cap: nat): (r: Option<nat>)
    ensures r.Some? ==> r.value < |classes| && classes[r.value] <= cap
    ensures r.Some? ==> forall i :: r.value < i < |classes| ==> cap < classes[i]
    ensures r.None? ==> forall i :: 0 <= i < |classes| ==> cap < classes[i]
  {
    if classes == [] then None
    else if classes[|classes| - 1] <= cap then Some(|classes| - 1)
    else LastCovered(classes[..|classes| - 1], cap)
  }

  /** A buffer is filed under a class it covers, so whoever asks for that class can have it. */
  ghost predicate Filed(classes: seq<nat>, bins: seq<seq<Vec>>) {
    && |bins| == |classes|
    && forall i, j :: 0 <= i < |bins| && 0 <= j < |bins[i]| ==> bins[i][j].Valid() && classes[i] <= bins[i][j].cap
  }

  /** Filing by `ClassCovered` and searching from `ClassFor` upward fit together: whatever is
      found has room. */
  lemma FoundFits(classes: seq<nat>, bins: seq<seq<Vec>>, len: nat, i: nat, j: nat)
    requires Increasing(classes) && Filed(classes, bins)
    requires ClassFor(classes, len).Some? && ClassFor(classes, len).value <= i < |bins| && j < |bins[i]|
    ensures len <= bins[i][j].cap
  {
    var k := ClassFor(classes, len).value;
    assert k < i ==> classes[k] < classes[i];
  }

  /** The first bin from `start` on that has a buffer. */
  function FirstStocked(bins: seq<seq<Vec>>, start: nat): (i: nat)
    requires start <= |bins|
    ensures start <= i <= |bins| && (i < |bins| ==> bins[i] != [])
    ensures forall k :: start <= k < i ==> bins[k] == []
    decreases |bins| - start
  {
    if start == |bins| || bins[start] != [] then start else FirstStocked(bins, start + 1)
  }

  /** Exactly the last buffer of bin `i` is gone. */
  function Popped(bins: seq<seq<Vec>>, i: nat): (r: seq<seq<Vec>>)
    requires i < |bins| && bins[i] != []
    ensures |r| == |bins| && r[i] + [bins[i][|bins[i]| - 1]] == bins[i]
    ensures forall k :: 0 <= k < |bins| && k != i ==> r[k] == bins[k]
  {
    bins[i := bins[i][..|bins[i]| - 1]]
  }

  lemma PoppedIsFiled(classes: seq<nat>, bins: seq<seq<Vec>>, i: nat)
    requires Filed(classes, bins) && i < |bins| && bins[i] != []
    ensures Filed(classes, Popped(bins, i))
  {
  }

  function Zeros(n: nat): Bytes {
    seq(n, _ => 0)
  }

  /** Where a request for `len` bytes is served from; past the last bin when nothing can be
      reused. */
  function Source(classes: seq<nat>, bins: seq<seq<Vec>>, len: nat): (i: nat)
    requires |bins| == |classes|
    ensures i < |bins| ==> bins[i] != []
  {
    var start := ClassFor(classes, len);
    if start.Some? then FirstStocked(bins, start.value) else |bins|
  }

  /** The search of both pools: the request's own class, then the larger ones. */
  method Search(classes: seq<nat>, bins: seq<seq<Vec>>, len: nat) returns (i: nat)
    requires Increasing(classes) && Filed(classes, bins)
    ensures i == Source(classes, bins, len)
    ensures i < |bins| ==> len <= bins[i][|bins[i]| - 1].cap
  {
    var start := ClassFor(classes, len);
    if start.None? {
      return |bins|;
    }
    i := start.value;
    while i < |bins| && bins[i] == []
      invariant start.value <= i <= |bins| && FirstStocked(bins, start.value) == FirstStocked(bins, i)
    {
      i := i + 1;
    }
    if i < |bins| {
      FoundFits(classes, bins, len, i, |bins[i]| - 1);
    }
  }

  /** The allocator: an empty vector with at least the capacity asked for. */
  ghost predicate Allocates(allocate: nat -> Vec) {
    forall n :: allocate(n).data == [] && allocate(n).cap >= n
  }

  /** `buf` holds `data` in an allocation taken from the pool where the pool has one that
      fits, and in a new one otherwise. Reuse keeps the allocation and its capacity. */
  ghost predicate Served(classes: seq<nat>, was: seq<seq<Vec>>, now: seq<seq<Vec>>, data: Bytes, buf: Vec, reused: bool)
    requires |was| == |classes|
  {
    && buf.Valid() && buf.data == data
    && var i := if data == [] then |was| else Source(classes, was, |data|);
       if i < |was|
       then reused && now == Popped(was, i) && buf == was[i][|was[i]| - 1].(data := data)
       else !reused && now == was
  }

  /** Bin `i` is the one for a buffer of this capacity, and has room. */
  predicate Fits(classes: seq<nat>, bins: seq<seq<Vec>>, cap: nat, i: nat, room: nat -> nat) {
    && i < |classes| && i < |bins| && classes[i] <= cap && cap <= classes[|classes| - 1]
    && (i + 1 < |classes| ==> cap < classes[i + 1]) && |bins[i]| < room(i)
  }

  lemma OnlyBin(classes: seq<nat>, bins: seq<seq<Vec>>, cap: nat, room: nat -> nat)
    requires Increasing(classes) && |bins| == |classes|
    ensures forall i: nat :: Fits(classes, bins, cap, i, room) <==> ClassCovered(classes, cap) == Some(i) && |bins[i]| < room(i)
  {
    forall i | 0 <= i < |classes| && classes[i] <= cap <= classes[|classes| - 1] && (i + 1 < |classes| ==> cap < classes[i + 1])
      ensures ClassCovered(classes, cap) == Some(i)
    {
      assert forall j :: i < j < |classes| ==> classes[i + 1] <= classes[j];
    }
  }

  /** A returned buffer is filed under the class it covers, if that bin has room. */
  function File(classes: seq<nat>, room: nat -> nat, bins: seq<seq<Vec>>, buf: Vec): (r: seq<seq<Vec>>)
    requires |bins| == |classes|
    ensures |r| == |bins|
  {
    var bin := ClassCovered(classes, buf.cap);
    if bin.Some? && |bins[bin.value]| < room(bin.value) then bins[bin.value := bins[bin.value] + [buf]] else bins
  }

  function FileAll(classes: seq<nat>, room: nat -> nat, bins: seq<seq<Vec>>, bufs: seq<Vec>): (r: seq<seq<Vec>>)
    requires |bins| == |classes|
    ensures |r| == |bins|
    decreases |bufs|
  {
    if bufs == [] then bins else FileAll(classes, room, File(classes, room, bins, bufs[0]), bufs[1..])
  }

  /** A bounded channel; a full one does not take the buffer. */
  class Channel {
    var queue: seq<Vec>
    const capacity: nat

    constructor (capacity: nat)
      ensures queue == [] && this.capacity == capacity
    {
      queue, this.capacity := [], capacity;
    }

    method TrySend(buf: Vec) returns (ok: bool)
      modifies this
      ensures ok == (|old(queue)| < capacity)
      ensures queue == if ok then old(queue) + [buf] else old(queue)
    {
      ok := |queue| < capacity;
      if ok {
        queue := queue + [buf];
      }
    }
  }

  ghost predicate AllValid(bufs: seq<Vec>) {
    forall i :: 0 <= i < |bufs| ==> bufs[i].Valid()
  }

  class ChunkPool {
    var bins: seq<seq<Vec>>
    const maxPerBin: nat

    function MaxEntries(bin: nat): nat {
      if bin >= |CHUNK_CLASSES| then 0
      else if CHUNK_CLASSES[bin] <= 4096 then maxPerBin else Max(maxPerBin / 8, 1)
    }

    ghost predicate Valid()
      reads this
    {
      && Filed(CHUNK_CLASSES, bins)
      && forall i :: 0 <= i < |bins| ==> |bins[i]| <= MaxEntries(i)
    }

    constructor (max: nat)
      ensures Valid() && maxPerBin == max && forall i :: 0 <= i < |bins| ==> bins[i] == []
    {
      maxPerBin := max;
      bins := seq(|CHUNK_CLASSES|, _ => []);
    }

    /** The search shared by both checkouts: this bin, then the larger ones. */
    method CheckoutEmpty(len: nat, allocate: nat -> Vec) returns (buf: Vec, reused: bool)
      requires Valid() && Allocates(allocate)
      modifies `bins
      ensures Valid() && buf.Valid() && buf.data == [] && len <= buf.cap
      ensures var i := if len == 0 then |CHUNK_CLASSES| else Source(CHUNK_CLASSES, old(bins), len);
              if i < |CHUNK_CLASSES|
              then reused && bins == Popped(old(bins), i) && buf == old(bins)[i][|old(bins)[i]| - 1].(data := [])
              else !reused && bins == old(bins)
      // a new allocation covers its class, so that it can be filed there when it comes back
      ensures !reused && len > 0 && ClassFor(CHUNK_CLASSES, len).Some? ==> CHUNK_CLASSES[ClassFor(CHUNK_CLASSES, len).value] <= buf.cap
    {
      if len == 0 {
        return allocate(0), false;
      }
      var idx := Search(CHUNK_CLASSES, bins, len);
      if idx == |bins| {
        var bin := ClassFor(CHUNK_CLASSES, len);
        return allocate(if bin.Some? then CHUNK_CLASSES[bin.value] else len), false;
      }
      PoppedIsFiled(CHUNK_CLASSES, bins, idx);
      buf := bins[idx][|bins[idx]| - 1].(data := []);
      bins := Popped(bins, idx);
      reused := true;
    }

    /** `checkout`: `len` zeros. */
    method Checkout(len: nat, allocate: nat -> Vec) returns (buf: Vec, reused: bool)
      requires Valid() && Allocates(allocate)
      modifies `bins
      ensures Valid() && Served(CHUNK_CLASSES, old(bins), bins, Zeros(len), buf, reused)
    {
      buf, reused := CheckoutEmpty(len, allocate);
      buf := buf.(data := Zeros(len));
    }

    /** `checkout_copy`: exactly the copied bytes. */
    method CheckoutCopy(data: Bytes, allocate: nat -> Vec) returns (buf: Vec, reused: bool)
      requires Valid() && Allocates(allocate)
      modifies `bins
      ensures Valid() && Served(CHUNK_CLASSES, old(bins), bins, data, buf, reused)
    {
      buf, reused := CheckoutEmpty(|data|, allocate);
      buf := buf.(data := buf.data + data);
    }

    /** `checkin`: dropped when too small, too large, or its bin is full. */
    method Checkin(buf: Vec) returns (kept: bool)
      requires Valid() && buf.Valid()
      modifies `bins
      ensures Valid() && bins == File(CHUNK_CLASSES, MaxEntries, old(bins), buf)
      ensures kept <==> bins != old(bins)
      ensures kept <==> exists i: nat :: Fits(CHUNK_CLASSES, old(bins), buf.cap, i, MaxEntries)
      ensures forall i: nat :: Fits(CHUNK_CLASSES, old(bins), buf.cap, i, MaxEntries) ==> bins == old(bins)[i := old(bins)[i] + [buf]]
    {
      var bin := ClassCovered(CHUNK_CLASSES, buf.cap);
      OnlyBin(CHUNK_CLASSES, bins, buf.cap, MaxEntries);
      if bin.Some? && |bins[bin.value]| < MaxEntries(bin.value) {
        bins := bins[bin.value := bins[bin.value] + [buf]];
        assert |bins[bin.value]| != |old(bins)[bin.value]|;
        return true;
      }
      return false;
    }

    /** `drain_returned`: every returned buffer, in the order of return. */
    method DrainReturned(rx: Channel)
      requires Valid() && AllValid(rx.queue)
      modifies `bins, rx
      ensures Valid() && rx.queue == []
      ensures bins == FileAll(CHUNK_CLASSES, MaxEntries, old(bins), old(rx.queue))
    {
      while rx.queue != []
        invariant Valid() && AllValid(rx.queue)
        invariant FileAll(CHUNK_CLASSES, MaxEntries, bins, rx.queue) ==
                  FileAll(CHUNK_CLASSES, MaxEntries, old(bins), old(rx.queue))
        decreases |rx.queue|
      {
        var buf := rx.queue[0];
        rx.queue := rx.queue[1..];
        var _ := Checkin(buf);
      }
    }
  }

  /** An outbound payload. It owns its vector until one of the consuming methods moves it out;
      `poolReturn` is its way back to the pool. */
  class Chunk {
    var data: Vec
    var offset: nat
    var poolReturn: Option<Channel>

    ghost predicate Valid()
      reads this
    {
      data.Valid() && offset <= |data.data|
    }

    ghost function Remaining(): Bytes
      requires Valid()
      reads this
    {
      data.data[offset..]
    }

    constructor (v: Vec, home: Option<Channel>)
      requires v.Valid()
      ensures Valid() && data == v && offset == 0 && poolReturn == home && Remaining() == v.data
    {
      data, offset, poolReturn := v, 0, home;
    }

    method Advance(n: nat)
      requires Valid() && n <= |Remaining()|
      modifies `offset
      ensures Valid() && Remaining() == old(Remaining())[n..]
    {
      offset := offset + n;
    }

    /** `append`: the written front is dropped first; `grown` is what the vector becomes when
        it has to grow. */
    method Append(bytes: Bytes, grown: nat -> Vec)
      requires Valid() && forall n :: grown(n).cap >= n
      modifies `data, `offset
      ensures Valid() && Remaining() == old(Remaining()) + bytes
      ensures |old(Remaining())| + |bytes| <= old(data.cap) ==> data.id == old(data.id) && data.cap == old(data.cap)
    {
      if bytes == [] {
        return;
      }
      if offset > 0 {
        data := data.(data := data.data[offset..]);
        offset := 0;
      }
      var all := data.data + bytes;
      data := if |all| <= data.cap then data.(data := all) else grown(|all|).(data := all);
    }

    /** `into_raw_parts`: vector, offset and the way back move out together. */
    method IntoRawParts() returns (v: Vec, o: nat, home: Option<Channel>)
      requires Valid()
      modifies this
      ensures v == old(data) && o == old(offset) && home == old(poolReturn) && v.data[o..] == old(Remaining())
      ensures Valid() && Spent()
    {
      v, o, home := data, offset, poolReturn;
      data, offset, poolReturn := Vec(0, 0, []), 0, None;
    }

    /** `into_vec`: the whole vector, for the caller to keep. */
    method IntoVec() returns (v: Vec)
      requires Valid()
      modifies this
      ensures v == old(data) && Valid() && Spent()
    {
      v := data;
      data, offset, poolReturn := Vec(0, 0, []), 0, None;
    }

    /** `into_remaining_vec`: the unwritten bytes, for the caller to keep. At offset 0 the
        allocation itself moves out, otherwise a copy does. */
    method IntoRemainingVec(copy: Bytes -> Vec) returns (v: Vec)
      requires Valid() && forall b :: copy(b).data == b
      modifies this
      ensures v.data == old(Remaining()) && (old(offset) == 0 ==> v == old(data))
      ensures Valid() && Spent()
    {
      v := if offset == 0 then data else copy(data.data[offset..]);
      data, offset, poolReturn := Vec(0, 0, []), 0, None;
    }

    /** Moved out: dropping it now does nothing. */
    ghost predicate Spent()
      reads this
    {
      poolReturn == None && data.data == []
    }

    /** `drop`: the vector goes back emptied, if there is a way back and room, and at most once. */
    method Drop() returns (sent: bool)
      requires Valid()
      modifies this, if poolReturn.Some? then {poolReturn.value} else {}
      ensures Valid() && Spent()
      ensures sent <==> old(poolReturn).Some? && |old(poolReturn.value.queue)| < old(poolReturn).value.capacity
      ensures old(poolReturn).Some? ==>
        old(poolReturn).value.queue ==
          (if sent then old(poolReturn.value.queue) + [old(data).(data := [])] else old(poolReturn.value.queue))
    {
      sent := false;
      if poolReturn.Some? {
        sent := poolReturn.value.TrySend(data.(data := []));
      }
      data, offset, poolReturn := Vec(0, 0, []), 0, None;
    }
  }

  /** The process-wide pool behind the per-connection ones. */
  class RightSizedPool {
    var buckets: seq<seq<Vec>>

    ghost predicate Valid()
      reads this
    {
      && Filed(RIGHT_SIZED_CLASSES, buckets)
      && forall i :: 0 <= i < |buckets| ==> |buckets[i]| <= RIGHT_SIZED_MAX
    }

    constructor ()
      ensures Valid() && forall i :: 0 <= i < |buckets| ==> buckets[i] == []
    {
      buckets := seq(|RIGHT_SIZED_CLASSES|, _ => []);
    }

    /** `take`: the capacity test after each pop never fails, so no popped buffer is lost. */
    method Take(len: nat) returns (buf: Option<Vec>)
      requires Valid()
      modifies this
      ensures Valid()
      ensures var i := Source(RIGHT_SIZED_CLASSES, old(buckets), len);
              if i < |RIGHT_SIZED_CLASSES|
              then && buckets == Popped(old(buckets), i)
                   && buf == Some(old(buckets)[i][|old(buckets)[i]| - 1].(data := []))
                   && len <= buf.value.cap
              else buckets == old(buckets) && buf == None
    {
      var idx := Search(RIGHT_SIZED_CLASSES, buckets, len);
      if idx == |buckets| {
        return None;
      }
      PoppedIsFiled(RIGHT_SIZED_CLASSES, buckets, idx);
      var taken := buckets[idx][|buckets[idx]| - 1].(data := []);
      buckets := Popped(buckets, idx);
      // the source goes on searching where this test fails; it never does
      buf := if taken.cap >= len then Some(taken) else None;
    }

    method Recycle(buf: Vec) returns (kept: bool)
      requires Valid() && buf.Valid()
      modifies this
      ensures Valid() && buckets == File(RIGHT_SIZED_CLASSES, BucketRoom, old(buckets), buf.(data := []))
      ensures kept <==> buckets != old(buckets)
      ensures kept <==> exists i: nat :: Fits(RIGHT_SIZED_CLASSES, old(buckets), buf.cap, i, BucketRoom)
      ensures forall i: nat :: Fits(RIGHT_SIZED_CLASSES, old(buckets), buf.cap, i, BucketRoom) ==>
        buckets == old(buckets)[i := old(buckets)[i] + [buf.(data := [])]]
    {
      var index := ClassCovered(RIGHT_SIZED_CLASSES, buf.cap);
      OnlyBin(RIGHT_SIZED_CLASSES, buckets, buf.cap, BucketRoom);
      if index.None? || |buckets[index.value]| >= RIGHT_SIZED_MAX {
        return false;
      }
      buckets := buckets[index.value := buckets[index.value] + [buf.(data := [])]];
      assert |buckets[index.value]| != |old(buckets)[index.value]|;
      return true;
    }
  }

  /** `rposition` of a buffer with room, or the length of the list. */
  function LastFitting(bufs: seq<Vec>, len: nat): (i: nat)
    ensures i <= |bufs| && (i < |bufs| ==> bufs[i].cap >= len)
    ensures forall k :: 0 <= k < |bufs| && (i == |bufs| || k > i) ==> bufs[k].cap < len
  {
    if bufs == [] then 0
    else
      var n := |bufs| - 1;
      if bufs[n].cap >= len then n
      else
        var i := LastFitting(bufs[..n], len);
        if i < n then i else |bufs|
  }

  /** `swap_remove`: the last buffer takes the place of the removed one. */
  function SwapRemove(bufs: seq<Vec>, i: nat): seq<Vec>
    requires i < |bufs|
  {
    bufs[i := bufs[|bufs| - 1]][..|bufs| - 1]
  }

  /** Nothing but the removed buffer is lost. */
  lemma SwapRemoveKeepsTheRest(bufs: seq<Vec>, i: nat)
    requires i < |bufs|
    ensures multiset(SwapRemove(bufs, i)) + multiset{bufs[i]} == multiset(bufs)
  {
    var n := |bufs| - 1;
    var swapped := bufs[i := bufs[n]];
    assert swapped == swapped[..n] + [swapped[n]];
    assert multiset(swapped) == multiset(bufs) - multiset{bufs[i]} + multiset{bufs[n]};
  }

  /** Where a receive buffer for `data` comes from: the last own buffer with room, the shared
      pool, or the allocator. Reuse keeps the allocation and its capacity. */
  ghost predicate Provided(was: seq<Vec>, now: seq<Vec>, wasShared: seq<seq<Vec>>, nowShared: seq<seq<Vec>>, len: nat,
                           fallback: Vec, data: Bytes, buf: Vec, reused: bool)
    requires |wasShared| == |RIGHT_SIZED_CLASSES|
  {
    && len <= buf.cap
    && var i, k := LastFitting(was, len), Source(RIGHT_SIZED_CLASSES, wasShared, len);
       if i < |was| then
         reused && buf == was[i].(data := data) && now == SwapRemove(was, i) && nowShared == wasShared
       else if k < |wasShared| then
         && reused && buf == wasShared[k][|wasShared[k]| - 1].(data := data)
         && now == was && nowShared == Popped(wasShared, k)
       else
         !reused && buf == fallback.(data := data) && now == was && nowShared == wasShared
  }

  /** A connection's receive buffers. */
  class AdaptiveBufferPool {
    var buffers: seq<Vec>
    const maxBuffers: nat
    const minCapacity: nat
    const shared: RightSizedPool

    /** `saturating_mul(4)`, taking the machine word as unbounded. */
    function MaxRetain(): nat { 4 * minCapacity }

    predicate Retains(buf: Vec) { minCapacity <= buf.cap <= MaxRetain() }

    ghost predicate Valid()
      reads this, shared
    {
      && shared.Valid()
      && |buffers| <= maxBuffers
      && forall i :: 0 <= i < |buffers| ==> Retains(buffers[i]) && buffers[i].data == []
    }

    constructor (max: nat, min: nat, global: RightSizedPool)
      requires global.Valid()
      ensures Valid() && buffers == [] && shared == global && maxBuffers == max && minCapacity == min
    {
      buffers, maxBuffers, minCapacity, shared := [], max, min, global;
    }

    /** `checkout_empty_vec`: the most recent own buffer with room, then the shared pool, then
        the allocator. */
    method CheckoutEmpty(len: nat, allocate: nat -> Vec) returns (buf: Vec, reused: bool)
      requires Valid() && Allocates(allocate)
      modifies `buffers, shared
      ensures Valid() && Provided(old(buffers), buffers, old(shared.buckets), shared.buckets, len,
                                  allocate(Max(len, minCapacity)), [], buf, reused)
    {
      var index := FindFitting(len);
      if index < |buffers| {
        buf := buffers[index];
        buffers := SwapRemove(buffers, index);
        return buf.(data := []), true;
      }
      var taken := shared.Take(len);
      if taken.Some? {
        return taken.value, true;
      }
      return allocate(Max(len, minCapacity)), false;
    }

    /** The search from the back. */
    method FindFitting(len: nat) returns (index: nat)
      ensures index == LastFitting(buffers, len)
    {
      var n: nat := |buffers|;
      while n > 0 && buffers[n - 1].cap < len
        invariant n <= |buffers|
        invariant LastFitting(buffers, len) == if LastFitting(buffers[..n], len) < n then LastFitting(buffers[..n], len) else |buffers|
      {
        assert buffers[..n][..n - 1] == buffers[..n - 1];
        n := n - 1;
      }
      index := if n > 0 then n - 1 else |buffers|;
    }

    /** `checkout`: `len` zeros, whatever the buffer held before. */
    method Checkout(len: nat, allocate: nat -> Vec) returns (buf: Vec, reused: bool)
      requires Valid() && Allocates(allocate)
      modifies `buffers, shared
      ensures Valid() && buf.Valid()
      ensures Provided(old(buffers), buffers, old(shared.buckets), shared.buckets, len,
                       allocate(Max(len, minCapacity)), Zeros(len), buf, reused)
    {
      buf, reused := CheckoutEmpty(len, allocate);
      buf := buf.(data := Zeros(len));
    }

    method CopyFromSlice(data: Bytes, allocate: nat -> Vec) returns (buf: Vec, reused: bool)
      requires Valid() && Allocates(allocate)
      modifies `buffers, shared
      ensures Valid() && buf.Valid()
      ensures Provided(old(buffers), buffers, old(shared.buckets), shared.buckets, |data|,
                       allocate(Max(|data|, minCapacity)), data, buf, reused)
    {
      buf, reused := CheckoutEmpty(|data|, allocate);
      buf := buf.(data := buf.data + data);
    }

    /** `checkin`: kept here if it is of a size to keep and there is room, offered to the shared
        pool otherwise. */
    method Checkin(buf: Vec) returns (kept: bool)
      requires Valid() && buf.Valid()
      modifies `buffers, shared
      ensures Valid()
      ensures if Retains(buf) && |old(buffers)| < maxBuffers
              then kept && buffers == old(buffers) + [buf.(data := [])] && shared.buckets == old(shared.buckets)
              else && buffers == old(buffers)
                   && shared.buckets == File(RIGHT_SIZED_CLASSES, BucketRoom, old(shared.buckets), buf.(data := []))
                   && (kept <==> shared.buckets != old(shared.buckets))
    {
      if buf.cap < minCapacity || buf.cap > MaxRetain() {
        kept := shared.Recycle(buf);
        return;
      }
      if |buffers| >= maxBuffers {
        kept := shared.Recycle(buf);
        return;
      }
      buffers := buffers + [buf.(data := [])];
      kept := true;
    }
  }

  /** `BufferRecycler.recycle`: the channel first, the shared pool when it is full or gone. A
      buffer is dropped only when both refuse it. */
  method RecycleReceived(tx: Channel, connected: bool, shared: RightSizedPool, buf: Vec) returns (kept: bool)
    requires shared.Valid() && buf.Valid()
    modifies tx, shared
    ensures shared.Valid()
    ensures if connected && |old(tx.queue)| < tx.capacity
            then kept && tx.queue == old(tx.queue) + [buf] && shared.buckets == old(shared.buckets)
            else && tx.queue == old(tx.queue)
                 && shared.buckets == File(RIGHT_SIZED_CLASSES, BucketRoom, old(shared.buckets), buf.(data := []))
                 && (kept <==> shared.buckets != old(shared.buckets))
  {
    var sent := false;
    if connected {
      sent := tx.TrySend(buf);
    }
    if sent {
      return true;
    }
    kept := shared.Recycle(buf);
  }
}
