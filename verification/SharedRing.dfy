/** The code of the ring buffers: header fields and float array updated in place, proved against `RingSpec`. */
module SharedRing {
  import opened Arith
  import opened RingSpec

  // Copies.

  /** `memcpy` of `src` into `dst` from index `at` on. */
  method CopyIn(dst: array<real>, at: nat, src: seq<real>)
    requires at + |src| <= dst.Length
    modifies dst
    ensures dst[..] == old(dst[..at]) + src + old(dst[at + |src|..])
  {
    for k := 0 to |src|
      invariant forall j :: 0 <= j < dst.Length ==> dst[j] == if at <= j < at + k then src[j - at] else old(dst[j])
    {
      dst[at + k] := src[k];
    }
  }

  lemma OffsetOf(w: nat, j: nat, cap: nat)
    requires j < cap
    ensures (j - w) % cap == if j >= w % cap then j - w % cap else j - w % cap + cap
  {
    ModOf(w, cap);
    if j >= w % cap {
      ModUnique(j - w, -(w / cap), j - w % cap, cap);
    } else {
      ModUnique(j - w, -(w / cap) - 1, j - w % cap + cap, cap);
    }
  }

  function FirstChunk(p: nat, n: nat, cap: nat): (first: nat)
    requires cap > 0
    ensures p % cap + first <= cap && first <= n
    ensures n <= cap ==> n - first <= p % cap
  {
    if n < cap - p % cap then n else cap - p % cap
  }

  /** One slot after the two chunks of a write. */
  lemma SlotAfterChunks(data: seq<real>, w: nat, xs: seq<real>, i: nat, first: nat, once: seq<real>, j: nat)
    requires j < |data| && |xs| <= |data|
    requires i == w % |data| && first == FirstChunk(w, |xs|, |data|)
    requires once == data[..i] + xs[..first] + data[i + first..]
    ensures |once| == |data|
    ensures (xs[first..] + once[|xs| - first..])[j] == Stored(data, w, xs)[j]
  {
    OffsetOf(w, j, |data|);
    var k := (j - w) % |data|;
    var n := |data|;
    assert k == if j >= i then j - i else j - i + n;
    assert Stored(data, w, xs)[j] == if k < |xs| then xs[k] else data[j];
  }

  /** The two chunks of a write put every sample where the modular index says. */
  lemma ChunksStore(data: seq<real>, w: nat, xs: seq<real>, i: nat, first: nat, once: seq<real>)
    requires 0 < |data| && |xs| <= |data|
    requires i == w % |data| && first == FirstChunk(w, |xs|, |data|)
    requires once == data[..i] + xs[..first] + data[i + first..]
    ensures |once| == |data| && xs[first..] + once[|xs| - first..] == Stored(data, w, xs)
  {
    hide FirstChunk, Stored;
    assert |once| == |data|;
    forall j | 0 <= j < |data|
      ensures (xs[first..] + once[|xs| - first..])[j] == Stored(data, w, xs)[j]
    {
      SlotAfterChunks(data, w, xs, i, first, once, j);
    }
  }

  /** The copying part of a write: to the end of the array, then from its start. */
  method StoreBlock(data: array<real>, w: nat, block: seq<real>)
    requires 0 < data.Length && |block| <= data.Length
    modifies data
    ensures data[..] == Stored(old(data[..]), w, block)
  {
    hide Stored, FirstChunk;
    var wIndex := w % data.Length;
    var first := FirstChunk(w, |block|, data.Length);
    var second := |block| - first;
    CopyIn(data, wIndex, block[..first]);
    ChunksStore(old(data[..]), w, block, wIndex, first, data[..]);
    if second > 0 {
      CopyIn(data, 0, block[first..]);
    }
  }

  /** `n` samples from position `r` on. */
  function Window(data: seq<real>, r: nat, n: nat): (xs: seq<real>)
    requires 0 < |data|
    ensures |xs| == n
  {
    seq(n, k requires 0 <= k < n => data[(r + k) % |data|])
  }

  lemma SlotInChunks(data: seq<real>, r: nat, n: nat, i: nat, first: nat, k: nat)
    requires k < n <= |data| && i == r % |data| && first == FirstChunk(r, n, |data|)
    ensures (data[i..i + first] + data[..n - first])[k] == Window(data, r, n)[k]
  {
    ModChunk(r, k, |data|);
  }

  /** The two chunks of a read are the oldest samples in order. */
  lemma ChunksTake(data: seq<real>, r: nat, n: nat, i: nat, first: nat)
    requires 0 < |data| && n <= |data| && i == r % |data| && first == FirstChunk(r, n, |data|)
    ensures data[i..i + first] + data[..n - first] == Window(data, r, n)
  {
    hide FirstChunk, Window;
    forall k | 0 <= k < n
      ensures (data[i..i + first] + data[..n - first])[k] == Window(data, r, n)[k]
    {
      SlotInChunks(data, r, n, i, first, k);
    }
  }

  lemma TakenIsWindow(s: Ring, n: nat)
    requires s.Ok() && CanRead(s, n)
    ensures Taken(s, n) == Window(s.data, s.readPos, n)
  {
  }

  /** The copying part of a read. */
  method TakeBlock(data: array<real>, r: nat, n: nat, output: array<real>)
    requires 0 < data.Length && n <= data.Length && n <= output.Length && output != data
    modifies output
    ensures output[..] == Window(data[..], r, n) + old(output[n..])
  {
    hide Window, FirstChunk;
    var rIndex := r % data.Length;
    var first := FirstChunk(r, n, data.Length);
    var second := n - first;
    ChunksTake(data[..], r, n, rIndex, first);
    CopyIn(output, 0, data[rIndex..rIndex + first]);
    if second > 0 {
      CopyIn(output, first, data[..second]);
    }
  }

  /** The mapped shared memory: header and float array. */
  class Segment {
    var writePos: nat
    var readPos: nat
    var capacity: nat
    var channels: nat
    var sampleRate: nat
    var active: bool
    var heartbeat: nat
    const data: array<real>

    function Value(): Ring
      reads this, data
    {
      Ring(capacity, writePos, readPos, active, heartbeat, data[..])
    }

    constructor (capacity: nat, channels: nat, sampleRate: nat)
      requires capacity > 0
      ensures fresh(data)
      ensures Value() == Ring(capacity, 0, 0, true, 0, data[..]) && Value().Ok()
      ensures this.channels == channels && this.sampleRate == sampleRate
    {
      writePos, readPos := 0, 0;
      this.capacity, this.channels, this.sampleRate := capacity, channels, sampleRate;
      active, heartbeat := true, 0;
      data := new real[capacity];
    }
  }

  /** The one POSIX shared-memory name of the application. */
  class Name {
    var entry: Segment?

    ghost function Memory(): set<object>
      reads this
    {
      if entry == null then {} else {entry, entry.data}
    }

    ghost predicate Valid()
      reads this, Memory()
    {
      entry != null ==> entry.Value().Ok()
    }

    constructor ()
      ensures entry == null
    {
      entry := null;
    }
  }

  class SharedRingBuffer {
    var segment: Segment?
    const isCreator: bool
    const name: Name

    /** The objects a call on this buffer may touch. */
    ghost function Memory(): set<object>
      reads this
    {
      if segment == null then {} else {segment, segment.data}
    }

    ghost predicate Valid()
      reads this, Memory()
    {
      segment != null ==> segment.Value().Ok()
    }

    predicate IsValid()
      reads this
    {
      segment != null
    }

    /** Producer: the name is unlinked first; `works` says whether opening, sizing and mapping the new object all succeed. */
    constructor Create(name: Name, capacity: nat, channels: nat, sampleRate: nat, works: bool)
      requires capacity > 0
      modifies name
      ensures isCreator && this.name == name && Valid()
      ensures works ==> segment != null && fresh(segment) && fresh(segment.data) && name.entry == segment
      ensures works ==> segment.Value() == Ring(capacity, 0, 0, true, 0, segment.data[..])
      ensures works ==> segment.channels == channels && segment.sampleRate == sampleRate
      ensures !works ==> segment == null && name.entry == null
    {
      isCreator, this.name, segment := true, name, null;
      new;
      name.entry := null;
      if works {
        var s := new Segment(capacity, channels, sampleRate);
        name.entry := s;
        segment := s;
      }
    }

    /** Consumer: maps what the name leads to, if anything; `works` says whether `fstat` and `mmap` succeed. */
    constructor Open(name: Name, works: bool)
      requires name.Valid()
      ensures !isCreator && this.name == name && Valid()
      ensures segment == if works then name.entry else null
    {
      isCreator, this.name := false, name;
      segment := if works then name.entry else null;
    }

    /** The destructor: a creator marks its segment inactive and unlinks the name, whoever holds the name by then. */
    method Destroy()
      requires Valid()
      modifies this`segment, if isCreator then Memory() + {name} else {}
      ensures segment == null
      ensures var s := old(segment);
              s != null ==> s.Value() == if isCreator then old(s.Value()).(active := false) else old(s.Value())
      ensures name.entry == if isCreator then null else old(name.entry)
    {
      if isCreator && segment != null {
        segment.active := false;
      }
      segment := null;
      if isCreator {
        name.entry := null;
      }
    }

    method Write(block: seq<real>) returns (ok: bool)
      requires Valid()
      modifies Memory()
      ensures Valid() && segment == old(segment)
      ensures segment == null ==> !ok
      ensures segment != null ==>
        && ok == CanWrite(old(segment.Value()), |block|)
        && segment.Value() == RingSpec.Write(old(segment.Value()), block)
    {
      hide Stored;
      if segment == null {
        return false;
      }
      var w := segment.writePos;
      var r := segment.readPos;
      var cap := segment.capacity;
      if |block| > cap - (w - r) {
        return false;
      }
      StoreBlock(segment.data, w, block);
      segment.writePos := w + |block|;
      segment.heartbeat := segment.heartbeat + 1;
      ok := true;
    }

    method Read(output: array<real>, n: nat) returns (ok: bool)
      requires Valid() && n <= output.Length && output !in Memory()
      modifies if segment == null then {} else {segment}, output
      ensures Valid() && segment == old(segment)
      ensures segment == null ==> !ok
      ensures segment != null ==>
        && ok == CanRead(old(segment.Value()), n)
        && segment.Value() == RingSpec.Read(old(segment.Value()), n)
      ensures output[..] == if ok then Taken(old(segment.Value()), n) + old(output[n..]) else old(output[..])
    {
      hide Window, Taken;
      if segment == null {
        return false;
      }
      var r := segment.readPos;
      var w := segment.writePos;
      if n > w - r {
        return false;
      }
      TakenIsWindow(segment.Value(), n);
      TakeBlock(segment.data, r, n, output);
      segment.readPos := r + n;
      ok := true;
    }

    method Flush()
      requires Valid()
      modifies if segment == null then {} else {segment}
      ensures Valid()
      ensures segment != null ==> segment.Value() == RingSpec.Flush(old(segment.Value()))
    {
      if segment != null {
        segment.readPos := segment.writePos;
      }
    }

    method AvailableRead() returns (n: nat)
      requires Valid()
      ensures segment == null ==> n == 0
      ensures segment != null ==> n == |segment.Value().Unread()| && forall k: nat :: CanRead(segment.Value(), k) <==> k <= n
    {
      n := if segment == null then 0 else segment.writePos - segment.readPos;
    }

    method AvailableWrite() returns (n: nat)
      requires Valid()
      ensures segment == null ==> n == 0
      ensures segment != null ==> forall k: nat :: CanWrite(segment.Value(), k) <==> k <= n
    {
      n := if segment == null then 0 else segment.capacity - (segment.writePos - segment.readPos);
    }
  }

  /** The same ring inside one process. */
  class SPSCRingBuffer {
    const buffer: array<real>
    var writePos: nat
    var readPos: nat

    function Value(): Ring
      reads this, buffer
    {
      Ring(buffer.Length, writePos, readPos, true, 0, buffer[..])
    }

    ghost predicate Valid()
      reads this, buffer
    {
      Value().Ok()
    }

    constructor (capacity: nat)
      requires capacity > 0
      ensures Valid() && fresh(buffer) && buffer.Length == capacity && Value().Unread() == []
    {
      buffer := new real[capacity];
      writePos, readPos := 0, 0;
    }

    method Write(block: seq<real>) returns (ok: bool)
      requires Valid()
      modifies this, buffer
      ensures Valid() && ok == CanWrite(old(Value()), |block|)
      ensures Value() == RingSpec.Write(old(Value()), block).(heartbeat := 0)
    {
      hide Stored;
      if |block| > buffer.Length - (writePos - readPos) {
        return false;
      }
      StoreBlock(buffer, writePos, block);
      writePos := writePos + |block|;
      ok := true;
    }

    method Read(output: array<real>, n: nat) returns (ok: bool)
      requires Valid() && n <= output.Length && output != buffer
      modifies this, output
      ensures Valid() && ok == CanRead(old(Value()), n) && Value() == RingSpec.Read(old(Value()), n)
      ensures output[..] == if ok then Taken(old(Value()), n) + old(output[n..]) else old(output[..])
    {
      hide Window, Taken;
      if n > writePos - readPos {
        return false;
      }
      TakenIsWindow(Value(), n);
      TakeBlock(buffer, readPos, n, output);
      readPos := readPos + n;
      ok := true;
    }

    /** Only meaningful while neither side is in a call. */
    method Reset()
      requires Valid()
      modifies this`writePos, this`readPos
      ensures Valid() && Value() == old(Value()).(writePos := 0, readPos := 0) && Value().Unread() == []
    {
      writePos, readPos := 0, 0;
    }
  }
}
