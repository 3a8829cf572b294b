/**
 The ring in shared memory as a value: the header of the mapped segment and
 its float array, with the effect of one uninterrupted call of the producer
 or of the consumer.  `SharedRing` proves the in-place code against these
 functions and `RingProtocol` takes the calls apart into interleaved steps.
 */
module RingSpec {
  import opened Arith
  import opened Samples

  datatype Ring = Ring(capacity: nat, writePos: nat, readPos: nat, active: bool, heartbeat: nat, data: seq<real>)
  {
    ghost predicate Ok() {
      && capacity > 0
      && |data| == capacity
      && readPos <= writePos <= readPos + capacity
    }

    function Fill(): nat
      requires readPos <= writePos
    {
      writePos - readPos
    }

    /** The samples that were written and not yet read, oldest first. */
    function Unread(): seq<real>
      requires Ok()
    {
      seq(Fill(), i requires 0 <= i < Fill() => data[(readPos + i) % capacity])
    }
  }

  /** The float array after the block `xs` was copied in at position `w`, in two chunks when it straddles the end. */
  function Stored(data: seq<real>, w: nat, xs: seq<real>): (r: seq<real>)
    requires 0 < |data| && |xs| <= |data|
    ensures |r| == |data|
  {
    seq(|data|, j requires 0 <= j < |data| => var k := (j - w) % |data|; if k < |xs| then xs[k] else data[j])
  }

  lemma StoredAt(data: seq<real>, w: nat, xs: seq<real>, p: nat)
    requires 0 < |data| && |xs| <= |data|
    requires w <= p < w + |data|
    ensures Stored(data, w, xs)[p % |data|] == if p < w + |xs| then xs[p - w] else data[p % |data|]
  {
    ModOffset(w, p % |data|, p - w, |data|);
  }

  predicate CanWrite(s: Ring, n: nat)
    requires s.Ok()
  {
    n <= s.capacity - s.Fill()
  }

  predicate CanRead(s: Ring, n: nat)
    requires s.Ok()
  {
    n <= s.Fill()
  }

  /** Neither side can move: too little to read, too little room to write. */
  predicate Stuck(s: Ring, m: nat, n: nat)
    requires s.Ok()
  {
    !CanRead(s, m) && !CanWrite(s, n)
  }

  /** A segment as the producer makes it. */
  function NewRing(capacity: nat): (r: Ring)
    requires capacity > 0
    ensures r.Ok() && r.capacity == capacity && r.writePos == 0 && r.active && r.heartbeat == 0
  {
    Ring(capacity, 0, 0, true, 0, Zeros(capacity))
  }

  /** `SharedRingBuffer::write`: all of the block is stored and the heartbeat ticks, or nothing changes. */
  function Write(s: Ring, xs: seq<real>): (t: Ring)
    requires s.Ok()
    ensures t.Ok() && t.capacity == s.capacity
  {
    if CanWrite(s, |xs|) then
      s.(data := Stored(s.data, s.writePos, xs), writePos := s.writePos + |xs|, heartbeat := s.heartbeat + 1)
    else
      s
  }

  /** `SharedRingBuffer::read`: the oldest `n` samples, or nothing when fewer are there. */
  function Read(s: Ring, n: nat): (t: Ring)
    requires s.Ok()
    ensures t.Ok() && t.capacity == s.capacity
  {
    if CanRead(s, n) then s.(readPos := s.readPos + n) else s
  }

  function Taken(s: Ring, n: nat): seq<real>
    requires s.Ok() && CanRead(s, n)
  {
    s.Unread()[..n]
  }

  /** `SharedRingBuffer::flush`: read position snapped to the write position. */
  function Flush(s: Ring): (t: Ring)
    requires s.Ok()
    ensures t.Ok() && t.capacity == s.capacity
  {
    s.(readPos := s.writePos)
  }

  /** Each operation touches only its own side of the header; the heartbeat counts accepted writes. */
  lemma OwnSideOnly(s: Ring, xs: seq<real>, n: nat)
    requires s.Ok()
    ensures var t := Write(s, xs);
            && (t.capacity, t.readPos, t.active) == (s.capacity, s.readPos, s.active)
            && t.heartbeat == s.heartbeat + if CanWrite(s, |xs|) then 1 else 0
    ensures Read(s, n) == s.(readPos := Read(s, n).readPos) && Flush(s) == s.(readPos := Flush(s).readPos)
  {
    hide Stored;
  }

  /**
   The array with modular indices stands for `stream`, the concatenation of
   every block ever accepted: each unread position finds its sample in its slot.
   */
  ghost predicate Represents(s: Ring, stream: seq<real>) {
    && s.Ok()
    && |stream| == s.writePos
    && forall p :: s.readPos <= p < s.writePos ==> s.data[p % s.capacity] == stream[p]
  }

  lemma UnreadIsSlice(s: Ring, stream: seq<real>)
    requires Represents(s, stream)
    ensures s.Unread() == stream[s.readPos..]
  {
    forall i | 0 <= i < s.Fill()
      ensures s.Unread()[i] == stream[s.readPos..][i]
    {
      assert s.data[(s.readPos + i) % s.capacity] == stream[s.readPos + i];
    }
  }

  /** After a write every position that is now unread finds its sample in its slot. */
  lemma SlotAfterWrite(s: Ring, stream: seq<real>, xs: seq<real>, p: nat)
    requires Represents(s, stream) && CanWrite(s, |xs|) && s.readPos <= p < s.writePos + |xs|
    ensures Stored(s.data, s.writePos, xs)[p % s.capacity] == (stream + xs)[p]
  {
    hide Stored;
    if p >= s.writePos {
      StoredAt(s.data, s.writePos, xs, p);
    } else {
      ModOf(p, s.capacity);
      ModUnique(p + s.capacity, p / s.capacity + 1, p % s.capacity, s.capacity);
      StoredAt(s.data, s.writePos, xs, p + s.capacity);
    }
  }

  /** A write appends the whole block to the stream or leaves it alone; no unread sample is overwritten. */
  lemma WriteRepresents(s: Ring, stream: seq<real>, xs: seq<real>)
    requires Represents(s, stream)
    ensures CanWrite(s, |xs|) ==> Represents(Write(s, xs), stream + xs)
    ensures CanWrite(s, |xs|) ==> Write(s, xs).Unread() == s.Unread() + xs
    ensures !CanWrite(s, |xs|) ==> Write(s, xs) == s
  {
    hide Stored;
    if CanWrite(s, |xs|) {
      var t := Write(s, xs);
      forall p | t.readPos <= p < t.writePos
        ensures t.data[p % t.capacity] == (stream + xs)[p]
      {
        SlotAfterWrite(s, stream, xs, p);
      }
      UnreadIsSlice(s, stream);
      UnreadIsSlice(t, stream + xs);
    }
  }

  /** A read that succeeds hands out exactly the stream from the old read position on. */
  lemma ReadRepresents(s: Ring, stream: seq<real>, n: nat)
    requires Represents(s, stream)
    ensures Represents(Read(s, n), stream)
    ensures CanRead(s, n) ==>
      && s.readPos + n <= |stream|
      && Taken(s, n) == stream[s.readPos..s.readPos + n]
      && Read(s, n).Unread() == s.Unread()[n..]
  {
    UnreadIsSlice(s, stream);
    UnreadIsSlice(Read(s, n), stream);
  }

  lemma FlushRepresents(s: Ring, stream: seq<real>)
    requires Represents(s, stream)
    ensures Represents(Flush(s), stream) && Flush(s).Unread() == []
    ensures Flush(s).readPos == |stream| && s.readPos <= |stream|
  {
  }

  /** Any well-formed ring stands for some stream. */
  lemma SomeStream(s: Ring) returns (stream: seq<real>)
    requires s.Ok()
    ensures Represents(s, stream)
  {
    stream := seq(s.writePos, p requires 0 <= p < s.writePos => s.data[p % s.capacity]);
  }

  lemma WriteUnread(s: Ring, xs: seq<real>)
    requires s.Ok() && CanWrite(s, |xs|)
    ensures Write(s, xs).Unread() == s.Unread() + xs
  {
    var stream := SomeStream(s);
    WriteRepresents(s, stream, xs);
  }

  lemma ReadUnread(s: Ring, older: seq<real>, newer: seq<real>)
    requires s.Ok() && s.Unread() == older + newer
    ensures CanRead(s, |older|) && Taken(s, |older|) == older && Read(s, |older|).Unread() == newer
  {
    assert |s.Unread()| == s.Fill();
    var stream := SomeStream(s);
    ReadRepresents(s, stream, |older|);
  }

  /** First in, first out: reading as much as was there after the first write gives the older samples and leaves the newer. */
  lemma RoundTrip(s: Ring, xs: seq<real>, ys: seq<real>, t1: Ring, t2: Ring)
    requires s.Ok() && CanWrite(s, |xs|) && t1 == Write(s, xs)
    requires CanWrite(t1, |ys|) && t2 == Write(t1, ys)
    ensures CanRead(t2, t1.Fill())
    ensures Taken(t2, t1.Fill()) == s.Unread() + xs
    ensures Read(t2, t1.Fill()).Unread() == ys
  {
    WriteUnread(s, xs);
    WriteUnread(t1, ys);
    assert |t1.Unread()| == t1.Fill();
    ReadUnread(t2, s.Unread() + xs, ys);
  }
}
