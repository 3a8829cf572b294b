/**
 All segments the producer ever made, with what each accepted and what the
 driver read from them: every operation on a ring keeps the books.
 */
module SegmentLog {
  import opened RingSpec
  import opened Samples
  import D = Deliveries

  function Positions(segs: seq<Ring>): (r: seq<nat>)
    ensures |r| == |segs|
  {
    seq(|segs|, i requires 0 <= i < |segs| => segs[i].readPos)
  }

  ghost predicate Represented(segs: seq<Ring>, streams: seq<seq<real>>) {
    && |segs| == |streams|
    && forall i :: 0 <= i < |segs| ==> Represents(segs[i], streams[i])
  }

  /** Whole frames everywhere: streams, positions, flush points and deliveries. */
  ghost predicate WholeFrames(segs: seq<Ring>, streams: seq<seq<real>>, log: D.Log) {
    && (forall i :: 0 <= i < |streams| ==> IsStereo(streams[i]))
    && (forall i :: 0 <= i < |segs| ==> segs[i].readPos % 2 == 0)
    && (forall c :: 0 <= c < |log.conns| ==> log.conns[c].from % 2 == 0)
    && (forall k :: 0 <= k < |log.items| ==> log.items[k].start % 2 == 0 && IsStereo(log.items[k].samples))
  }

  ghost predicate BooksOk(segs: seq<Ring>, streams: seq<seq<real>>, log: D.Log) {
    && Represented(segs, streams)
    && D.WellFormed(log, streams, Positions(segs))
    && WholeFrames(segs, streams, log)
  }

  lemma EmptyBooks(segs: seq<Ring>, streams: seq<seq<real>>, log: D.Log)
    requires segs == [] && streams == [] && log.conns == [] && log.items == []
    ensures BooksOk(segs, streams, log)
  {
  }

  /** A segment is made. */
  lemma NewKeeps(segs: seq<Ring>, streams: seq<seq<real>>, log: D.Log, r: Ring, empty: seq<real>)
    requires BooksOk(segs, streams, log) && r.Ok() && r.writePos == 0 && empty == []
    ensures BooksOk(segs + [r], streams + [empty], log)
  {
    hide D.WellFormed;
    D.GrowKeeps(log, streams, Positions(segs), streams + [empty], Positions(segs + [r]));
    assert Represents(r, empty) && IsStereo(empty);
  }

  /** A segment's flag or heartbeat changes. */
  lemma FlagKeeps(segs: seq<Ring>, streams: seq<seq<real>>, log: D.Log, i: nat, active: bool)
    requires BooksOk(segs, streams, log) && i < |segs|
    ensures BooksOk(segs[i := segs[i].(active := active)], streams, log)
  {
    hide D.WellFormed;
    var more := segs[i := segs[i].(active := active)];
    assert Positions(more) == Positions(segs);
    assert Represents(segs[i], streams[i]);
  }

  /** A block is written, or dropped whole. */
  lemma WriteKeeps(segs: seq<Ring>, streams: seq<seq<real>>, log: D.Log, i: nat, block: seq<real>)
    requires BooksOk(segs, streams, log) && i < |segs| && segs[i].Ok() && IsStereo(block)
    ensures var more := if CanWrite(segs[i], |block|) then streams[i := streams[i] + block] else streams;
            BooksOk(segs[i := Write(segs[i], block)], more, log)
  {
    hide D.WellFormed, Represents, Stored;
    assert Represents(segs[i], streams[i]);
    WriteRepresents(segs[i], streams[i], block);
    if CanWrite(segs[i], |block|) {
      var more := streams[i := streams[i] + block];
      assert Positions(segs[i := Write(segs[i], block)]) == Positions(segs);
      StreamLengths(segs, streams, log);
      D.GrowKeeps(log, streams, Positions(segs), more, Positions(segs));
      StereoJoin(streams[i], block);
    } else {
      assert segs[i := segs[i]] == segs;
    }
  }

  lemma StreamLengths(segs: seq<Ring>, streams: seq<seq<real>>, log: D.Log)
    requires Represented(segs, streams)
    ensures forall i :: 0 <= i < |segs| ==> segs[i].Ok() && segs[i].readPos <= segs[i].writePos == |streams[i]|
  {
    forall i | 0 <= i < |segs|
      ensures segs[i].Ok() && segs[i].readPos <= segs[i].writePos == |streams[i]|
    {
      assert Represents(segs[i], streams[i]);
    }
  }

  /** A connection is made: its flush stores `from`, a write position of some moment since the mapping. */
  lemma ConnectKeeps(segs: seq<Ring>, streams: seq<seq<real>>, log: D.Log, i: nat, from: nat)
    requires BooksOk(segs, streams, log) && i < |segs| && segs[i].readPos <= from <= segs[i].writePos && from % 2 == 0
    ensures BooksOk(segs[i := segs[i].(readPos := from)], streams, D.Connect(log, i, from))
  {
    hide D.WellFormed;
    assert Represents(segs[i], streams[i]);
    var more := segs[i := segs[i].(readPos := from)];
    assert Represents(more[i], streams[i]);
    D.ConnectKeeps(log, streams, Positions(segs), i, from);
    assert Positions(more) == Positions(segs)[i := from];
  }

  /** The connected driver reads, or finds too little. */
  lemma ReadKeeps(segs: seq<Ring>, streams: seq<seq<real>>, log: D.Log, i: nat, n: nat)
    requires BooksOk(segs, streams, log) && i < |segs| && segs[i].Ok() && n % 2 == 0
    requires log.conns != [] && log.conns[|log.conns| - 1].segment == i
    ensures BooksOk(segs[i := Read(segs[i], n)], streams,
                    if CanRead(segs[i], n) then D.Deliver(log, segs[i].readPos, Taken(segs[i], n)) else log)
  {
    hide D.WellFormed, Represents, Taken;
    assert Represents(segs[i], streams[i]);
    if CanRead(segs[i], n) {
      var r := segs[i].readPos;
      ReadRepresents(segs[i], streams[i], n);
      assert |Taken(segs[i], n)| == n;
      D.DeliverKeeps(log, streams, Positions(segs), Taken(segs[i], n), i);
      assert Positions(segs[i := Read(segs[i], n)]) == Positions(segs)[i := r + n];
      assert IsStereo(streams[i]);
      StereoSlice(streams[i], r, r + n);
    } else {
      assert segs[i := segs[i]] == segs;
    }
  }
}
