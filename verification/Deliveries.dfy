/**
 What the driver handed to its client, as a log.  A connection starts at the
 position where its flush put the read position; every successful read is one
 delivery of the connection it belongs to.  `streams[s]` is everything segment
 `s` ever accepted and `pos[s]` is its read position.
 */
module Deliveries {

  datatype Connection = Connection(segment: nat, from: nat)

  datatype Delivery = Delivery(conn: nat, start: nat, samples: seq<real>)
  {
    function End(): nat { start + |samples| }
  }

  datatype Log = Log(conns: seq<Connection>, items: seq<Delivery>)

  /** The position the next read of the latest connection starts from. */
  function Cursor(l: Log): nat
    requires l.conns != []
  {
    if l.items != [] && l.items[|l.items| - 1].conn == |l.conns| - 1
    then l.items[|l.items| - 1].End()
    else l.conns[|l.conns| - 1].from
  }

  function Connect(l: Log, segment: nat, from: nat): Log {
    l.(conns := l.conns + [Connection(segment, from)])
  }

  function Deliver(l: Log, start: nat, samples: seq<real>): Log
    requires l.conns != []
  {
    l.(items := l.items + [Delivery(|l.conns| - 1, start, samples)])
  }

  ghost predicate ConnectionsOk(l: Log, streams: seq<seq<real>>, pos: seq<nat>) {
    && |pos| == |streams|
    && (forall s :: 0 <= s < |pos| ==> pos[s] <= |streams[s]|)
    && (forall c :: 0 <= c < |l.conns| ==> l.conns[c].segment < |pos| && l.conns[c].from <= pos[l.conns[c].segment])
  }

  /** One delivery: a slice of the stream of its connection's segment. */
  ghost predicate IsSlice(l: Log, streams: seq<seq<real>>, pos: seq<nat>, d: Delivery)
    requires ConnectionsOk(l, streams, pos)
  {
    && d.conn < |l.conns|
    && var c := l.conns[d.conn];
       && c.from <= d.start
       && d.End() <= pos[c.segment]
       && d.samples == streams[c.segment][d.start..d.End()]
  }

  ghost predicate Contiguous(l: Log, i: nat)
    requires i < |l.items| && l.items[i].conn < |l.conns|
  {
    l.items[i].start ==
    if i > 0 && l.items[i - 1].conn == l.items[i].conn then l.items[i - 1].End() else l.conns[l.items[i].conn].from
  }

  ghost predicate Ordered(l: Log, i: nat, j: nat)
    requires i < j < |l.items|
    requires l.items[i].conn < |l.conns| && l.items[j].conn < |l.conns|
  {
    && l.items[i].conn <= l.items[j].conn
    && (l.conns[l.items[i].conn].segment == l.conns[l.items[j].conn].segment ==> l.items[i].End() <= l.items[j].start)
  }

  ghost predicate WellFormed(l: Log, streams: seq<seq<real>>, pos: seq<nat>) {
    && ConnectionsOk(l, streams, pos)
    && (forall i :: 0 <= i < |l.items| ==> IsSlice(l, streams, pos, l.items[i]))
    && (forall i :: 0 <= i < |l.items| ==> Contiguous(l, i))
    && (forall i, j :: 0 <= i < j < |l.items| ==> Ordered(l, i, j))
    && (l.conns != [] ==> pos[l.conns[|l.conns| - 1].segment] == Cursor(l))
  }

  lemma ConnectKeeps(l: Log, streams: seq<seq<real>>, pos: seq<nat>, segment: nat, from: nat)
    requires WellFormed(l, streams, pos)
    requires segment < |pos| && pos[segment] <= from <= |streams[segment]|
    ensures WellFormed(Connect(l, segment, from), streams, pos[segment := from])
  {
    var m := Connect(l, segment, from);
    var q := pos[segment := from];
    assert forall c :: 0 <= c < |l.conns| ==> m.conns[c] == l.conns[c];
    assert ConnectionsOk(m, streams, q);
    forall i | 0 <= i < |m.items|
      ensures IsSlice(m, streams, q, m.items[i]) && Contiguous(m, i)
    {
      assert IsSlice(l, streams, pos, l.items[i]) && Contiguous(l, i);
      if i > 0 {
        assert IsSlice(l, streams, pos, l.items[i - 1]);
      }
    }
    forall i, j | 0 <= i < j < |m.items|
      ensures Ordered(m, i, j)
    {
      assert IsSlice(l, streams, pos, l.items[i]) && IsSlice(l, streams, pos, l.items[j]) && Ordered(l, i, j);
    }
    if m.items != [] {
      assert IsSlice(l, streams, pos, l.items[|l.items| - 1]);
    }
  }

  lemma DeliverKeeps(l: Log, streams: seq<seq<real>>, pos: seq<nat>, samples: seq<real>, segment: nat)
    requires WellFormed(l, streams, pos) && l.conns != [] && segment == l.conns[|l.conns| - 1].segment
    requires pos[segment] + |samples| <= |streams[segment]|
    requires samples == streams[segment][pos[segment]..pos[segment] + |samples|]
    ensures WellFormed(Deliver(l, pos[segment], samples), streams, pos[segment := pos[segment] + |samples|])
  {
    var d := Delivery(|l.conns| - 1, pos[segment], samples);
    DeliverSlices(l, streams, pos, d);
    DeliverOrdered(l, streams, pos, d);
    assert Deliver(l, pos[segment], samples) == Log(l.conns, l.items + [d]);
  }

  lemma DeliverSlices(l: Log, streams: seq<seq<real>>, pos: seq<nat>, d: Delivery)
    requires WellFormed(l, streams, pos) && l.conns != [] && d.conn == |l.conns| - 1
    requires d.start == pos[l.conns[d.conn].segment] && d.End() <= |streams[l.conns[d.conn].segment]|
    requires d.samples == streams[l.conns[d.conn].segment][d.start..d.End()]
    ensures var m, q := Log(l.conns, l.items + [d]), pos[l.conns[d.conn].segment := d.End()];
            && ConnectionsOk(m, streams, q)
            && (forall i :: 0 <= i < |m.items| ==> IsSlice(m, streams, q, m.items[i]))
            && (forall i :: 0 <= i < |m.items| ==> Contiguous(m, i))
  {
    var m, q := Log(l.conns, l.items + [d]), pos[l.conns[d.conn].segment := d.End()];
    assert ConnectionsOk(m, streams, q);
    forall i | 0 <= i < |m.items|
      ensures IsSlice(m, streams, q, m.items[i]) && Contiguous(m, i)
    {
      if i < |l.items| {
        DeliverOld(l, streams, pos, d, i);
      } else {
        assert m.items[i] == d;
        if i > 0 {
          assert m.items[i - 1] == l.items[i - 1];
        }
      }
    }
  }

  lemma DeliverOrdered(l: Log, streams: seq<seq<real>>, pos: seq<nat>, d: Delivery)
    requires WellFormed(l, streams, pos) && l.conns != [] && d.conn == |l.conns| - 1
    requires d.start == pos[l.conns[d.conn].segment] && d.End() <= |streams[l.conns[d.conn].segment]|
    requires forall i :: 0 <= i < |l.items| + 1 ==> (l.items + [d])[i].conn < |l.conns|
    ensures var m := Log(l.conns, l.items + [d]);
            forall i, j :: 0 <= i < j < |m.items| ==> Ordered(m, i, j)
  {
    var m := Log(l.conns, l.items + [d]);
    forall i, j | 0 <= i < j < |m.items|
      ensures Ordered(m, i, j)
    {
      if j < |l.items| {
        assert Ordered(l, i, j);
      } else {
        DeliverOld(l, streams, pos, d, i);
      }
    }
  }

  lemma DeliverOld(l: Log, streams: seq<seq<real>>, pos: seq<nat>, d: Delivery, i: nat)
    requires WellFormed(l, streams, pos) && i < |l.items| && d.conn == |l.conns| - 1
    requires d.conn >= 0 && d.start == pos[l.conns[d.conn].segment]
    requires d.End() <= |streams[l.conns[d.conn].segment]|
    ensures var m, q := Log(l.conns, l.items + [d]), pos[l.conns[d.conn].segment := d.End()];
            && ConnectionsOk(m, streams, q)
            && IsSlice(m, streams, q, m.items[i]) && Contiguous(m, i)
            && m.items[|l.items|].conn < |m.conns| && Ordered(m, i, |l.items|)
  {
    var m, q := Log(l.conns, l.items + [d]), pos[l.conns[d.conn].segment := d.End()];
    assert ConnectionsOk(m, streams, q);
    assert m.items[i] == l.items[i];
    assert IsSlice(l, streams, pos, l.items[i]) && Contiguous(l, i);
    if i > 0 {
      assert m.items[i - 1] == l.items[i - 1];
    }
  }

  /** Streams only grow, and new segments only come after the old ones. */
  lemma GrowKeeps(l: Log, streams: seq<seq<real>>, pos: seq<nat>, more: seq<seq<real>>, posMore: seq<nat>)
    requires WellFormed(l, streams, pos)
    requires |streams| <= |more| == |posMore|
    requires forall s :: 0 <= s < |streams| ==> streams[s] <= more[s] && posMore[s] == pos[s]
    requires forall s :: |streams| <= s < |more| ==> posMore[s] <= |more[s]|
    ensures WellFormed(l, more, posMore)
  {
    assert ConnectionsOk(l, more, posMore);
    forall i | 0 <= i < |l.items|
      ensures IsSlice(l, more, posMore, l.items[i])
    {
      var d := l.items[i];
      assert IsSlice(l, streams, pos, d);
      var s := l.conns[d.conn].segment;
      assert streams[s] <= more[s];
      assert more[s][d.start..d.End()] == streams[s][d.start..d.End()];
    }
  }

  /** Everything the client got through connection `c`, joined together. */
  function Heard(items: seq<Delivery>, c: nat): seq<real> {
    if items == [] then []
    else
      var d := items[|items| - 1];
      Heard(items[..|items| - 1], c) + if d.conn == c then d.samples else []
  }

  function Shorter(l: Log): Log
    requires l.items != []
  {
    l.(items := l.items[..|l.items| - 1])
  }

  ghost predicate ChainOk(l: Log) {
    && (forall i :: 0 <= i < |l.items| ==> l.items[i].conn < |l.conns|)
    && (forall i :: 0 <= i < |l.items| ==> Contiguous(l, i))
    && (forall i, j :: 0 <= i < j < |l.items| ==> l.items[i].conn <= l.items[j].conn)
  }

  lemma {:induction false} HeardLength(l: Log, c: nat)
    requires ChainOk(l) && c < |l.conns|
    ensures l.items != [] && l.items[|l.items| - 1].conn == c ==>
      l.items[|l.items| - 1].End() == l.conns[c].from + |Heard(l.items, c)|
    ensures (l.items == [] || l.items[|l.items| - 1].conn < c) ==> Heard(l.items, c) == []
    decreases |l.items|
  {
    if l.items != [] {
      var m := Shorter(l);
      forall i | 0 <= i < |m.items|
        ensures m.items[i].conn < |m.conns| && Contiguous(m, i)
      {
        assert Contiguous(l, i);
      }
      HeardLength(m, c);
      assert Contiguous(l, |l.items| - 1);
      if |l.items| > 1 {
        assert l.items[|l.items| - 2].conn <= l.items[|l.items| - 1].conn;
      }
    }
  }

  /**
   All that a client hears during one connection is one contiguous slice of
   what the segment accepted, and the slice starts at the flush point.
   */
  lemma {:induction false} ConnectionHearsSlice(l: Log, streams: seq<seq<real>>, pos: seq<nat>, c: nat)
    requires WellFormed(l, streams, pos) && c < |l.conns|
    ensures var from, heard, stream := l.conns[c].from, Heard(l.items, c), streams[l.conns[c].segment];
            from + |heard| <= |stream| && heard == stream[from..from + |heard|]
  {
    HeardPrefix(l, streams, pos, c, l.items);
  }

  lemma {:induction false} HeardPrefix(l: Log, streams: seq<seq<real>>, pos: seq<nat>, c: nat, items: seq<Delivery>)
    requires WellFormed(l, streams, pos) && c < |l.conns| && items <= l.items
    ensures var from, heard, stream := l.conns[c].from, Heard(items, c), streams[l.conns[c].segment];
            from + |heard| <= |stream| && heard == stream[from..from + |heard|]
    decreases |items|
  {
    if items != [] {
      var n := |items| - 1;
      HeardPrefix(l, streams, pos, c, items[..n]);
      if items[n].conn == c {
        HeardNext(l, streams, pos, c, n, items[..n]);
      }
    }
  }

  lemma HeardNext(l: Log, streams: seq<seq<real>>, pos: seq<nat>, c: nat, n: nat, before: seq<Delivery>)
    requires WellFormed(l, streams, pos) && c < |l.conns| && n < |l.items| && before == l.items[..n] && l.items[n].conn == c
    requires var from, heard, stream := l.conns[c].from, Heard(before, c), streams[l.conns[c].segment];
             from + |heard| <= |stream| && heard == stream[from..from + |heard|]
    ensures var from, heard, stream := l.conns[c].from, Heard(before, c) + l.items[n].samples, streams[l.conns[c].segment];
            from + |heard| <= |stream| && heard == stream[from..from + |heard|]
  {
    HeardSoFar(l, streams, pos, c, n);
    assert IsSlice(l, streams, pos, l.items[n]);
    hide WellFormed, Heard;
    JoinSlices(streams[l.conns[c].segment], l.conns[c].from, Heard(before, c), l.items[n].samples);
  }

  lemma JoinSlices(stream: seq<real>, from: nat, a: seq<real>, b: seq<real>)
    requires from + |a| + |b| <= |stream|
    requires a == stream[from..from + |a|] && b == stream[from + |a|..from + |a| + |b|]
    ensures a + b == stream[from..from + |a + b|]
  {
  }

  lemma HeardSoFar(l: Log, streams: seq<seq<real>>, pos: seq<nat>, c: nat, n: nat)
    requires WellFormed(l, streams, pos) && c < |l.conns| && n < |l.items| && l.items[n].conn == c
    ensures l.items[n].start == l.conns[c].from + |Heard(l.items[..n], c)|
  {
    var m := l.(items := l.items[..n]);
    PrefixChain(l, streams, pos, n);
    HeardLength(m, c);
    assert Contiguous(l, n);
    if n > 0 {
      assert IsSlice(l, streams, pos, l.items[n - 1]);
      assert Ordered(l, n - 1, n);
      assert m.items[n - 1] == l.items[n - 1];
    }
  }

  lemma PrefixChain(l: Log, streams: seq<seq<real>>, pos: seq<nat>, n: nat)
    requires WellFormed(l, streams, pos) && n <= |l.items|
    ensures ChainOk(l.(items := l.items[..n]))
  {
    var m := l.(items := l.items[..n]);
    forall i | 0 <= i < n
      ensures m.items[i].conn < |m.conns| && Contiguous(m, i)
    {
      assert IsSlice(l, streams, pos, l.items[i]) && Contiguous(l, i);
    }
    forall i, j | 0 <= i < j < n
      ensures m.items[i].conn <= m.items[j].conn
    {
      assert Ordered(l, i, j);
    }
  }

  /** Positions never go back: no stretch of a segment's stream is handed out twice or out of order. */
  lemma NothingTwice(l: Log, streams: seq<seq<real>>, pos: seq<nat>, i: nat, j: nat)
    requires WellFormed(l, streams, pos) && i < j < |l.items|
    ensures l.items[i].conn <= l.items[j].conn < |l.conns|
    ensures l.conns[l.items[i].conn].segment == l.conns[l.items[j].conn].segment ==>
      l.items[i].End() <= l.items[j].start
  {
    assert IsSlice(l, streams, pos, l.items[i]) && IsSlice(l, streams, pos, l.items[j]) && Ordered(l, i, j);
  }
}
