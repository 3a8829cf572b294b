/** What the interleaved ring guarantees to its users, for every run of the protocol. */
module RingTheorems {
  import opened Arith
  import opened Deliveries
  import opened RingProtocol
  import opened Samples
  import RingSpec

  function SlotAt(p: nat, i: nat, cap: nat): nat
    requires cap > 0
  {
    (p + i) % cap
  }

  /** The `n` slots from position `p` on and the `m` slots from position `q` on have none in common. */
  ghost predicate Disjoint(p: nat, n: nat, q: nat, m: nat, cap: nat)
    requires cap > 0
  {
    forall i, j :: 0 <= i < n && 0 <= j < m ==> SlotAt(p, i, cap) != SlotAt(q, j, cap)
  }

  lemma RegionsDisjoint(p: nat, n: nat, q: nat, m: nat, cap: nat)
    requires cap > 0 && q + m <= p && p + n <= q + cap
    ensures Disjoint(p, n, q, m, cap)
  {
    forall i, j | 0 <= i < n && 0 <= j < m
      ensures SlotAt(p, i, cap) != SlotAt(q, j, cap)
    {
      if SlotAt(p, i, cap) == SlotAt(q, j, cap) {
        ModInjective(q + j, p + i, cap);
      }
    }
  }

  /**
   Safety of every interleaving with stale index loads: the indices stay within
   one capacity, unread slots hold the accepted stream, and the region being
   written and the region being read share no slot.
   */
  lemma EveryInterleaving(size: nat, acts: seq<Action>, s: State)
    requires size > 0 && s == Run(Init(size), acts)
    ensures s.size == size == |s.data| && s.readPos <= s.writePos <= s.readPos + size
    ensures |s.stream| == s.writePos
    ensures forall p :: s.readPos <= p < s.writePos ==> s.data[p % size] == s.stream[p]
    ensures s.producer.Copying? && s.consumer.Taking? ==>
      Disjoint(s.producer.w, |s.producer.block|, s.consumer.r, s.consumer.n, size)
  {
    RunInv(size, acts);
    RunSize(Init(size), acts);
    IndexBounds(s);
    if s.producer.Copying? && s.consumer.Taking? {
      RegionsDisjoint(s.producer.w, |s.producer.block|, s.consumer.r, s.consumer.n, size);
    }
  }

  lemma {:induction false} RunSize(s: State, acts: seq<Action>)
    ensures Run(s, acts).size == s.size
    decreases |acts|
  {
    if acts != [] {
      RunSize(s, acts[..|acts| - 1]);
    }
  }

  /** No copy step is ever held up: the capacity it divides by is positive and its slot lies in the mapping. */
  lemma CopiesStayInBounds(size: nat, acts: seq<Action>, s: State)
    requires size > 0 && s == Run(Init(size), acts)
    ensures s.producer.Copying? && s.producer.k < |s.producer.block| ==>
      s.capacity > 0 && CopySlot(s.producer.w, |s.producer.block|, s.producer.k, s.capacity) < |s.data|
    ensures s.consumer.Taking? && s.consumer.k < s.consumer.n ==>
      s.capacity > 0 && CopySlot(s.consumer.r, s.consumer.n, s.consumer.k, s.capacity) < |s.data|
  {
    hide WellFormed;
    RunInv(size, acts);
    IndexBounds(s);
    if s.producer.Copying? && s.producer.k < |s.producer.block| {
      CopySlotIsModular(s.producer.w, |s.producer.block|, s.producer.k, s.capacity);
    }
    if s.consumer.Taking? && s.consumer.k < s.consumer.n {
      CopySlotIsModular(s.consumer.r, s.consumer.n, s.consumer.k, s.capacity);
    }
  }

  /** A read that succeeds hands out exactly the accepted samples from its start on. */
  lemma ReadReturnsStream(size: nat, acts: seq<Action>, s: State)
    requires size > 0 && s == Run(Init(size), acts)
    requires s.consumer.Taking? && s.consumer.k == s.consumer.n
    ensures var r, n := s.readPos, s.consumer.n;
            && r + n <= |s.stream|
            && s.consumer.got == s.stream[r..r + n]
            && s.log.conns != []
            && Next(s, PublishRead).readPos == r + n
            && Next(s, PublishRead).log == Deliver(s.log, r, s.stream[r..r + n])
  {
    hide WellFormed;
    RunInv(size, acts);
    IndexBounds(s);
  }

  /** Everything heard through one connection is one slice of the accepted stream, starting at its flush point. */
  lemma ConnectionIsSlice(size: nat, acts: seq<Action>, s: State, c: nat)
    requires size > 0 && s == Run(Init(size), acts) && c < |s.log.conns|
    ensures var from, heard := s.log.conns[c].from, Heard(s.log.items, c);
            from + |heard| <= |s.stream| && heard == s.stream[from..from + |heard|]
  {
    RunInv(size, acts);
    ConnectionHearsSlice(s.log, [s.stream], [s.readPos], c);
  }

  // Safe publication.

  /**
   A consumer that sees `active = 1`, at any moment of the producer's
   field-by-field initialisation or later, finds the final capacity; up to the
   first block both positions are 0.
   */
  lemma SafePublication(size: nat, acts: seq<Action>, s: State)
    requires size > 0 && s == Run(Init(size), acts)
    ensures s.active || s.consumer.SawActive? || s.consumer.Started? || s.consumer.Taking? ==> s.capacity == size
    ensures s.producer.Initialising? ==>
      && s.writePos == s.readPos == 0
      && (forall j :: 0 <= j < |s.wLog| ==> s.wLog[j] == 0)
      && (forall j :: 0 <= j < |s.rLog| ==> s.rLog[j] == 0)
  {
    hide WellFormed;
    RunInv(size, acts);
    RunSize(Init(size), acts);
    IndexBounds(s);
  }

  lemma CapacityStays(s: State, a: Action)
    requires s.capacity == s.size
    ensures Next(s, a).capacity == Next(s, a).size == s.size
  {
  }

  /** Once a consumer may have seen the segment active its capacity never changes again. */
  lemma {:induction false} CapacityIsFinal(s: State, more: seq<Action>)
    requires s.capacity == s.size
    ensures Run(s, more).capacity == Run(s, more).size == s.size
    decreases |more|
  {
    hide Next;
    if more != [] {
      CapacityIsFinal(s, more[..|more| - 1]);
      CapacityStays(Run(s, more[..|more| - 1]), more[|more| - 1]);
    }
  }

  // Refinement: the array with modular indices and stale loads behaves as a queue of whole blocks.

  datatype Queue = Queue(stream: seq<real>, readPos: nat, log: Log)

  function Abstract(s: State): Queue { Queue(s.stream, s.readPos, s.log) }

  /** A whole block joins the queue and there was room for all of it. */
  ghost predicate Enqueues(q: Queue, q': Queue, size: nat, block: seq<real>) {
    && |q.stream| + |block| <= q.readPos + size
    && q' == q.(stream := q.stream + block)
  }

  /** The oldest `n` samples leave the queue, and the client gets exactly these. */
  ghost predicate Dequeues(q: Queue, q': Queue, n: nat) {
    && q.readPos + n <= |q.stream|
    && q.log.conns != []
    && q' == q.(readPos := q.readPos + n, log := Deliver(q.log, q.readPos, q.stream[q.readPos..q.readPos + n]))
  }

  /** A connection starts; everything before some position that is not behind the reader is discarded. */
  ghost predicate Discards(q: Queue, q': Queue, segment: nat, from: nat) {
    && q.readPos <= from <= |q.stream|
    && q' == q.(readPos := from, log := Connect(q.log, segment, from))
  }

  /** Each shared access is either invisible to the queue or one whole queue operation. */
  lemma StepRefinesQueue(size: nat, acts: seq<Action>, a: Action, s: State, t: State)
    requires size > 0 && s == Run(Init(size), acts) && t == Next(s, a)
    ensures
      || Abstract(t) == Abstract(s)
      || (a == PublishWrite && s.producer.Copying? && Enqueues(Abstract(s), Abstract(t), size, s.producer.block))
      || (a == PublishRead && s.consumer.Taking? && Dequeues(Abstract(s), Abstract(t), s.consumer.n))
      || (a == StoreFlush && s.consumer.Flushing? && Discards(Abstract(s), Abstract(t), 0, s.consumer.v))
  {
    RunInv(size, acts);
    RunSize(Init(size), acts);
    IndexBounds(s);
    if IsProducers(a) {
      ProducerRefines(s, a, t);
    } else {
      ConsumerRefines(s, a, t);
    }
  }

  lemma ProducerRefines(s: State, a: Action, t: State)
    requires Inv(s) && IsProducers(a) && t == Produce(s, a)
    ensures
      || Abstract(t) == Abstract(s)
      || (a == PublishWrite && s.producer.Copying? && Enqueues(Abstract(s), Abstract(t), s.size, s.producer.block))
  {
    hide WellFormed;
    IndexBounds(s);
  }

  lemma ConsumerRefines(s: State, a: Action, t: State)
    requires Inv(s) && t == Consume(s, a)
    ensures
      || Abstract(t) == Abstract(s)
      || (a == PublishRead && s.consumer.Taking? && Dequeues(Abstract(s), Abstract(t), s.consumer.n))
      || (a == StoreFlush && s.consumer.Flushing? && Discards(Abstract(s), Abstract(t), 0, s.consumer.v))
  {
    IndexBounds(s);
  }

  // A call that nobody interrupts is the atomic operation of module `RingSpec`.

  function Snapshot(s: State): RingSpec.Ring {
    RingSpec.Ring(s.capacity, s.writePos, s.readPos, s.active, s.heartbeat, s.data)
  }

  function CopyInTimes(s: State, n: nat): State {
    if n == 0 then s else Next(CopyInTimes(s, n - 1), CopyIn)
  }

  function CopyOutTimes(s: State, n: nat): State {
    if n == 0 then s else Next(CopyOutTimes(s, n - 1), CopyOut)
  }

  /** `write` from its first to its last shared access, with the newest read index loaded. */
  function WholeWrite(s: State, block: seq<real>): State
    requires s.rLog != []
  {
    var t := Next(Next(s, BeginWrite(block)), LoadReadPos(|s.rLog| - 1));
    if t.producer.Copying? then Next(Next(CopyInTimes(t, |block|), PublishWrite), BumpHeartbeat) else t
  }

  /** `read` from its first to its last shared access, with the newest write index loaded. */
  function WholeRead(s: State, n: nat): State
    requires s.wLog != []
  {
    var t := Next(Next(s, BeginRead(n)), LoadWritePos(|s.wLog| - 1));
    if t.consumer.Taking? then Next(CopyOutTimes(t, n), PublishRead) else t
  }

  lemma CopiesOne(s: State, w: nat, block: seq<real>, k: nat)
    requires s.producer == Copying(w, block, k) && k < |block| <= |s.data| == s.capacity && s.capacity > 0
    ensures Next(s, CopyIn) == s.(producer := Copying(w, block, k + 1), data := s.data[(w + k) % s.capacity := block[k]])
  {
    CopySlotIsModular(w, |block|, k, s.capacity);
  }

  lemma {:induction false} CopyInTimesStores(s: State, w: nat, block: seq<real>, n: nat)
    requires s.producer == Copying(w, block, 0) && n <= |block| <= |s.data| == s.capacity && s.capacity > 0
    ensures CopyInTimes(s, n) == s.(producer := Copying(w, block, n), data := RingSpec.Stored(s.data, w, block[..n]))
  {
    hide Next;
    if n == 0 {
      assert RingSpec.Stored(s.data, w, []) == s.data;
    } else {
      CopyInTimesStores(s, w, block, n - 1);
      StoredOneMore(s.data, w, block, n - 1);
      CopiesOne(CopyInTimes(s, n - 1), w, block, n - 1);
    }
  }

  lemma StoredOneMore(data: seq<real>, w: nat, block: seq<real>, k: nat)
    requires k < |block| <= |data|
    ensures RingSpec.Stored(data, w, block[..k + 1]) == RingSpec.Stored(data, w, block[..k])[(w + k) % |data| := block[k]]
  {
    var a, b := RingSpec.Stored(data, w, block[..k + 1]), RingSpec.Stored(data, w, block[..k]);
    forall j | 0 <= j < |data|
      ensures a[j] == b[(w + k) % |data| := block[k]][j]
    {
      ModOffset(w, j, k, |data|);
    }
  }

  lemma LastReadPos(s: State)
    requires Inv(s)
    ensures s.rLog != [] && s.rSeen <= |s.rLog| - 1 && s.rLog[|s.rLog| - 1] == s.readPos
    ensures s.wLog != [] && s.wSeen <= |s.wLog| - 1 && s.wLog[|s.wLog| - 1] == s.writePos
    ensures s.readPos <= s.writePos <= s.readPos + s.size && |s.data| == s.size
  {
    hide WellFormed;
    IndexBounds(s);
  }

  lemma UninterruptedWrite(s: State, block: seq<real>)
    requires Inv(s) && s.producer.Ready?
    ensures s.rLog != [] && Snapshot(s).Ok()
    ensures Snapshot(WholeWrite(s, block)) == RingSpec.Write(Snapshot(s), block)
    ensures WholeWrite(s, block).producer == Ready && WholeWrite(s, block).consumer == s.consumer
    ensures WholeWrite(s, block).stream == s.stream + if RingSpec.CanWrite(Snapshot(s), |block|) then block else []
  {
    hide WellFormed, WholeWrite, WholeRead;
    LastReadPos(s);
    assert s.capacity == s.size && s.size > 0;
    WriteSteps(s, block);
  }

  /** The state after a write accepted `block` and left the array as `data`. */
  function WriteDone(s: State, block: seq<real>, data: seq<real>): State {
    s.(data := data, writePos := s.writePos + |block|, wLog := s.wLog + [s.writePos + |block|], stream := s.stream + block,
       heartbeat := s.heartbeat + 1, producer := Ready)
  }

  lemma StoresAll(s: State, block: seq<real>)
    requires s.producer.Ready? && s.capacity == s.size == |s.data| && s.size > 0
    requires s.rLog != [] && s.rSeen <= |s.rLog| - 1 && s.rLog[|s.rLog| - 1] == s.readPos
    requires |block| <= s.capacity - (s.writePos - s.readPos) && |block| <= |s.data|
    ensures WholeWrite(s, block) == WriteDone(s.(rSeen := |s.rLog| - 1), block, RingSpec.Stored(s.data, s.writePos, block))
  {
    hide Next, CopyInTimes, WriteDone;
    StartsWriting(s, block);
    var s1 := s.(rSeen := |s.rLog| - 1);
    var t := s1.(producer := Copying(s.writePos, block, 0));
    CopyInTimesStores(t, s.writePos, block, |block|);
    assert block[..|block|] == block;
    PublishesBlock(s1, CopyInTimes(t, |block|), block, RingSpec.Stored(s.data, s.writePos, block));
  }

  lemma WriteSteps(s: State, block: seq<real>)
    requires s.producer.Ready? && s.capacity == s.size == |s.data| && s.size > 0
    requires s.rLog != [] && s.rSeen <= |s.rLog| - 1 && s.rLog[|s.rLog| - 1] == s.readPos
    requires s.readPos <= s.writePos <= s.readPos + s.size
    ensures Snapshot(s).Ok() && Snapshot(WholeWrite(s, block)) == RingSpec.Write(Snapshot(s), block)
    ensures WholeWrite(s, block).producer == Ready && WholeWrite(s, block).consumer == s.consumer
    ensures WholeWrite(s, block).stream == s.stream + if RingSpec.CanWrite(Snapshot(s), |block|) then block else []
  {
    hide Next, CopyInTimes;
    if |block| <= s.capacity - (s.writePos - s.readPos) {
      StoresAll(s, block);
    } else {
      StartsWriting(s, block);
    }
  }

  lemma StartsWriting(s: State, block: seq<real>)
    requires s.producer.Ready? && s.rLog != [] && s.rSeen <= |s.rLog| - 1 && s.rLog[|s.rLog| - 1] == s.readPos
    ensures Next(Next(s, BeginWrite(block)), LoadReadPos(|s.rLog| - 1)) == s.(rSeen := |s.rLog| - 1,
      producer := if |block| <= s.capacity - (s.writePos - s.readPos) then Copying(s.writePos, block, 0) else Ready)
  {
  }

  lemma PublishesBlock(s: State, t: State, block: seq<real>, data: seq<real>)
    requires t == s.(producer := Copying(s.writePos, block, |block|), data := data)
    ensures Next(Next(t, PublishWrite), BumpHeartbeat) == WriteDone(s, block, data)
  {
  }

  lemma TakesOne(s: State, r: nat, m: nat, k: nat, got: seq<real>)
    requires s.consumer == Taking(r, m, k, got) && k < m <= s.capacity == |s.data| && s.capacity > 0
    ensures Next(s, CopyOut) == s.(consumer := Taking(r, m, k + 1, got + [s.data[SlotAt(r, k, s.capacity)]]))
  {
    CopySlotIsModular(r, m, k, s.capacity);
  }

  lemma {:induction false} CopyOutTimesTakes(s: State, r: nat, m: nat, n: nat, want: seq<real>)
    requires s.consumer == Taking(r, m, 0, []) && n <= m == |want| <= s.capacity == |s.data| && s.capacity > 0
    requires forall i :: 0 <= i < m ==> s.data[SlotAt(r, i, s.capacity)] == want[i]
    ensures CopyOutTimes(s, n) == s.(consumer := Taking(r, m, n, want[..n]))
  {
    hide Next;
    if n > 0 {
      CopyOutTimesTakes(s, r, m, n - 1, want);
      TakesOne(CopyOutTimes(s, n - 1), r, m, n - 1, want[..n - 1]);
      assert want[..n] == want[..n - 1] + [want[n - 1]];
    }
  }

  lemma UninterruptedRead(s: State, n: nat)
    requires Inv(s) && s.consumer.SawActive?
    ensures s.wLog != [] && s.log.conns != [] && Snapshot(s).Ok()
    ensures Snapshot(WholeRead(s, n)) == RingSpec.Read(Snapshot(s), n)
    ensures WholeRead(s, n).consumer == Attached && WholeRead(s, n).producer == s.producer
    ensures WholeRead(s, n).log ==
      if RingSpec.CanRead(Snapshot(s), n) then Deliver(s.log, s.readPos, RingSpec.Taken(Snapshot(s), n)) else s.log
  {
    hide WellFormed, WholeWrite, WholeRead;
    LastReadPos(s);
    assert RingSpec.Represents(Snapshot(s), s.stream);
    ReadSteps(s, n);
  }

  lemma ReadSteps(s: State, n: nat)
    requires s.consumer.SawActive? && s.log.conns != [] && Snapshot(s).Ok()
    requires s.wLog != [] && s.wSeen <= |s.wLog| - 1 && s.wLog[|s.wLog| - 1] == s.writePos
    ensures Snapshot(WholeRead(s, n)) == RingSpec.Read(Snapshot(s), n)
    ensures WholeRead(s, n).consumer == Attached && WholeRead(s, n).producer == s.producer
    ensures WholeRead(s, n).log ==
      if RingSpec.CanRead(Snapshot(s), n) then Deliver(s.log, s.readPos, RingSpec.Taken(Snapshot(s), n)) else s.log
  {
    var last := |s.wLog| - 1;
    if n <= s.writePos - s.readPos {
      SlotsHold(Snapshot(s), n);
      TakesAll(s, n, RingSpec.Taken(Snapshot(s), n));
    } else {
      assert Next(Next(s, BeginRead(n)), LoadWritePos(last)) == s.(wSeen := last, consumer := Attached);
    }
  }

  lemma TakesAll(s: State, n: nat, want: seq<real>)
    requires s.consumer.SawActive? && s.log.conns != [] && n <= s.writePos - s.readPos
    requires s.wLog != [] && s.wSeen <= |s.wLog| - 1 && s.wLog[|s.wLog| - 1] == s.writePos
    requires n == |want| <= s.capacity == |s.data| && s.capacity > 0
    requires forall i :: 0 <= i < n ==> s.data[SlotAt(s.readPos, i, s.capacity)] == want[i]
    ensures WholeRead(s, n) == ReadDone(s.(wSeen := |s.wLog| - 1), n, want)
  {
    hide Next, CopyOutTimes, SlotAt, ReadDone;
    var t := s.(wSeen := |s.wLog| - 1, consumer := Taking(s.readPos, n, 0, []));
    StartsTaking(s, n, t);
    CopyOutTimesTakes(t, s.readPos, n, n, want);
    assert want[..n] == want;
    PublishesTaken(s.(wSeen := |s.wLog| - 1), t.(consumer := Taking(s.readPos, n, n, want)), n, want);
  }

  /** The state after a read handed out `want`. */
  function ReadDone(s: State, n: nat, want: seq<real>): State
    requires s.log.conns != []
  {
    s.(readPos := s.readPos + n, rLog := s.rLog + [s.readPos + n], consumer := Attached, log := Deliver(s.log, s.readPos, want))
  }

  lemma StartsTaking(s: State, n: nat, t: State)
    requires s.consumer.SawActive? && n <= s.writePos - s.readPos
    requires s.wLog != [] && s.wSeen <= |s.wLog| - 1 && s.wLog[|s.wLog| - 1] == s.writePos
    requires t == s.(wSeen := |s.wLog| - 1, consumer := Taking(s.readPos, n, 0, []))
    ensures t == Next(Next(s, BeginRead(n)), LoadWritePos(|s.wLog| - 1))
  {
  }

  lemma SlotsHold(ring: RingSpec.Ring, n: nat)
    requires ring.Ok() && RingSpec.CanRead(ring, n)
    ensures forall i :: 0 <= i < n ==> ring.data[SlotAt(ring.readPos, i, ring.capacity)] == RingSpec.Taken(ring, n)[i]
  {
  }

  lemma PublishesTaken(s: State, t: State, n: nat, want: seq<real>)
    requires t == s.(consumer := Taking(s.readPos, n, n, want)) && s.log.conns != []
    ensures Next(t, PublishRead) == ReadDone(s, n, want)
  {
  }

  // Stereo alignment.

  ghost predicate AllEven(xs: seq<nat>) {
    forall i :: 0 <= i < |xs| ==> xs[i] % 2 == 0
  }

  /** Blocks come from the two-channel engine and clients ask for whole frames. */
  ghost predicate FrameAction(a: Action) {
    && (a.BeginWrite? ==> IsStereo(a.block))
    && (a.BeginRead? ==> a.n % 2 == 0)
  }

  ghost predicate Aligned(s: State) {
    && AllEven(s.wLog)
    && AllEven(s.rLog)
    && s.readPos % 2 == 0
    && s.writePos % 2 == 0
    && IsStereo(s.stream)
    && (s.producer.Loaded? ==> IsStereo(s.producer.block))
    && (s.producer.Copying? ==> IsStereo(s.producer.block))
    && (s.consumer.Flushing? ==> s.consumer.v % 2 == 0)
    && (s.consumer.Started? ==> s.consumer.n % 2 == 0)
    && (s.consumer.Taking? ==> s.consumer.n % 2 == 0)
    && forall i :: 0 <= i < |s.log.items| ==> s.log.items[i].start % 2 == 0 && IsStereo(s.log.items[i].samples)
  }

  lemma ProduceAligned(s: State, a: Action)
    requires Inv(s) && Aligned(s) && FrameAction(a) && IsProducers(a)
    ensures Aligned(Next(s, a))
  {
    hide WellFormed;
    if a == PublishWrite && s.producer.Copying? {
      StereoJoin(s.stream, s.producer.block);
    }
  }

  lemma PublishReadAligned(s: State)
    requires Inv(s) && Aligned(s) && s.consumer.Taking? && s.consumer.k == s.consumer.n
    ensures Aligned(Next(s, PublishRead))
  {
    hide WellFormed, SlotsOk, ProducerOk;
    IndexBounds(s);
    StereoSlice(s.stream, s.readPos, s.readPos + s.consumer.n);
  }

  lemma LoadAligned(s: State, a: Action)
    requires Inv(s) && Aligned(s) && (a.LoadForFlush? || a == StoreFlush)
    ensures Aligned(Next(s, a))
  {
    hide WellFormed, SlotsOk, ProducerOk;
  }

  lemma ConsumeAligned(s: State, a: Action)
    requires Inv(s) && Aligned(s) && FrameAction(a) && !IsProducers(a)
    ensures Aligned(Next(s, a))
  {
    if a == PublishRead && s.consumer.Taking? && s.consumer.k == s.consumer.n {
      PublishReadAligned(s);
    } else if a.LoadForFlush? || a == StoreFlush {
      LoadAligned(s, a);
    } else {
      hide Inv;
      var t := Consume(s, a);
      assert t == s.(consumer := t.consumer, wSeen := t.wSeen);
    }
  }

  lemma {:induction false} RunAligned(size: nat, acts: seq<Action>)
    requires size > 0 && forall i :: 0 <= i < |acts| ==> FrameAction(acts[i])
    ensures Aligned(Run(Init(size), acts))
    decreases |acts|
  {
    if acts != [] {
      var n := |acts| - 1;
      RunAligned(size, acts[..n]);
      RunInv(size, acts[..n]);
      assert FrameAction(acts[n]);
      if IsProducers(acts[n]) {
        ProduceAligned(Run(Init(size), acts[..n]), acts[n]);
      } else {
        ConsumeAligned(Run(Init(size), acts[..n]), acts[n]);
      }
    }
  }

  /** Every delivery consists of whole engine frames, left equal to right, whatever the capacity's parity. */
  lemma ClientsGetWholeFrames(size: nat, acts: seq<Action>, s: State, i: nat)
    requires size > 0 && forall k :: 0 <= k < |acts| ==> FrameAction(acts[k])
    requires s == Run(Init(size), acts) && i < |s.log.items|
    ensures s.readPos % 2 == 0 && s.writePos % 2 == 0
    ensures s.log.items[i].start % 2 == 0 && IsStereo(s.log.items[i].samples)
  {
    RunAligned(size, acts);
  }
}
