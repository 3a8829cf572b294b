/**
 The shared ring under concurrency.  One producer process and one consumer
 process run the code of `write`, `read`, `flush`, the constructor's header
 initialisation and the destructor one shared access at a time, in any order.
 A load of the other side's index may return any value stored there that is not
 older than the last one this side loaded (`wLog` and `rLog` hold every value
 ever stored, in modification order).
 */
module RingProtocol {
  import opened Arith
  import opened Deliveries

  datatype Producer =
    | Initialising(stage: nat)                            // next header field to store, 0..6
    | Ready
    | Loaded(w: nat, block: seq<real>)                    // own index loaded
    | Copying(w: nat, block: seq<real>, k: nat)           // space checked, `k` samples copied
    | Published                                           // index stored, heartbeat still to bump
    | Gone                                                // destructor ran

  datatype Consumer =
    | Detached
    | Flushing(v: nat)                                    // write index loaded, read index still to store
    | Attached
    | SawActive                                           // this callback saw active = 1
    | Started(r: nat, n: nat)                             // own index loaded
    | Taking(r: nat, n: nat, k: nat, got: seq<real>)      // amount checked, `k` samples copied

  datatype State = State(
    size: nat,                                            // floats in the mapping
    writePos: nat, readPos: nat, capacity: nat, active: bool, heartbeat: nat, data: seq<real>,
    wLog: seq<nat>, rLog: seq<nat>, wSeen: nat, rSeen: nat,
    producer: Producer, consumer: Consumer,
    stream: seq<real>, log: Log)

  datatype Action =
    | StoreHeaderField | BeginWrite(block: seq<real>) | LoadReadPos(j: nat) | CopyIn | PublishWrite | BumpHeartbeat
    | Deactivate
    | LoadForFlush(j: nat) | StoreFlush | CheckActive | BeginRead(n: nat) | LoadWritePos(j: nat) | CopyOut | PublishRead
    | Detach

  /** A freshly truncated mapping: all zero, nobody attached. */
  function Init(size: nat): State {
    State(size, 0, 0, 0, false, 0, seq(size, _ => 0.0), [0], [0], 0, 0, Initialising(0), Detached, [], Log([], []))
  }

  /** Slot of the `k`-th sample of a copy of `n` samples that starts at position `p`: first chunk to the end, second from 0. */
  function CopySlot(p: nat, n: nat, k: nat, cap: nat): nat
    requires cap > 0
  {
    var first := if n < cap - p % cap then n else cap - p % cap;
    if k < first then p % cap + k else k - first
  }

  lemma CopySlotIsModular(p: nat, n: nat, k: nat, cap: nat)
    requires cap > 0 && k < n <= cap
    ensures CopySlot(p, n, k, cap) == (p + k) % cap < cap
  {
    ModChunk(p, k, cap);
  }

  function StoreField(s: State, stage: nat): State {
    match stage
    case 0 => s.(writePos := 0, wLog := s.wLog + [0])
    case 1 => s.(readPos := 0, rLog := s.rLog + [0])
    case 2 => s.(capacity := s.size)
    case 5 => s.(active := true)
    case 6 => s.(heartbeat := 0)
    case _ => s                                           // channels, sample rate
  }

  function Produce(s: State, a: Action): State {
    match (a, s.producer)
    case (StoreHeaderField, Initialising(g)) =>
      StoreField(s, g).(producer := if g >= 6 then Ready else Initialising(g + 1))
    case (BeginWrite(b), Ready) => s.(producer := Loaded(s.writePos, b))
    case (LoadReadPos(j), Loaded(w, b)) =>
      if s.rSeen <= j < |s.rLog| then
        var t := s.(rSeen := j);
        if |b| > s.capacity - (w - s.rLog[j]) then t.(producer := Ready)      // overflow: rejected
        else t.(producer := Copying(w, b, 0))
      else s
    case (CopyIn, Copying(w, b, k)) =>
      if k < |b| && s.capacity > 0 && CopySlot(w, |b|, k, s.capacity) < |s.data| then
        s.(data := s.data[CopySlot(w, |b|, k, s.capacity) := b[k]], producer := Copying(w, b, k + 1))
      else s
    case (PublishWrite, Copying(w, b, k)) =>
      if k == |b| then
        s.(writePos := w + |b|, wLog := s.wLog + [w + |b|], stream := s.stream + b, producer := Published)
      else s
    case (BumpHeartbeat, Published) => s.(heartbeat := s.heartbeat + 1, producer := Ready)
    case (Deactivate, Ready) => s.(active := false, producer := Gone)
    case _ => s
  }

  function Consume(s: State, a: Action): State {
    match (a, s.consumer)
    case (LoadForFlush(j), Detached) =>
      if s.wSeen <= j < |s.wLog| then s.(wSeen := j, consumer := Flushing(s.wLog[j])) else s
    case (StoreFlush, Flushing(v)) =>
      s.(readPos := v, rLog := s.rLog + [v], consumer := Attached, log := Connect(s.log, 0, v))
    case (CheckActive, Attached) => if s.active then s.(consumer := SawActive) else s.(consumer := Detached)
    case (BeginRead(n), SawActive) => s.(consumer := Started(s.readPos, n))
    case (LoadWritePos(j), Started(r, n)) =>
      if s.wSeen <= j < |s.wLog| then
        var t := s.(wSeen := j);
        if n > s.wLog[j] - r then t.(consumer := Attached)                    // underrun: silence
        else t.(consumer := Taking(r, n, 0, []))
      else s
    case (CopyOut, Taking(r, n, k, got)) =>
      if k < n && s.capacity > 0 && CopySlot(r, n, k, s.capacity) < |s.data| then
        s.(consumer := Taking(r, n, k + 1, got + [s.data[CopySlot(r, n, k, s.capacity)]]))
      else s
    case (PublishRead, Taking(r, n, k, got)) =>
      if k == n && s.log.conns != [] then
        s.(readPos := r + n, rLog := s.rLog + [r + n], consumer := Attached, log := Deliver(s.log, r, got))
      else s
    case (Detach, Attached) => s.(consumer := Detached)
    case (Detach, SawActive) => s.(consumer := Detached)
    case _ => s
  }

  predicate IsProducers(a: Action) {
    a.StoreHeaderField? || a.BeginWrite? || a.LoadReadPos? || a.CopyIn? || a.PublishWrite? || a.BumpHeartbeat? || a.Deactivate?
  }

  /** One shared access of one side; an action that is not the next one of its side changes nothing. */
  function Next(s: State, a: Action): State {
    if IsProducers(a) then Produce(s, a) else Consume(s, a)
  }

  function Run(s: State, acts: seq<Action>): State
    decreases |acts|
  {
    if acts == [] then s else Next(Run(s, acts[..|acts| - 1]), acts[|acts| - 1])
  }

  // The invariant.

  ghost predicate LogOk(xs: seq<nat>, last: nat, seen: nat) {
    && xs != []
    && seen < |xs|
    && xs[|xs| - 1] == last
    && forall i, j :: 0 <= i <= j < |xs| ==> xs[i] <= xs[j]
  }

  /** Sizes and indices: no index overtakes what the other side may still believe. */
  ghost predicate IndicesOk(s: State) {
    && s.size > 0
    && |s.data| == s.size
    && LogOk(s.wLog, s.writePos, s.wSeen)
    && LogOk(s.rLog, s.readPos, s.rSeen)
    && s.readPos <= s.wLog[s.wSeen]
    && s.writePos <= s.rLog[s.rSeen] + s.size
    && |s.stream| == s.writePos
  }

  ghost predicate SlotsOk(s: State)
    requires IndicesOk(s)
  {
    forall p :: s.readPos <= p < s.writePos ==> s.data[p % s.size] == s.stream[p]
  }

  ghost predicate ProducerOk(s: State)
    requires IndicesOk(s)
  {
    match s.producer
    case Initialising(g) =>
      && g <= 6
      && s.writePos == 0
      && s.active == (g > 5)
      && (g > 2 ==> s.capacity == s.size)
    case Loaded(w, b) => w == s.writePos && s.capacity == s.size
    case Copying(w, b, k) =>
      && w == s.writePos
      && s.capacity == s.size
      && k <= |b|
      && w + |b| <= s.rLog[s.rSeen] + s.size
      && forall i :: 0 <= i < k ==> s.data[(w + i) % s.size] == b[i]
    case _ => s.capacity == s.size
  }

  ghost predicate ConsumerOk(s: State)
    requires IndicesOk(s)
  {
    match s.consumer
    case Detached => true
    case Flushing(v) => s.readPos <= v == s.wLog[s.wSeen]
    case Attached => s.log.conns != []
    case SawActive => s.log.conns != [] && s.capacity == s.size
    case Started(r, n) => s.log.conns != [] && s.capacity == s.size && r == s.readPos
    case Taking(r, n, k, got) =>
      && s.log.conns != []
      && s.capacity == s.size
      && r == s.readPos
      && r + n <= s.wLog[s.wSeen]
      && |got| == k <= n
      && got == s.stream[r..r + k]
  }

  ghost predicate Delivered(s: State) {
    && (forall c :: 0 <= c < |s.log.conns| ==> s.log.conns[c].segment == 0)
    && WellFormed(s.log, [s.stream], [s.readPos])
  }

  ghost predicate Inv(s: State) {
    && IndicesOk(s)
    && SlotsOk(s)
    && ProducerOk(s)
    && ConsumerOk(s)
    && Delivered(s)
    && (s.active ==> s.capacity == s.size)
  }

  lemma InitInv(size: nat)
    requires size > 0
    ensures Inv(Init(size))
  {
  }

  // Small facts about the steps that move data.

  lemma SeenBelowLast(xs: seq<nat>, last: nat, seen: nat)
    requires LogOk(xs, last, seen)
    ensures xs[seen] <= last
  {
  }

  lemma IndexBounds(s: State)
    requires IndicesOk(s)
    ensures s.readPos <= s.wLog[s.wSeen] <= s.writePos <= s.rLog[s.rSeen] + s.size
    ensures s.rLog[s.rSeen] <= s.readPos
  {
    SeenBelowLast(s.wLog, s.writePos, s.wSeen);
    SeenBelowLast(s.rLog, s.readPos, s.rSeen);
  }

  /** A sample being copied in lands in a slot that holds no unread sample and none of the block copied so far. */
  lemma CopyInMisses(s: State, p: nat)
    requires Inv(s) && s.producer.Copying? && s.producer.k < |s.producer.block|
    requires s.readPos <= p < s.writePos + |s.producer.block| && p != s.writePos + s.producer.k
    ensures CopySlot(s.producer.w, |s.producer.block|, s.producer.k, s.capacity) == (s.writePos + s.producer.k) % s.size
    ensures p % s.size != (s.writePos + s.producer.k) % s.size
  {
    IndexBounds(s);
    var q := s.writePos + s.producer.k;
    CopySlotIsModular(s.writePos, |s.producer.block|, s.producer.k, s.size);
    if p % s.size == q % s.size {
      if p <= q {
        ModInjective(p, q, s.size);
      } else {
        ModInjective(q, p, s.size);
      }
    }
  }

  lemma CopyInSlots(s: State, t: State)
    requires Inv(s) && s.producer.Copying? && s.producer.k < |s.producer.block| && t == Next(s, CopyIn)
    ensures IndicesOk(t) && SlotsOk(t)
  {
    hide WellFormed;
    IndexBounds(s);
    CopySlotIsModular(s.writePos, |s.producer.block|, s.producer.k, s.size);
    assert IndicesOk(t);
    forall p | t.readPos <= p < t.writePos
      ensures t.data[p % t.size] == t.stream[p]
    {
      CopyInMisses(s, p);
    }
  }

  lemma CopyInBlock(s: State, t: State)
    requires Inv(s) && s.producer.Copying? && s.producer.k < |s.producer.block| && t == Next(s, CopyIn)
    requires IndicesOk(t)
    ensures ProducerOk(t)
  {
    hide WellFormed;
    var Copying(w, b, k) := s.producer;
    IndexBounds(s);
    CopySlotIsModular(w, |b|, k, s.size);
    forall i | 0 <= i < k + 1
      ensures t.data[(w + i) % t.size] == b[i]
    {
      if i < k {
        CopyInMisses(s, w + i);
      }
    }
  }

  lemma CopyInInv(s: State)
    requires Inv(s) && s.producer.Copying? && s.producer.k < |s.producer.block|
    ensures Inv(Next(s, CopyIn))
  {
    hide WellFormed;
    var t := Next(s, CopyIn);
    CopyInSlots(s, t);
    CopyInBlock(s, t);
  }

  lemma StreamGrows(s: State, b: seq<real>)
    requires Inv(s)
    ensures WellFormed(s.log, [s.stream + b], [s.readPos])
  {
    IndexBounds(s);
    GrowKeeps(s.log, [s.stream], [s.readPos], [s.stream + b], [s.readPos]);
  }

  lemma PublishWriteInv(s: State)
    requires Inv(s) && s.producer.Copying? && s.producer.k == |s.producer.block|
    ensures Inv(Next(s, PublishWrite))
  {
    hide WellFormed;
    var Copying(w, b, k) := s.producer;
    var t := Next(s, PublishWrite);
    IndexBounds(s);
    StreamGrows(s, b);
    assert IndicesOk(t);
    forall p | t.readPos <= p < t.writePos
      ensures t.data[p % t.size] == t.stream[p]
    {
      if p >= w {
        assert t.data[(w + (p - w)) % t.size] == b[p - w];
      }
    }
    if t.consumer.Taking? {
      var Taking(r, n, k', got) := t.consumer;
      assert t.stream[r..r + k'] == s.stream[r..r + k'];
    }
  }

  lemma CopyOutInv(s: State)
    requires Inv(s) && s.consumer.Taking? && s.consumer.k < s.consumer.n
    ensures Inv(Next(s, CopyOut))
  {
    hide WellFormed;
    var Taking(r, n, k, got) := s.consumer;
    IndexBounds(s);
    CopySlotIsModular(r, n, k, s.size);
    assert s.data[(r + k) % s.size] == s.stream[r + k];
    assert s.stream[r..r + k + 1] == s.stream[r..r + k] + [s.stream[r + k]];
  }

  lemma PublishReadInv(s: State)
    requires Inv(s) && s.consumer.Taking? && s.consumer.k == s.consumer.n
    ensures Inv(Next(s, PublishRead))
  {
    hide WellFormed;
    var Taking(r, n, k, got) := s.consumer;
    var t := Next(s, PublishRead);
    IndexBounds(s);
    DeliverKeeps(s.log, [s.stream], [s.readPos], got, 0);
    assert [s.readPos][0 := s.readPos + |got|] == [t.readPos];
    assert IndicesOk(t);
  }

  lemma StoreFlushInv(s: State)
    requires Inv(s) && s.consumer.Flushing?
    ensures Inv(Next(s, StoreFlush))
  {
    hide WellFormed;
    var v := s.consumer.v;
    var t := Next(s, StoreFlush);
    IndexBounds(s);
    ConnectKeeps(s.log, [s.stream], [s.readPos], 0, v);
    assert [s.readPos][0 := v] == [v];
    assert IndicesOk(t);
  }

  lemma StoreHeaderInv(s: State)
    requires Inv(s) && s.producer.Initialising?
    ensures Inv(Next(s, StoreHeaderField))
  {
    hide WellFormed;
    IndexBounds(s);
    var t := Next(s, StoreHeaderField);
    assert IndicesOk(t);
  }

  lemma LoadReadPosInv(s: State, j: nat)
    requires Inv(s)
    ensures Inv(Next(s, LoadReadPos(j)))
  {
    hide WellFormed;
    var t := Next(s, LoadReadPos(j));
    IndexBounds(s);
    if s.producer.Loaded? && s.rSeen <= j < |s.rLog| {
      assert s.rLog[s.rSeen] <= s.rLog[j] <= s.readPos;
      assert IndicesOk(t) && ProducerOk(t);
    }
  }

  lemma LoadForFlushInv(s: State, j: nat)
    requires Inv(s)
    ensures Inv(Next(s, LoadForFlush(j)))
  {
    hide WellFormed;
    var t := Next(s, LoadForFlush(j));
    IndexBounds(s);
    if s.consumer.Detached? && s.wSeen <= j < |s.wLog| {
      assert s.wLog[s.wSeen] <= s.wLog[j] <= s.writePos;
      assert IndicesOk(t) && ConsumerOk(t);
    }
  }

  lemma LoadWritePosInv(s: State, j: nat)
    requires Inv(s)
    ensures Inv(Next(s, LoadWritePos(j)))
  {
    hide WellFormed;
    if s.consumer.Started? && s.wSeen <= j < |s.wLog| {
      var Started(r, n) := s.consumer;
      var t := s.(wSeen := j, consumer := if n > s.wLog[j] - r then Attached else Taking(r, n, 0, []));
      assert t == Next(s, LoadWritePos(j));
      assert s.wLog[s.wSeen] <= s.wLog[j];
      assert IndicesOk(t) && ConsumerOk(t) && SlotsOk(t) && ProducerOk(t);
    }
  }

  // Steps that move no sample and store no index.

  lemma ProducerControlInv(s: State, a: Action)
    requires Inv(s)
    requires a.BeginWrite? || a == BumpHeartbeat || a == Deactivate
    ensures Inv(Next(s, a))
  {
    hide WellFormed;
    var t := Produce(s, a);
    assert t == s.(producer := t.producer, heartbeat := t.heartbeat, active := t.active);
    assert ProducerOk(t);
  }

  lemma ConsumerControlInv(s: State, a: Action)
    requires Inv(s)
    requires a == CheckActive || a.BeginRead? || a == Detach
    ensures Inv(Next(s, a))
  {
    hide WellFormed;
    var t := Consume(s, a);
    assert t == s.(consumer := t.consumer);
    assert ConsumerOk(t);
  }

  /** Every single access of either side, whatever the other side is in the middle of, keeps the invariant. */
  lemma NextInv(s: State, a: Action)
    requires Inv(s)
    ensures Inv(Next(s, a))
  {
    hide WellFormed;
    match a
    case StoreHeaderField => if s.producer.Initialising? { StoreHeaderInv(s); }
    case CopyIn => if s.producer.Copying? && s.producer.k < |s.producer.block| { CopyInInv(s); }
    case PublishWrite => if s.producer.Copying? && s.producer.k == |s.producer.block| { PublishWriteInv(s); }
    case StoreFlush => if s.consumer.Flushing? { StoreFlushInv(s); }
    case CopyOut => if s.consumer.Taking? && s.consumer.k < s.consumer.n { CopyOutInv(s); }
    case PublishRead => if s.consumer.Taking? && s.consumer.k == s.consumer.n { PublishReadInv(s); }
    case LoadReadPos(j) => LoadReadPosInv(s, j);
    case LoadForFlush(j) => LoadForFlushInv(s, j);
    case LoadWritePos(j) => LoadWritePosInv(s, j);
    case BeginWrite(_) => ProducerControlInv(s, a);
    case BumpHeartbeat => ProducerControlInv(s, a);
    case Deactivate => ProducerControlInv(s, a);
    case CheckActive => ConsumerControlInv(s, a);
    case BeginRead(_) => ConsumerControlInv(s, a);
    case Detach => ConsumerControlInv(s, a);
  }

  lemma {:induction false} RunInv(size: nat, acts: seq<Action>)
    requires size > 0
    ensures Inv(Run(Init(size), acts))
    decreases |acts|
  {
    if acts == [] {
      InitInv(size);
    } else {
      RunInv(size, acts[..|acts| - 1]);
      NextInv(Run(Init(size), acts[..|acts| - 1]), acts[|acts| - 1]);
    }
  }
}
