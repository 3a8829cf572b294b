/** What the client hears, in every run of the whole system. */
module ClientTheorems {
  import opened DriverSpec
  import opened DriverTheorems
  import opened EndToEnd
  import opened EngineSpec
  import opened RingSpec
  import opened Samples
  import opened SegmentLog
  import opened Wrappers
  import D = Deliveries
  import Denoising
  import EngineTheorems
  import Lifecycle
  import ModeChange

  // An uninterrupted driver callback.

  /** One `OnReadClientInput` that nothing interleaves with and whose loads are all current. */
  ghost function WholeCallback(m: Models, s: System, works: bool, frames: nat): (t: System)
    requires Inv(m, s)
    ensures Inv(m, t)
  {
    NextKeeps(m, s, Open(works));
    var s1 := Next(m, s, Open(works));
    var s2 := FlushNow(m, s1);
    var s3 := CheckNow(m, s2);
    NextKeeps(m, s3, ReadAudio(frames, false));
    Next(m, s3, ReadAudio(frames, false))
  }

  /** The flush of a new connection, with the newest write position. */
  ghost function FlushNow(m: Models, s: System): (t: System)
    requires Inv(m, s)
    ensures Inv(m, t)
  {
    if !s.phase.Mapped? then s
    else
      var from := s.shm.segs[s.driver.conn.value].writePos;
      NextKeeps(m, s, StoreFlush(from));
      Next(m, s, StoreFlush(from))
  }

  /** The checks, on the newest flag and heartbeat. */
  ghost function CheckNow(m: Models, s: System): (t: System)
    requires Inv(m, s)
    ensures Inv(m, t)
  {
    if s.phase != Connected then s
    else
      var ring := s.shm.segs[s.driver.conn.value];
      NextKeeps(m, s, CheckProducer(ring.active, ring.heartbeat));
      Next(m, s, CheckProducer(ring.active, ring.heartbeat))
  }

  /** The ring a callback works on, after the flush if it connects just now. */
  ghost function Finds(s: System, works: bool): (r: Option<Ring>)
    requires ShmOk(s) && DriverOk(s)
    ensures r.Some? ==> r.value.Ok()
  {
    match EnsureConnected(s.driver, Leads(s, works)).conn
    case None => None
    case Some(i) => Some(if s.driver.conn.Some? then s.shm.segs[i] else Flush(s.shm.segs[i]))
  }

  function Sees(s: System, works: bool, found: Option<Ring>, n: nat): World<nat>
    requires found.Some? ==> found.value.Ok()
  {
    match found
    case None => World(Leads(s, works), _ => false, _ => 0, false)
    case Some(ring) => World(Leads(s, works), _ => ring.active, _ => ring.heartbeat, CanRead(ring, n))
  }

  lemma CallbackOf(s: System, works: bool, found: Option<Ring>, n: nat)
    requires found.Some? ==> found.value.Ok()
    ensures var d := EnsureConnected(s.driver, Leads(s, works));
            && (d.conn.None? ==> Callback(s.driver, Sees(s, works, found, n)) == d.(wasConnected := false))
            && (d.conn.Some? && found.Some? ==>
                  Callback(s.driver, Sees(s, works, found, n)) ==
                  Serve(d, found.value.active, found.value.heartbeat, CanRead(found.value, n)))
  {
    hide Serve, CanRead;
  }

  /** The log when a callback starts to read: with the new connection, if it made one. */
  function LogAfterOpen(s: System, i: nat, ring: Ring): D.Log {
    if s.driver.conn.Some? then s.log else D.Connect(s.log, i, ring.readPos)
  }

  /** What the parts up to the flush leave behind. */
  ghost predicate OpenDone(s: System, works: bool, t: System)
    requires ShmOk(s) && DriverOk(s)
  {
    var d := EnsureConnected(s.driver, Leads(s, works));
    match Finds(s, works)
    case None => d.conn.None? && t == s.(driver := d.(wasConnected := false))
    case Some(ring) =>
      && d.conn.Some? && d.conn.value < |s.shm.segs|
      && t == s.(driver := d, phase := Connected, log := LogAfterOpen(s, d.conn.value, ring),
                 shm := s.shm.(segs := s.shm.segs[d.conn.value := ring]))
  }

  lemma OpenParts(m: Models, s: System, works: bool)
    requires Inv(m, s) && s.phase == Idle
    ensures Inv(m, Next(m, s, Open(works)))
    ensures OpenDone(s, works, FlushNow(m, Next(m, s, Open(works))))
  {
    hide OffersOk, SessionOk, EngineOk, Between, D.WellFormed, Represents;
    NextKeeps(m, s, Open(works));
    var d := EnsureConnected(s.driver, Leads(s, works));
    if d.conn.Some? && s.driver.conn.None? {
      WritePosEven(s, d.conn.value);
    } else if d.conn.Some? {
      var i := d.conn.value;
      assert s.shm.segs[i := s.shm.segs[i]] == s.shm.segs;
    }
  }

  lemma WritePosEven(s: System, i: nat)
    requires ShmOk(s) && i < |s.shm.segs|
    ensures s.shm.segs[i].writePos % 2 == 0 && s.shm.segs[i].readPos <= s.shm.segs[i].writePos
  {
    hide D.WellFormed;
    assert Represents(s.shm.segs[i], s.streams[i]);
    assert IsStereo(s.streams[i]);
  }

  /** What the checks and the read make of a connected state. */
  ghost predicate ServeDone(s: System, frames: nat, t: System)
    requires ShmOk(s) && DriverOk(s) && s.phase == Connected
  {
    var i, n := s.driver.conn.value, frames * 2;
    var ring := s.shm.segs[i];
    var d := Serve(s.driver, ring.active, ring.heartbeat, CanRead(ring, n));
    t == s.(driver := d, phase := Idle,
            shm := s.shm.(segs := s.shm.segs[i := if d.conn.Some? then Read(ring, n) else ring]),
            log := if d.conn.Some? && CanRead(ring, n) then D.Deliver(s.log, ring.readPos, Taken(ring, n)) else s.log)
  }

  lemma ServeParts(m: Models, s: System, frames: nat)
    requires Inv(m, s) && s.phase == Connected
    ensures ServeDone(s, frames, Next(m, CheckNow(m, s), ReadAudio(frames, false)))
  {
    hide BooksOk, OffersOk, SessionOk, EngineOk, Between, Taken;
    var i := s.driver.conn.value;
    var ring := s.shm.segs[i];
    assert s.shm.segs[i := ring] == s.shm.segs;
    NextKeeps(m, s, CheckProducer(ring.active, ring.heartbeat));
  }

  /**
   The parts of a callback together: the driver's fields as in `DriverSpec`, the
   ring flushed and read as in `RingSpec`, and in the log exactly the connection
   that was made and the samples that the client got.
   */
  lemma PartsMakeCallback(m: Models, s: System, works: bool, frames: nat)
    requires Inv(m, s) && s.phase == Idle
    ensures var t, n := WholeCallback(m, s, works, frames), frames * 2;
            && t.phase == Idle && t.app == s.app && t.streams == s.streams
            && t.driver == Callback(s.driver, Sees(s, works, Finds(s, works), n))
            && match Finds(s, works)
               case None => t.shm == s.shm && t.log == s.log
               case Some(ring) =>
                 var i := EnsureConnected(s.driver, Leads(s, works)).conn.value;
                 && i < |s.shm.segs|
                 && t.shm == s.shm.(segs := s.shm.segs[i := if t.driver.conn.Some? then Read(ring, n) else ring])
                 && t.log == (if t.driver.conn.Some? && CanRead(ring, n)
                              then D.Deliver(LogAfterOpen(s, i, ring), ring.readPos, Taken(ring, n))
                              else LogAfterOpen(s, i, ring))
  {
    hide ShmOk, OffersOk, SessionOk, EngineOk, Between, CanRead, Read, Taken, Serve, Next, Finds, Callback, Sees, FlushNow, CheckNow;
    OpenParts(m, s, works);
    var s2 := FlushNow(m, Next(m, s, Open(works)));
    CallbackOf(s, works, Finds(s, works), frames * 2);
    if s2.phase == Connected {
      ServeParts(m, s2, frames);
    } else {
      NothingToServe(m, s2, frames);
    }
  }

  lemma NothingToServe(m: Models, s: System, frames: nat)
    requires Inv(m, s) && s.phase == Idle
    ensures CheckNow(m, s) == s && Next(m, s, ReadAudio(frames, false)) == s
  {
    hide ShmOk, OffersOk, SessionOk, EngineOk, DriverOk;
  }

  // Deliveries.

  /**
   All that a client hears through one connection is one contiguous slice, from
   the flush point on, of the engine's blocks that the segment accepted.
   */
  lemma ClientHearsEngine(m: Models, slow: nat -> bool, acts: seq<Action>, s: System, c: nat)
    requires s == Run(m, slow, acts) && c < |s.log.conns|
    ensures s.log.conns[c].segment < |s.streams|
    ensures var from, heard, blocks := s.log.conns[c].from, D.Heard(s.log.items, c), Accepted(s.app.offers, s.log.conns[c].segment);
            from + |heard| <= |blocks| && heard == blocks[from..from + |heard|]
  {
    hide Run, D.Heard, Accepted, SessionOk, EngineOk, DriverOk, D.IsSlice;
    D.ConnectionHearsSlice(s.log, s.streams, Positions(s.shm.segs), c);
  }

  /** Across all connections to one segment nothing is delivered twice or out of order, and only whole, equal-channel frames. */
  lemma NothingTwiceAndWholeFrames(m: Models, slow: nat -> bool, acts: seq<Action>, s: System, i: nat, j: nat)
    requires s == Run(m, slow, acts) && i < j < |s.log.items|
    ensures s.log.items[i].conn <= s.log.items[j].conn < |s.log.conns|
    ensures s.log.conns[s.log.items[i].conn].segment == s.log.conns[s.log.items[j].conn].segment ==>
      s.log.items[i].End() <= s.log.items[j].start
    ensures s.log.items[j].start % 2 == 0 && IsStereo(s.log.items[j].samples)
  {
    hide Run, OffersOk, SessionOk, EngineOk, DriverOk;
    D.NothingTwice(s.log, s.streams, Positions(s.shm.segs), i, j);
  }

  /**
   A capture adds its whole block to what the held segment stands for, or, when
   the block is refused, drops exactly that block; no other segment notices.
   The engine moves on either way.
   */
  lemma WholeBlockOrNone(m: Models, s: System, input: seq<real>, refused: bool)
    requires Inv(m, s) && Captures(s, input)
    ensures var i, t := s.shm.held.seg, Next(m, s, Capture(input, refused));
            var (e, answer) := Process(m, s.app.engine, Mono(input, 2, |input| / 2), s.app.slow);
            var block := Rendered(answer, 2);
            var added := if !refused && CanWrite(s.shm.segs[i], |input|) then block else [];
            && |block| == |input| && t.app.engine == e
            && t.shm.segs[i].Ok() && t.shm.segs[i].Unread() == s.shm.segs[i].Unread() + added
            && Accepted(t.app.offers, i) == Accepted(s.app.offers, i) + added
            && (forall k :: 0 <= k < |s.shm.segs| && k != i ==> t.shm.segs[k] == s.shm.segs[k])
  {
    hide Process, Mono, Rendered, Accepted, BooksOk, SessionOk, Between, Stored;
    var i := s.shm.held.seg;
    var ring := s.shm.segs[i];
    var (e, answer) := Process(m, s.app.engine, Mono(input, 2, |input| / 2), s.app.slow);
    var block := Rendered(answer, 2);
    var accepted := !refused && CanWrite(ring, |block|);
    AcceptedSnoc(s.app.offers, Offer(i, answer, accepted), i);
    if accepted {
      WriteUnread(ring, block);
    }
  }

  /** Since its last reset, the audio the engine offered is a prefix of the batch transform of what was captured. */
  lemma OfferedAudioIsBatch(m: Models, slow: nat -> bool, acts: seq<Action>, s: System)
    requires s == Run(m, slow, acts) && s.app.session.Some?
    ensures var session := s.app.session.value;
            && EngineTheorems.Fresh(session.start) && session.since <= |s.app.offers|
            && EngineTheorems.Heard(Blocks(s.app.offers[session.since..])) <=
               Clamped(EngineTheorems.Batch(m, session.start.core, EngineTheorems.Joined(session.calls), s.app.slow).1)
  {
    hide Run, ShmOk, DriverOk, OffersOk, EngineTheorems.Run;
    var session := s.app.session.value;
    EngineTheorems.AudioIsPrefixOfBatch(m, session.start, session.calls, s.app.slow);
  }

  // One callback size and a consumer that keeps up.

  lemma InterleavedJoin(xs: seq<real>, ys: seq<real>)
    ensures Interleaved(xs + ys, 2) == Interleaved(xs, 2) + Interleaved(ys, 2)
  {
    var joined, apart := Interleaved(xs + ys, 2), Interleaved(xs, 2) + Interleaved(ys, 2);
    forall k | 0 <= k < |joined|
      ensures joined[k] == apart[k]
    {
      var ch, i := k % 2, k / 2;
      if i < |xs| {
        EveryChannelAlike(xs, 2, i, ch);
      } else {
        EveryChannelAlike(ys, 2, i - |xs|, ch);
      }
    }
  }

  /** The mono samples that a block stands for. */
  function Plain(b: Block): seq<real> {
    match b
    case Audio(samples) => samples
    case Silence(count) => Zeros(count)
  }

  lemma RenderedPlain(b: Block)
    ensures Rendered(b, 2) == Interleaved(Plain(b), 2)
  {
  }

  /** From offer `since` on, every block was accepted by `seg`, which had got nothing before. */
  ghost predicate AllAccepted(offers: seq<Offer>, since: nat, seg: nat) {
    && since <= |offers|
    && (forall k :: 0 <= k < since ==> !(offers[k].seg == seg && offers[k].accepted))
    && (forall k :: since <= k < |offers| ==> offers[k].seg == seg && offers[k].accepted)
  }

  lemma {:induction false} AcceptedIsAnswers(offers: seq<Offer>, since: nat, seg: nat)
    requires AllAccepted(offers, since, seg)
    ensures Accepted(offers, seg) == Interleaved(EngineTheorems.Answers(Blocks(offers[since..])), 2)
    decreases |offers|
  {
    hide Accepted, Interleaved, EngineTheorems.Answers;
    if since == |offers| {
      AcceptedNone(offers, seg);
      NoAnswers(Blocks(offers[since..]));
    } else {
      var before, o := offers[..|offers| - 1], offers[|offers| - 1];
      AcceptedIsAnswers(before, since, seg);
      assert Blocks(offers[since..]) == Blocks(before[since..]) + [o.block];
      OneMoreAccepted(before, o, seg, Blocks(before[since..]));
      assert before + [o] == offers;
    }
  }

  lemma NoAnswers(blocks: seq<Block>)
    requires blocks == []
    ensures Interleaved(EngineTheorems.Answers(blocks), 2) == []
  {
  }

  lemma OneMoreAccepted(before: seq<Offer>, o: Offer, seg: nat, blocks: seq<Block>)
    requires o.seg == seg && o.accepted
    requires Accepted(before, seg) == Interleaved(EngineTheorems.Answers(blocks), 2)
    ensures Accepted(before + [o], seg) == Interleaved(EngineTheorems.Answers(blocks + [o.block]), 2)
  {
    hide Accepted, Interleaved, EngineTheorems.Answers, Rendered;
    AcceptedSnoc(before, o, seg);
    EngineTheorems.AnswersSnoc(blocks, o.block);
    RenderedPlain(o.block);
    InterleavedJoin(EngineTheorems.Answers(blocks), Plain(o.block));
  }

  /** The microphone as the engine should render it: `delay` silent samples, then the clamped batch transform of the input. */
  ghost function Microphone(m: Models, session: Session, slow: nat -> bool, delay: nat): seq<real>
  {
    if session.start.core.rnnoise.None? then Zeros(delay)
    else
      Zeros(delay) +
      Clamped(EngineTheorems.Batch(m, session.start.core, EngineTheorems.Joined(session.calls), slow).1)
  }

  lemma DelayedPrefix(answers: seq<real>, heard: seq<real>, total: nat, want: seq<real>)
    requires EngineTheorems.Delays(answers, heard, total) && heard <= want
    ensures answers <= Zeros(total - |heard|) + want
  {
  }

  lemma InterleavedPrefix(xs: seq<real>, ys: seq<real>)
    requires xs <= ys
    ensures Interleaved(xs, 2) <= Interleaved(ys, 2)
  {
    hide Interleaved;
    assert ys == xs + ys[|xs|..];
    InterleavedJoin(xs, ys[|xs|..]);
  }

  lemma SliceOfPrefix(part: seq<real>, whole: seq<real>, a: nat, b: nat)
    requires part <= whole && a <= b <= |part|
    ensures part[a..b] == whole[a..b]
  {
  }

  /** With one callback size, a session's answers are the start of the delayed batch transform. */
  lemma AnswersAreMicrophone(m: Models, session: Session, slow: nat -> bool, n: nat, blocks: seq<Block>)
    requires EngineTheorems.Fresh(session.start) && blocks == EngineTheorems.Run(m, session.start, session.calls, slow).1
    requires n > 0 && forall k :: 0 <= k < |session.calls| ==> |session.calls[k]| == n
    ensures |EngineTheorems.Heard(blocks)| <= |EngineTheorems.Joined(session.calls)|
    ensures EngineTheorems.Answers(blocks) <= Microphone(m, session, slow, Late(session, blocks))
  {
    hide EngineTheorems.Answers, EngineTheorems.Heard, EngineTheorems.Joined, EngineTheorems.Run, EngineTheorems.Batch, Clamped;
    EngineTheorems.SilenceThenAudio(m, session.start, session.calls, slow, n);
    EngineTheorems.AudioIsPrefixOfBatch(m, session.start, session.calls, slow);
    DelayedPrefix(EngineTheorems.Answers(blocks), EngineTheorems.Heard(blocks), |EngineTheorems.Joined(session.calls)|,
      Clamped(EngineTheorems.Batch(m, session.start.core, EngineTheorems.Joined(session.calls), slow).1));
  }

  /** How many frames of the input were answered with silence. */
  function Late(session: Session, blocks: seq<Block>): nat {
    var taken, audio := |EngineTheorems.Joined(session.calls)|, |EngineTheorems.Heard(blocks)|;
    if audio <= taken then taken - audio else 0
  }

  /**
   The promise of the whole system.  If since the engine's reset all callbacks
   had one size and the segment, new at that time, accepted every block, then
   what a client hears through a connection is one gapless stretch of the
   denoised microphone on both channels, late by one fixed number of frames:
   those that were answered with silence before the audio began.
   */
  lemma ClientHearsMicrophone(m: Models, slow: nat -> bool, acts: seq<Action>, s: System, c: nat, n: nat,
                              session: Session, blocks: seq<Block>)
    requires s == Run(m, slow, acts) && c < |s.log.conns| && s.app.session == Some(session)
    requires AllAccepted(s.app.offers, session.since, s.log.conns[c].segment)
    requires blocks == Blocks(s.app.offers[session.since..])
    requires n > 0 && forall k :: 0 <= k < |session.calls| ==> |session.calls[k]| == n
    ensures var both := Interleaved(Microphone(m, session, s.app.slow, Late(session, blocks)), 2);
            var from, heard := s.log.conns[c].from, D.Heard(s.log.items, c);
            && |EngineTheorems.Joined(session.calls)| == |EngineTheorems.Heard(blocks)| + Late(session, blocks)
            && from % 2 == 0 && from + |heard| <= |both| && heard == both[from..from + |heard|]
  {
    hide Run, D.Heard, Accepted, Interleaved, Microphone, EngineTheorems.Answers, EngineTheorems.Heard, EngineTheorems.Joined,
         D.WellFormed, Represented, OffersOk, EngineOk, DriverOk, EngineTheorems.Run, Blocks;
    var mic := Microphone(m, session, s.app.slow, Late(session, blocks));
    ClientHearsEngine(m, slow, acts, s, c);
    AcceptedIsAnswers(s.app.offers, session.since, s.log.conns[c].segment);
    AnswersAreMicrophone(m, session, s.app.slow, n, blocks);
    InterleavedPrefix(EngineTheorems.Answers(blocks), mic);
    var from, heard := s.log.conns[c].from, D.Heard(s.log.items, c);
    SliceOfPrefix(Accepted(s.app.offers, s.log.conns[c].segment), Interleaved(mic, 2), from, from + |heard|);
  }

  // The same, sample by sample.

  /** Sample `i` of the delayed microphone: silence, then the intended samples, clipped. */
  lemma MicrophoneSample(m: Models, session: Session, slow: nat -> bool, delay: nat, i: nat)
    requires session.start.core.rnnoise.Some? && session.start.core.chunks == 0
    requires i < |Microphone(m, session, slow, delay)|
    ensures var mic, xs := Microphone(m, session, slow, delay), EngineTheorems.Joined(session.calls);
            && (i < delay ==> mic[i] == 0.0)
            && (i >= delay ==>
                  var t := i - delay;
                  && t / 480 < |xs| / FRAME
                  && Denoising.Bounded(mic[i], Denoising.Intended(m, session.start.core, xs, slow, t / 480, t % 480)))
  {
    hide EngineTheorems.Batch, EngineTheorems.Joined, Denoising.Intended, Denoising.Bounded, Clamp;
    if i >= delay {
      var t, xs := i - delay, EngineTheorems.Joined(session.calls);
      var out := EngineTheorems.Batch(m, session.start.core, xs, slow).1;
      Denoising.BatchIsIntended(m, session.start.core, xs, slow, t / 480, t % 480);
      Denoising.ClampBounds(out[t]);
    }
  }

  lemma OnEitherChannel(xs: seq<real>, q: nat)
    requires q < 2 * |xs|
    ensures q < |Interleaved(xs, 2)| && Interleaved(xs, 2)[q] == xs[q / 2]
  {
    EveryChannelAlike(xs, 2, q / 2, q % 2);
  }

  lemma AtOffset(whole: seq<real>, part: seq<real>, from: nat, p: nat)
    requires from + |part| <= |whole| && part == whole[from..from + |part|] && p < |part|
    ensures part[p] == whole[from + p]
  {
  }

  /**
   What a client hears, in terms of what was captured.  Under the conditions of
   `ClientHearsMicrophone`, sample `p` of a connection belongs to frame
   `(from + p) / 2`, whichever channel it is on; it is 0 while the delay lasts,
   and then the sample that the denoisers answer, or that the schedule passes
   through, for the halved sum of left and right `late` frames earlier, clipped
   to -1 .. 1.
   */
  lemma EachSampleHeard(m: Models, slow: nat -> bool, acts: seq<Action>, s: System, c: nat, n: nat,
                        session: Session, blocks: seq<Block>, p: nat)
    requires s == Run(m, slow, acts) && c < |s.log.conns| && s.app.session == Some(session)
    requires AllAccepted(s.app.offers, session.since, s.log.conns[c].segment)
    requires blocks == Blocks(s.app.offers[session.since..])
    requires n > 0 && forall k :: 0 <= k < |session.calls| ==> |session.calls[k]| == n
    requires p < |D.Heard(s.log.items, c)|
    ensures var xs, late := EngineTheorems.Joined(session.calls), Late(session, blocks);
            var heard, i := D.Heard(s.log.items, c)[p], (s.log.conns[c].from + p) / 2;
            && Halved(xs, session.captured)
            && session.start.core.rnnoise.Some?
            && (i < late ==> heard == 0.0)
            && (i >= late ==>
                  var t := i - late;
                  && t / 480 < |xs| / FRAME
                  && Denoising.Bounded(heard, Denoising.Intended(m, session.start.core, xs, s.app.slow, t / 480, t % 480)))
  {
    hide Run, D.Heard, Interleaved, Microphone, EngineTheorems.Joined, EngineTheorems.Run, Blocks, Halved, Late,
         ShmOk, OffersOk, EngineOk, DriverOk, Denoising.Intended, Denoising.Bounded, AllAccepted;
    var late, from, heard := Late(session, blocks), s.log.conns[c].from, D.Heard(s.log.items, c);
    var mic := Microphone(m, session, s.app.slow, late);
    ClientHearsMicrophone(m, slow, acts, s, c, n, session, blocks);
    assert |Interleaved(mic, 2)| == |mic| * 2;
    AtOffset(Interleaved(mic, 2), heard, from, p);
    OnEitherChannel(mic, from + p);
    MicrophoneSample(m, session, s.app.slow, late, (from + p) / 2);
  }

  // Dropped blocks and earlier sessions.

  function Stretch(xs: seq<real>, start: nat, n: nat): seq<real> {
    if start + n <= |xs| then xs[start..start + n] else []
  }

  /** What remains of `xs` when, of the blocks offered from `since` on, only those are kept that `seg` accepted. */
  function Kept(offers: seq<Offer>, since: nat, seg: nat, xs: seq<real>): seq<real>
    decreases |offers|
  {
    if |offers| <= since then []
    else
      var before, o := offers[..|offers| - 1], offers[|offers| - 1];
      Kept(before, since, seg, xs) +
      if o.seg == seg && o.accepted then Stretch(xs, |EngineTheorems.Answers(Blocks(before[since..]))|, o.block.Size()) else []
  }

  lemma KeptSnoc(before: seq<Offer>, o: Offer, since: nat, seg: nat, xs: seq<real>)
    requires since <= |before|
    ensures Kept(before + [o], since, seg, xs) ==
            Kept(before, since, seg, xs) +
            if o.seg == seg && o.accepted then Stretch(xs, |EngineTheorems.Answers(Blocks(before[since..]))|, o.block.Size()) else []
  {
    hide EngineTheorems.Answers, Stretch;
    assert (before + [o])[..|before|] == before;
  }

  lemma {:induction false} AcceptedIsKept(offers: seq<Offer>, since: nat, seg: nat, xs: seq<real>)
    requires since <= |offers| && EngineTheorems.Answers(Blocks(offers[since..])) <= xs
    ensures Accepted(offers, seg) == Accepted(offers[..since], seg) + Interleaved(Kept(offers, since, seg, xs), 2)
    decreases |offers|
  {
    hide Accepted, Interleaved, EngineTheorems.Answers, Blocks, Kept;
    if since == |offers| {
      assert offers[..since] == offers;
      NothingKept(offers, since, seg, xs);
    } else {
      var before, o := offers[..|offers| - 1], offers[|offers| - 1];
      assert before + [o] == offers && before[..since] == offers[..since];
      BlocksSnoc(before, o, since);
      EngineTheorems.AnswersSnoc(Blocks(before[since..]), o.block);
      AcceptedIsKept(before, since, seg, xs);
      OneMoreKept(before, o, since, seg, xs);
    }
  }

  lemma NothingKept(offers: seq<Offer>, since: nat, seg: nat, xs: seq<real>)
    requires |offers| == since
    ensures Interleaved(Kept(offers, since, seg, xs), 2) == []
  {
  }

  lemma BlocksSnoc(before: seq<Offer>, o: Offer, since: nat)
    requires since <= |before|
    ensures Blocks((before + [o])[since..]) == Blocks(before[since..]) + [o.block]
  {
  }

  lemma OneMoreKept(before: seq<Offer>, o: Offer, since: nat, seg: nat, xs: seq<real>)
    requires since <= |before|
    requires EngineTheorems.Answers(Blocks(before[since..])) + Plain(o.block) <= xs
    requires Accepted(before, seg) == Accepted(before[..since], seg) + Interleaved(Kept(before, since, seg, xs), 2)
    ensures Accepted(before + [o], seg) == Accepted(before[..since], seg) + Interleaved(Kept(before + [o], since, seg, xs), 2)
  {
    hide Accepted, Interleaved, EngineTheorems.Answers, Blocks, Kept, Rendered;
    AcceptedSnoc(before, o, seg);
    KeptSnoc(before, o, since, seg, xs);
    if o.seg == seg && o.accepted {
      var done := EngineTheorems.Answers(Blocks(before[since..]));
      assert Stretch(xs, |done|, o.block.Size()) == Plain(o.block) by {
        assert (done + Plain(o.block))[|done|..] == Plain(o.block);
      }
      RenderedPlain(o.block);
      InterleavedJoin(Kept(before, since, seg, xs), Plain(o.block));
    } else {
      assert Kept(before + [o], since, seg, xs) == Kept(before, since, seg, xs);
      assert Accepted(before + [o], seg) == Accepted(before, seg);
    }
  }

  /**
   With blocks dropped and with audio from before the engine's reset still in
   the segment: for one callback size since the reset, what a client hears is a
   contiguous slice of what the segment had accepted earlier, followed by the
   delayed denoised microphone on both channels from which exactly the dropped
   blocks are cut out.
   */
  lemma ClientHearsKeptMicrophone(m: Models, slow: nat -> bool, acts: seq<Action>, s: System, c: nat, n: nat,
                                  session: Session, blocks: seq<Block>)
    requires s == Run(m, slow, acts) && c < |s.log.conns| && s.app.session == Some(session)
    requires session.since <= |s.app.offers| && blocks == Blocks(s.app.offers[session.since..])
    requires n > 0 && forall k :: 0 <= k < |session.calls| ==> |session.calls[k]| == n
    ensures var mic, seg := Microphone(m, session, s.app.slow, Late(session, blocks)), s.log.conns[c].segment;
            var all := Accepted(s.app.offers[..session.since], seg) +
                       Interleaved(Kept(s.app.offers, session.since, seg, mic), 2);
            var from, heard := s.log.conns[c].from, D.Heard(s.log.items, c);
            && |EngineTheorems.Joined(session.calls)| == |EngineTheorems.Heard(blocks)| + Late(session, blocks)
            && from + |heard| <= |all| && heard == all[from..from + |heard|]
  {
    hide Run, D.Heard, Accepted, Interleaved, Microphone, Kept, EngineTheorems.Answers, EngineTheorems.Heard, EngineTheorems.Joined,
         ShmOk, OffersOk, EngineOk, DriverOk, EngineTheorems.Run, Blocks;
    var mic := Microphone(m, session, s.app.slow, Late(session, blocks));
    ClientHearsEngine(m, slow, acts, s, c);
    AnswersAreMicrophone(m, session, s.app.slow, n, blocks);
    AcceptedIsKept(s.app.offers, session.since, s.log.conns[c].segment, mic);
  }

  // Changes of mode.

  /**
   Two systems after any runs whatever, their engines running with a model and
   with equal settings: a change to the same other mode makes them answer alike
   for ever exactly when the memory that it leaves agrees.
   */
  lemma ReachableModeChange(m1: Models, slow1: nat -> bool, acts1: seq<Action>, m2: Models, slow2: nat -> bool, acts2: seq<Action>,
                            e1: Engine, e2: Engine, mode: Mode)
    requires e1 == Run(m1, slow1, acts1).app.engine && e2 == Run(m2, slow2, acts2).app.engine
    requires e1.status == Running && e2.status == Running
    requires EngineTheorems.SameSettings(e1, e2) && EngineTheorems.HasModel(e1) && mode != e1.core.mode
    ensures EngineTheorems.Fresh(SetMode(e1, mode)) && EngineTheorems.Fresh(SetMode(e2, mode))
    ensures ModeChange.AlwaysAgree(SetMode(e1, mode), SetMode(e2, mode)) <==>
            ModeChange.MemoryAgrees(SetMode(e1, mode).core, SetMode(e2, mode).core)
  {
    hide Run, ShmOk, OffersOk, DriverOk, SessionOk, ModeChange.AlwaysAgree, ModeChange.MemoryAgrees, ModeChange.Settled, SetMode;
    ModeChange.SetModeForgetsExactly(e1, e2, mode);
  }

  // A run in which something is heard: nothing above is empty talk.

  lemma RunSnoc(m: Models, slow: nat -> bool, acts: seq<Action>, a: Action)
    ensures Run(m, slow, acts + [a]) == Next(m, Run(m, slow, acts), a)
  {
    hide Next, Inv;
    assert (acts + [a])[..|acts|] == acts;
  }

  /** The app is up: a running engine just reset, and one new segment. */
  ghost predicate AppUp(s: System, capacity: nat)
    requires capacity > 0
  {
    && EngineTheorems.Fresh(s.app.engine) && s.app.engine.channels == 2
    && s.app.session == Some(Session(s.app.engine, 0, [], [])) && s.app.offers == []
    && s.shm == Lifecycle.Shm(Some(0), [NewRing(capacity)], Lifecycle.Holds(0), {})
    && s.log == D.Log([], [])
  }

  lemma EngineStarts(m: Models, slow: nat -> bool)
    requires Inv(m, Start(slow))
    ensures var t := Next(m, Start(slow), Tune(InitEngine(true, false, slow)));
            && t == Start(slow).(app := t.app)
            && EngineTheorems.Fresh(t.app.engine) && t.app.engine.channels == 2
            && t.app == App(t.app.engine, slow, [], Some(Session(t.app.engine, 0, [], [])))
  {
    hide ShmOk, OffersOk, DriverOk, SessionOk, EngineOk, Prepared;
  }

  lemma SegmentAppears(m: Models, s: System, capacity: nat)
    requires Inv(m, s) && capacity > 0 && s.shm == Lifecycle.EMPTY
    ensures var t := Next(m, s, CreateSegment(capacity, true));
            && t == s.(shm := t.shm, streams := t.streams)
            && t.shm == Lifecycle.Shm(Some(0), [NewRing(capacity)], Lifecycle.Holds(0), {})
  {
    hide ShmOk, OffersOk, DriverOk, SessionOk, EngineOk, NewRing;
  }

  lemma AppStarts(m: Models, slow: nat -> bool, capacity: nat, acts: seq<Action>)
    requires capacity > 0 && |acts| == 2
    requires acts[0] == Tune(InitEngine(true, false, slow)) && acts[1] == CreateSegment(capacity, true)
    ensures var s := Run(m, slow, acts);
            AppUp(s, capacity) && s.driver == Start(slow).driver && s.phase == Idle && s.app.slow == slow
  {
    hide Next, Inv, EngineTheorems.Fresh, NewRing;
    var none := acts[..0];
    assert acts[..1] == none + [acts[0]] && acts == acts[..1] + [acts[1]];
    assert Run(m, slow, none) == Start(slow);
    RunSnoc(m, slow, none, acts[0]);
    RunSnoc(m, slow, acts[..1], acts[1]);
    EngineStarts(m, slow);
    SegmentAppears(m, Run(m, slow, acts[..1]), capacity);
  }

  lemma DriverOpens(m: Models, s: System, capacity: nat)
    requires Inv(m, s) && capacity > 0 && AppUp(s, capacity) && s.phase == Idle && s.driver == Driver(None, 0, false, false, false, 0, 0)
    ensures var t := Next(m, s, Open(true));
            && t.app == s.app && t.shm == s.shm && t.phase == Mapped(true) && t.log == s.log
            && t.driver == Driver(Some(0), 0, false, false, true, 0, 0)
  {
    hide ShmOk, OffersOk, SessionOk, EngineOk, DriverOk, EngineTheorems.Fresh;
  }

  lemma DriverFlushes(m: Models, s: System, capacity: nat)
    requires Inv(m, s) && capacity > 0 && s.shm.segs == [NewRing(capacity)] && s.phase == Mapped(true) && s.log == D.Log([], [])
    requires s.driver == Driver(Some(0), 0, false, false, true, 0, 0)
    ensures var t := Next(m, s, StoreFlush(0));
            && t.app == s.app && t.shm == s.shm && t.phase == Connected && t.driver == s.driver
            && t.log == D.Log([D.Connection(0, 0)], [])
  {
    hide BooksOk, OffersOk, SessionOk, EngineOk, Between;
    var segs := s.shm.segs;
    assert segs[0 := segs[0]] == segs;
  }

  lemma DriverChecks(m: Models, s: System)
    requires Inv(m, s) && s.phase == Connected && s.driver == Driver(Some(0), 0, false, false, true, 0, 0)
    ensures var t := Next(m, s, CheckProducer(true, 0));
            t == s.(phase := Checked, driver := t.driver) && t.driver.conn == Some(0)
  {
    hide ShmOk, OffersOk, SessionOk, EngineOk, DriverOk;
  }

  /** Two frames at once complete the prefill and are answered with audio. */
  lemma TwoFramesSound(m: Models, e: Engine, xs: seq<real>, slow: nat -> bool)
    requires EngineTheorems.Fresh(e) && |xs| == PREFILL
    ensures Process(m, e, xs, slow).1.Audio?
  {
    hide Process;
    var none: seq<seq<real>> := [];
    EngineTheorems.AllAudioOrAllSilence(m, e, none, slow, xs);
    assert EngineTheorems.Sizes(none) == [];
  }

  lemma AppCaptures(m: Models, s: System, input: seq<real>)
    requires Inv(m, s) && EngineTheorems.Fresh(s.app.engine) && s.app.offers == [] && |input| == 2 * PREFILL
    requires s.app.session == Some(Session(s.app.engine, 0, [], []))
    requires s.shm.segs == [NewRing(2 * PREFILL)] && s.shm.held == Lifecycle.Holds(0)
    ensures var t := Next(m, s, Capture(input, false));
            && t.log == s.log && t.driver == s.driver && t.phase == s.phase && |t.shm.segs| == 1
            && t.shm.segs[0].readPos == 0 && t.shm.segs[0].writePos == 2 * PREFILL
            && |t.app.offers| == 1 && t.app.offers[0].seg == 0 && t.app.offers[0].accepted && t.app.offers[0].block.Audio?
            && t.app.session == Some(Session(s.app.engine, 0, [Mono(input, 2, PREFILL)], input))
  {
    hide BooksOk, OffersOk, SessionOk, Process, Mono, Rendered, Stored;
    var xs := Mono(input, 2, PREFILL);
    TwoFramesSound(m, s.app.engine, xs, s.app.slow);
    assert Captures(s, input) && |input| / 2 == PREFILL;
    var block := Process(m, s.app.engine, xs, s.app.slow).1;
    assert |Rendered(block, 2)| == 2 * PREFILL;
    var none: seq<seq<real>> := [];
    assert none + [xs] == [xs];
    var before: seq<real> := [];
    assert before + input == input;
  }

  lemma DriverReads(m: Models, s: System)
    requires Inv(m, s) && s.phase == Checked && s.driver.conn == Some(0) && s.log == D.Log([D.Connection(0, 0)], [])
    requires |s.shm.segs| == 1 && s.shm.segs[0].readPos == 0 && s.shm.segs[0].writePos == 2 * PREFILL
    ensures var t := Next(m, s, ReadAudio(PREFILL, false));
            && t.app == s.app && t.log.conns == s.log.conns
            && |D.Heard(t.log.items, 0)| == 2 * PREFILL
  {
    hide BooksOk, OffersOk, SessionOk, EngineOk, D.Heard;
    var ring := s.shm.segs[0];
    var t := Next(m, s, ReadAudio(PREFILL, false));
    assert |ring.Unread()| == ring.Fill() == 2 * PREFILL;
    var taken := Taken(ring, 2 * PREFILL);
    HeardOnce(t.log.items, D.Delivery(0, 0, taken));
  }

  lemma HeardOnce(items: seq<D.Delivery>, d: D.Delivery)
    requires items == [d]
    ensures D.Heard(items, d.conn) == d.samples
  {
    var none := items[..0];
    assert D.Heard(none, d.conn) == [];
  }

  /** The conditions of `ClientHearsMicrophone` can be met, by a run in which the client hears audio. */
  lemma SomethingIsHeard(m: Models, slow: nat -> bool, input: seq<real>) returns (acts: seq<Action>, session: Session)
    requires |input| == 2 * PREFILL
    ensures var s := Run(m, slow, acts);
            && s.app.session == Some(session) && |session.calls| == 1 && |session.calls[0]| == PREFILL
            && s.log.conns == [D.Connection(0, 0)]
            && AllAccepted(s.app.offers, session.since, 0)
            && |s.app.offers| == 1 && s.app.offers[0].block.Audio?
            && |D.Heard(s.log.items, 0)| == 2 * PREFILL
  {
    hide Run, Next, Inv, D.Heard, EngineTheorems.Fresh;
    var a2 := [Tune(InitEngine(true, false, slow)), CreateSegment(2 * PREFILL, true)];
    AppStarts(m, slow, 2 * PREFILL, a2);
    var s2 := Run(m, slow, a2);
    DriverOpens(m, s2, 2 * PREFILL);
    RunSnoc(m, slow, a2, Open(true));
    var a3 := a2 + [Open(true)];
    DriverFlushes(m, Run(m, slow, a3), 2 * PREFILL);
    RunSnoc(m, slow, a3, StoreFlush(0));
    var a4 := a3 + [StoreFlush(0)];
    DriverChecks(m, Run(m, slow, a4));
    RunSnoc(m, slow, a4, CheckProducer(true, 0));
    var a5 := a4 + [CheckProducer(true, 0)];
    AppCaptures(m, Run(m, slow, a5), input);
    RunSnoc(m, slow, a5, Capture(input, false));
    var a6 := a5 + [Capture(input, false)];
    DriverReads(m, Run(m, slow, a6));
    RunSnoc(m, slow, a6, ReadAudio(PREFILL, false));
    acts := a6 + [ReadAudio(PREFILL, false)];
    session := Session(s2.app.engine, 0, [Mono(input, 2, PREFILL)], input);
  }
}
