/**
 Who holds which shared segment, and what the one shared name leads to: the
 producer's `noise_shm_create` and `noise_shm_destroy`, crashes, and the order
 in which `AudioManager` calls them.
 */
module Lifecycle {
  import opened RingSpec
  import opened Wrappers

  /** The producer's `shared_buffer`: null, an object whose constructor failed, or one that maps a segment. */
  datatype Holding = Nothing | Broken | Holds(seg: nat)

  /** `orphans` are the segments whose producer died without running its destructor. */
  datatype Shm = Shm(name: Option<nat>, segs: seq<Ring>, held: Holding, orphans: set<nat>)

  const EMPTY := Shm(None, [], Nothing, {})

  ghost predicate Ok(s: Shm) {
    && (forall i :: 0 <= i < |s.segs| ==> s.segs[i].Ok())
    && (s.held.Holds? ==> s.held.seg < |s.segs|)
    && (s.name.Some? ==> s.name.value < |s.segs|)
  }

  /** The destructor of what the producer holds: the segment goes inactive; even a failed object unlinks the name. */
  function Destroyed(s: Shm): Shm
    requires s.held.Holds? ==> s.held.seg < |s.segs|
  {
    match s.held
    case Nothing => s
    case Broken => s.(name := None, held := Nothing)
    case Holds(i) => s.(name := None, held := Nothing, segs := s.segs[i := s.segs[i].(active := false)])
  }

  /** The constructor: unlink, then a new segment under the name; or, when a system call fails, neither. */
  function Constructed(s: Shm, capacity: nat, works: bool): Shm
    requires capacity > 0
  {
    if works then s.(name := Some(|s.segs|), segs := s.segs + [NewRing(capacity)]) else s.(name := None)
  }

  /** `noise_shm_create`: the assignment builds the new buffer first and destroys the old one after it. */
  function Create(s: Shm, capacity: nat, works: bool): Shm
    requires Ok(s) && capacity > 0
  {
    Destroyed(Constructed(s, capacity, works)).(held := if works then Holds(|s.segs|) else Broken)
  }

  /** `noise_shm_destroy`. */
  function Destroy(s: Shm): Shm
    requires Ok(s)
  {
    Destroyed(s)
  }

  /** The producer process dies; nothing of it runs any more. */
  function Crash(s: Shm): Shm
    requires Ok(s)
  {
    s.(held := Nothing, orphans := if s.held.Holds? then s.orphans + {s.held.seg} else s.orphans)
  }

  /** Whoever opens the name now gets the segment that the producer writes to. */
  predicate Reachable(s: Shm) {
    s.held.Holds? && s.name == Some(s.held.seg)
  }

  /** After a successful create the name leads to the new segment exactly when nothing was held before. */
  lemma CreateReachableExactly(s: Shm, capacity: nat)
    requires Ok(s) && capacity > 0
    ensures var t := Create(s, capacity, true);
            && Ok(t) && t.held == Holds(|s.segs|)
            && (Reachable(t) <==> s.held == Nothing)
            && (s.held != Nothing ==> t.name == None)
  {
  }

  // Runs of the producer's calls.

  datatype Event = DoCreate(capacity: nat, works: bool) | DoDestroy | DoCrash

  function Apply(s: Shm, e: Event): Shm
    requires Ok(s) && (e.DoCreate? ==> e.capacity > 0)
  {
    match e
    case DoCreate(capacity, works) => Create(s, capacity, works)
    case DoDestroy => Destroy(s)
    case DoCrash => Crash(s)
  }

  ghost predicate RunOk(es: seq<Event>) {
    forall i :: 0 <= i < |es| ==> (es[i].DoCreate? ==> es[i].capacity > 0)
  }

  ghost function After(es: seq<Event>): (s: Shm)
    requires RunOk(es)
    ensures Ok(s)
    decreases |es|
  {
    if es == [] then EMPTY
    else
      ApplyKeepsOk(After(es[..|es| - 1]), es[|es| - 1]);
      Apply(After(es[..|es| - 1]), es[|es| - 1])
  }

  lemma ApplyKeepsOk(s: Shm, e: Event)
    requires Ok(s) && (e.DoCreate? ==> e.capacity > 0)
    ensures Ok(Apply(s, e))
  {
    hide NewRing;
  }

  /** Create is only called while no buffer is held, the order of stop and start. */
  ghost predicate Disciplined(es: seq<Event>)
    requires RunOk(es)
    decreases |es|
  {
    es != [] ==>
      && Disciplined(es[..|es| - 1])
      && (es[|es| - 1].DoCreate? ==> After(es[..|es| - 1]).held == Nothing)
  }

  /** The name leads to what is held, which is active; of all others only orphans still look active. */
  ghost predicate NameIsHeld(s: Shm) {
    && Ok(s)
    && (s.held.Holds? ==> s.name == Some(s.held.seg) && s.held.seg !in s.orphans)
    && (forall i :: 0 <= i < |s.segs| ==> (s.segs[i].active <==> s.held == Holds(i) || i in s.orphans))
    && (forall i :: i in s.orphans ==> i < |s.segs|)
    && (s.name.Some? ==> s.held == Holds(s.name.value) || s.name.value in s.orphans)
  }

  /**
   In every run with that discipline the name leads to exactly the segment the
   producer holds; that segment is active and cleanly released ones are not.
   A name that leads anywhere else leads to an orphan.
   */
  lemma {:induction false} NameFollowsHeld(es: seq<Event>)
    requires RunOk(es) && Disciplined(es)
    ensures NameIsHeld(After(es))
    decreases |es|
  {
    if es != [] {
      NameFollowsHeld(es[..|es| - 1]);
      StepKeepsNameIsHeld(After(es[..|es| - 1]), es[|es| - 1]);
    }
  }

  lemma StepKeepsNameIsHeld(s: Shm, e: Event)
    requires NameIsHeld(s)
    requires e.DoCreate? ==> e.capacity > 0 && s.held == Nothing
    ensures NameIsHeld(Apply(s, e))
  {
  }

  // The manager of the app: when it calls what.

  datatype Manager = Manager(shm: Shm, isProcessing: bool)

  datatype Command = Start(works: bool) | Stop | Switch(works: bool) | Kill

  const CAPACITY: nat := 48000 * 2 / 10

  function Started(m: Manager, works: bool): Manager
    requires Ok(m.shm)
  {
    Manager(Create(m.shm, CAPACITY, works), works)
  }

  function Stopped(m: Manager): Manager
    requires Ok(m.shm)
  {
    Manager(Destroy(m.shm), false)
  }

  /** `Kill` is a crash of the app and a new launch. */
  function Obey(m: Manager, c: Command): Manager
    requires Ok(m.shm)
  {
    match c
    case Start(works) => Started(m, works)
    case Stop => Stopped(m)
    case Switch(works) => if m.isProcessing then StoppedKeepsOk(m); Started(Stopped(m), works) else m
    case Kill => Manager(Crash(m.shm), false)
  }

  lemma StoppedKeepsOk(m: Manager)
    requires Ok(m.shm)
    ensures Ok(Stopped(m).shm)
  {
  }

  lemma ObeyKeepsOk(m: Manager, c: Command)
    requires Ok(m.shm)
    ensures Ok(Obey(m, c).shm)
  {
    hide NewRing;
  }

  function Managed(cs: seq<Command>): (m: Manager)
    ensures Ok(m.shm)
    decreases |cs|
  {
    if cs == [] then Manager(EMPTY, false)
    else
      ObeyKeepsOk(Managed(cs[..|cs| - 1]), cs[|cs| - 1]);
      Obey(Managed(cs[..|cs| - 1]), cs[|cs| - 1])
  }

  // What can be told from the history of commands alone.

  predicate Processing(cs: seq<Command>)
    decreases |cs|
  {
    cs != [] &&
    match cs[|cs| - 1]
    case Start(works) => works
    case Switch(works) => works && Processing(cs[..|cs| - 1])
    case _ => false
  }

  /** The bridge holds a buffer object, perhaps a failed one: there was a start and no stop since. */
  predicate HoldsBuffer(cs: seq<Command>)
    decreases |cs|
  {
    cs != [] &&
    match cs[|cs| - 1]
    case Start(_) => true
    case Switch(_) => HoldsBuffer(cs[..|cs| - 1])
    case _ => false
  }

  /** The latest attempt to start or to switch failed. */
  predicate FailedLast(cs: seq<Command>)
    decreases |cs|
  {
    cs != [] &&
    match cs[|cs| - 1]
    case Start(works) => !works
    case Switch(works) => if Processing(cs[..|cs| - 1]) then !works else FailedLast(cs[..|cs| - 1])
    case _ => false
  }

  /** The recording under way was started on top of a buffer object that was still held. */
  predicate StartedOver(cs: seq<Command>) {
    cs != [] && cs[|cs| - 1].Start? && HoldsBuffer(cs[..|cs| - 1])
  }

  /**
   For every history of commands: while recording, the driver can reach the
   segment being written exactly when the recording was not started on top of
   a buffer object.  Such an object, even one left by a failed start, counts as
   creator; its destructor, run by the assignment in the next start, unlinks the
   name that the new segment just got.
   */
  lemma {:induction false} RecordingReachableExactly(cs: seq<Command>)
    ensures var m := Managed(cs);
            && m.isProcessing == Processing(cs)
            && (m.shm.held.Holds? <==> Processing(cs))
            && (m.shm.held == Broken <==> FailedLast(cs))
            && (m.shm.held == Nothing <==> !HoldsBuffer(cs))
            && (Processing(cs) ==> (Reachable(m.shm) <==> !StartedOver(cs)))
            && (Processing(cs) && StartedOver(cs) ==> m.shm.name == None)
            && (Processing(cs) ==> m.shm.segs[m.shm.held.seg].capacity == 9600 && m.shm.segs[m.shm.held.seg].active)
    decreases |cs|
  {
    hide NewRing;
    if cs != [] {
      RecordingReachableExactly(cs[..|cs| - 1]);
    }
  }

  /** The menu's switch alternates: between two starts lies a stop or a new launch. */
  ghost predicate Alternates(cs: seq<Command>)
    decreases |cs|
  {
    cs != [] ==> Alternates(cs[..|cs| - 1]) && (cs[|cs| - 1].Start? ==> !HoldsBuffer(cs[..|cs| - 1]))
  }

  /** So whatever fails on the way, a recording started from the menu can always be reached. */
  lemma MenuIsSafe(cs: seq<Command>)
    requires Alternates(cs) && Processing(cs)
    ensures Reachable(Managed(cs).shm)
  {
    RecordingReachableExactly(cs);
  }

  /** The shortest history that goes wrong without the stop: a start that fails, then one that succeeds. */
  lemma SecondStartIsUnreachable(cs: seq<Command>)
    requires |cs| == 2 && cs[0] == Start(false) && cs[1] == Start(true)
    ensures Managed(cs).isProcessing && Managed(cs).shm.held.Holds? && Managed(cs).shm.name == None
  {
    hide Managed;
    var first := cs[..1];
    assert first[|first| - 1] == Start(false);
    assert Processing(cs) && HoldsBuffer(first);
    RecordingReachableExactly(cs);
  }
}
