/**
 The virtual microphone's connection to the shared segment as a value: the
 fields of the handler and what each callback does to them.  `IoHandler`
 proves the in-place code against these functions.  Segments are of any type.
 */
module DriverSpec {
  import opened Wrappers

  const STALE_THRESHOLD: nat := 50

  datatype Driver<+Seg> = Driver(conn: Option<Seg>, countdown: nat, wasConnected: bool, wasUnderrun: bool, wasEverConnected: bool,
                                lastHeartbeat: nat, stale: nat)

  function Pause<Seg>(d: Driver<Seg>): nat {
    if d.wasEverConnected then 47 else 5
  }

  /** This callback tries to open the segment. */
  predicate Attempts<Seg>(d: Driver<Seg>) {
    d.conn.None? && d.countdown == 0
  }

  /** `ensureConnected`, when an attempt to open the name would map `open`. */
  function EnsureConnected<Seg>(d: Driver<Seg>, open: Option<Seg>): Driver<Seg> {
    if d.conn.Some? then d
    else if d.countdown > 0 then d.(countdown := d.countdown - 1)
    else if open.None? then d.(countdown := Pause(d))
    else d.(conn := open, countdown := 0, wasEverConnected := true)
  }

  function Drop<Seg>(d: Driver<Seg>): Driver<Seg> {
    d.(conn := None, wasConnected := false, lastHeartbeat := 0, stale := 0)
  }

  /** The checks of a connected callback, up to the read: is the producer active, does its heartbeat move? */
  function Check<Seg>(d: Driver<Seg>, active: bool, heartbeat: nat): Driver<Seg> {
    var d1 := if d.wasConnected then d else d.(wasConnected := true, wasUnderrun := false);
    if !active then Drop(d1)
    else if heartbeat != d1.lastHeartbeat then d1.(lastHeartbeat := heartbeat, stale := 0)
    else if d1.stale + 1 >= STALE_THRESHOLD then Drop(d1)
    else d1.(stale := d1.stale + 1)
  }

  /** The rest of a connected callback: a producer that passes the checks is read from. */
  function Serve<Seg>(d: Driver<Seg>, active: bool, heartbeat: nat, enough: bool): Driver<Seg> {
    var d2 := Check(d, active, heartbeat);
    if d2.conn.None? then d2 else d2.(wasUnderrun := !enough)
  }

  function OnStartIO<Seg>(d: Driver<Seg>, open: Option<Seg>): Driver<Seg> {
    EnsureConnected(Driver(None, 0, false, false, false, 0, 0), open)
  }

  function OnStopIO<Seg>(d: Driver<Seg>): Driver<Seg> {
    Driver(None, 0, false, false, d.wasEverConnected, 0, 0)
  }

  /** What one callback finds: the segment behind the name, each segment's flag and heartbeat, and whether enough audio is there. */
  datatype World<!Seg> = World(open: Option<Seg>, active: Seg -> bool, heartbeat: Seg -> nat, enough: bool)

  /** `OnReadClientInput`, as far as the handler's own fields go. */
  function Callback<Seg>(d: Driver<Seg>, w: World<Seg>): Driver<Seg> {
    var d1 := EnsureConnected(d, w.open);
    match d1.conn
    case None => d1.(wasConnected := false)
    case Some(s) => Serve(d1, w.active(s), w.heartbeat(s), w.enough)
  }
}
