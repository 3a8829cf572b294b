/** The driver's code: the handler's fields updated in place at every callback, proved against `DriverSpec` and `RingSpec`. */
module IoHandler {
  import opened Wrappers
  import opened DriverSpec
  import opened RingSpec
  import opened Samples
  import opened SharedRing

  function Reference(s: Segment?): Option<Segment> {
    if s == null then None else var segment: Segment := s; Some(segment)
  }

  class IOHandler {
    var buffer: SharedRingBuffer?
    var reconnectCountdown: nat
    var wasConnected: bool
    var wasUnderrun: bool
    var wasEverConnected: bool
    var lastHeartbeat: nat
    var staleCount: nat

    function State(): Driver<Segment>
      reads this, buffer
    {
      Driver(if buffer == null then None else Reference(buffer.segment),
             reconnectCountdown, wasConnected, wasUnderrun, wasEverConnected, lastHeartbeat, staleCount)
    }

    /** The held buffer and its mapping. */
    ghost function Held(): set<object>
      reads this, buffer
    {
      if buffer == null then {} else {buffer} + buffer.Memory()
    }

    ghost predicate Valid()
      reads this, buffer, Held()
    {
      buffer != null ==> !buffer.isCreator && buffer.segment != null && buffer.Valid()
    }

    constructor ()
      ensures Valid() && State() == Driver(None, 0, false, false, false, 0, 0)
    {
      buffer := null;
      reconnectCountdown, wasConnected, wasUnderrun, wasEverConnected, lastHeartbeat, staleCount := 0, false, false, false, 0, 0;
    }

    /** What opening the name would map. */
    static ghost function Opened(name: Name, works: bool): Option<Segment>
      reads name
    {
      if works then Reference(name.entry) else None
    }

    /** `shared_buffer_.reset()`. */
    method Release()
      requires Valid()
      modifies this`buffer, buffer
      ensures buffer == null
    {
      if buffer != null {
        buffer.Destroy();
      }
      buffer := null;
    }

    method EnsureConnected(name: Name, works: bool) returns (ok: bool)
      requires Valid() && name.Valid()
      modifies this, name.entry
      ensures Valid() && State() == DriverSpec.EnsureConnected(old(State()), old(Opened(name, works)))
      ensures ok == State().conn.Some?
      ensures buffer != old(buffer) ==> fresh(buffer)
      ensures State().conn != old(State().conn) ==> name.entry != null && name.entry.Value() == Flush(old(name.entry.Value()))
      ensures State().conn == old(State().conn) && name.entry != null ==> name.entry.Value() == old(name.entry.Value())
    {
      if buffer != null && buffer.segment != null {
        return true;
      }
      if reconnectCountdown > 0 {
        reconnectCountdown := reconnectCountdown - 1;
        return false;
      }
      reconnectCountdown := if wasEverConnected then 47 else 5;
      var candidate := new SharedRingBuffer.Open(name, works);
      if candidate.segment == null {
        return false;
      }
      buffer := candidate;
      buffer.Flush();
      reconnectCountdown := 0;
      wasEverConnected := true;
      ok := true;
    }

    /** Any earlier mapping is given up, and with it the memory of having been connected. */
    method OnStartIO(name: Name, works: bool)
      requires Valid() && name.Valid()
      modifies this, buffer, name.entry
      ensures Valid() && State() == DriverSpec.OnStartIO(old(State()), old(Opened(name, works)))
      ensures (buffer != null) == (works && name.entry != null) && (buffer != null ==> buffer.segment == name.entry && fresh(buffer))
      ensures buffer == null ==> reconnectCountdown == 5 && !wasEverConnected
      ensures State().conn.Some? ==> name.entry != null && name.entry.Value() == Flush(old(name.entry.Value()))
    {
      Release();
      wasConnected, wasUnderrun, wasEverConnected := false, false, false;
      reconnectCountdown, lastHeartbeat, staleCount := 0, 0, 0;
      var ok := EnsureConnected(name, works);
    }

    method OnStopIO()
      requires Valid()
      modifies this, buffer
      ensures Valid() && State() == DriverSpec.OnStopIO(old(State()))
      ensures buffer == null && reconnectCountdown == 0 && wasEverConnected == old(wasEverConnected)
    {
      Release();
      wasConnected, wasUnderrun := false, false;
      reconnectCountdown, lastHeartbeat, staleCount := 0, 0, 0;
    }

    /** The producer's flag and heartbeat; a producer that is gone or stands still is dropped. */
    method CheckProducer() returns (alive: bool)
      requires Valid() && buffer != null
      modifies this, buffer
      ensures Valid() && State() == Check(old(State()), old(buffer.segment.active), old(buffer.segment.heartbeat))
      ensures alive == State().conn.Some?
      ensures !old(buffer.segment.active) ==> !alive && buffer == null && lastHeartbeat == 0 && staleCount == 0 && !wasConnected
      ensures alive ==> buffer == old(buffer) && buffer.segment == old(buffer.segment)
    {
      if !wasConnected {
        wasConnected, wasUnderrun := true, false;
      }
      if !buffer.segment.active {
        Release();
        wasConnected, lastHeartbeat, staleCount := false, 0, 0;
        return false;
      }
      var hb := buffer.segment.heartbeat;
      if hb == lastHeartbeat {
        staleCount := staleCount + 1;
        if staleCount >= STALE_THRESHOLD {
          Release();
          wasConnected, lastHeartbeat, staleCount := false, 0, 0;
          return false;
        }
      } else {
        lastHeartbeat, staleCount := hb, 0;
      }
      alive := true;
    }

    static method Silence(output: array<real>)
      modifies output
      ensures output[..] == Zeros(output.Length)
    {
      for k := 0 to output.Length
        invariant forall j :: 0 <= j < k ==> output[j] == 0.0
      {
        output[k] := 0.0;
      }
    }

    /** The read of a connected callback: whole frames from the ring, or silence on an underrun. */
    method Deliver(output: array<real>)
      requires Valid() && buffer != null && output !in Held()
      modifies this`wasUnderrun, buffer.segment, output
      ensures Valid()
      ensures var n, v := output.Length / 2 * 2, old(buffer.segment.Value());
              && State() == old(State()).(wasUnderrun := !CanRead(v, n))
              && buffer.segment.Value() == RingSpec.Read(v, n)
              && output[..] == if CanRead(v, n) then Taken(v, n) + old(output[n..]) else Zeros(output.Length)
    {
      var numFrames := output.Length / 2;
      var totalSamples := numFrames * 2;
      var ok := buffer.Read(output, totalSamples);
      if !ok {
        wasUnderrun := true;
        Silence(output);
      } else if wasUnderrun {
        wasUnderrun := false;
      }
    }

    /** The ring that a callback finds, after the flush if it connects just now. */
    ghost function Finds(name: Name, works: bool): Option<Ring>
      requires Valid() && name.Valid()
      reads this, buffer, Held(), name, name.Memory()
    {
      match DriverSpec.EnsureConnected(State(), Opened(name, works)).conn
      case None => None
      case Some(s) => Some(if State().conn.Some? then s.Value() else Flush(s.Value()))
    }

    /** A connected callback: the checks, then the read. */
    method Answer(output: array<real>)
      requires Valid() && buffer != null && output !in Held()
      modifies this, buffer, buffer.segment, output
      ensures Valid()
      ensures var n, v, s := output.Length / 2 * 2, old(buffer.segment.Value()), old(buffer.segment);
              && State() == Serve(old(State()), v.active, v.heartbeat, CanRead(v, n))
              && s.Value() == (if State().conn.Some? then RingSpec.Read(v, n) else v)
              && (State().conn.Some? ==> State().conn == old(State()).conn)
              && output[..] == if State().conn.Some? && CanRead(v, n) then Taken(v, n) + old(output[n..]) else Zeros(output.Length)
    {
      hide Check, RingSpec.Read, Taken, CanRead, Zeros;
      var alive := CheckProducer();
      if alive {
        Deliver(output);
      } else {
        Silence(output);
      }
    }

    /** What the callback sees of the world, for `DriverSpec.Callback`. */
    static ghost function Sees(open: Option<Segment>, found: Option<Ring>, n: nat): World<Segment>
      requires found.Some? ==> found.value.Ok()
    {
      match found
      case None => World(open, _ => false, _ => 0, false)
      case Some(v) => World(open, _ => v.active, _ => v.heartbeat, CanRead(v, n))
    }

    /** `bytesCount` is four times the length of `output`; an odd last sample belongs to no whole frame. */
    method OnReadClientInput(name: Name, works: bool, output: array<real>)
      requires Valid() && name.Valid() && output !in Held() + name.Memory()
      modifies this, buffer, if buffer == null then {} else {buffer.segment}, name.entry, output
      ensures Valid()
      ensures State() == Callback(old(State()),
                old(Sees(Opened(name, works), Finds(name, works), output.Length / 2 * 2)))
      ensures var n, found := output.Length / 2 * 2, old(Finds(name, works));
              match found
              case None => output[..] == Zeros(output.Length)
              case Some(v) =>
                var s := old(DriverSpec.EnsureConnected(State(), Opened(name, works)).conn.value);
                && s.Value() == (if State().conn.Some? then RingSpec.Read(v, n) else v)
                && (State().conn.Some? ==> State().conn == Some(s))
                && output[..] == if State().conn.Some? && CanRead(v, n) then Taken(v, n) + old(output[n..]) else Zeros(output.Length)
    {
      hide Serve, RingSpec.Read, Taken, CanRead, Zeros;
      var connected := EnsureConnected(name, works);
      if connected {
        Answer(output);
      } else {
        wasConnected := false;
        Silence(output);
      }
    }
  }
}
