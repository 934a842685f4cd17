/** The relay's duplex byte pump: two bounded buffers between two non-blocking streams. */
module Tunnel {
  import opened Core

  const BUFFER_CAPACITY: nat := 64 * 1024
  const CHUNK_BYTES: nat := 8 * 1024

  type Byte = n: nat | n < 256

  /** One call of `read`: at most `count` bytes are ready (none means the peer closed), the call
      would block, or it fails. */
  datatype ReadCall = Ready(count: nat) | ReadBlocks | ReadFails

  /** One call of `write`: at most `count` bytes are taken, the call would block, or it fails. */
  datatype WriteCall = Takes(count: nat) | WriteBlocks | WriteFails

  /** What the environment answers during one iteration, and the time read at its end. */
  datatype Tick = Tick(stop: bool, leftRead: ReadCall, rightRead: ReadCall, rightWrite: WriteCall,
                       leftWrite: WriteCall, now: int)

  datatype PumpExit =
    | Finished
    | ReadError
    | WriteError
    | IdleTimeout
    | StalledTimeout
    | StillRunning

  datatype Stats = Stats(toHost: U64, toClient: U64)

  function SaturatingAdd(a: U64, b: nat): U64 {
    if a + b > MAX_U64 then MAX_U64 else a + b
  }

  function Saturated(n: nat): U64 {
    if n > MAX_U64 then MAX_U64 else n
  }

  function Least(a: nat, b: nat): nat {
    if a < b then a else b
  }

  /** The bytes one read returns: bounded by what is ready, by the space offered and by the stream. */
  function ReadCount(call: ReadCall, available: nat, remaining: nat): nat
    requires call.Ready?
  {
    Least(call.count, Least(available, remaining))
  }

  /** One direction: what was taken from the source is what was written followed by the buffer. */
  ghost predicate Fifo(source: seq<Byte>, taken: nat, buffer: seq<Byte>, written: seq<Byte>) {
    taken <= |source| && written + buffer == source[..taken] && |buffer| <= BUFFER_CAPACITY
  }

  lemma FifoReads(source: seq<Byte>, taken: nat, buffer: seq<Byte>, written: seq<Byte>, count: nat)
    requires Fifo(source, taken, buffer, written) && taken + count <= |source| && |buffer| + count <= BUFFER_CAPACITY
    ensures Fifo(source, taken + count, buffer + source[taken..taken + count], written)
  {
    assert written + (buffer + source[taken..taken + count]) == (written + buffer) + source[taken..taken + count];
  }

  lemma FifoWrites(source: seq<Byte>, taken: nat, buffer: seq<Byte>, written: seq<Byte>, count: nat)
    requires Fifo(source, taken, buffer, written) && count <= |buffer|
    ensures Fifo(source, taken, buffer[count..], written + buffer[..count])
  {
    assert (written + buffer[..count]) + buffer[count..] == written + buffer;
  }

  // ---------- One direction ----------

  /** The bytes taken from the source so far, those waiting, those written, the statistics counter and
      the time since which the receiving side has taken nothing. */
  datatype Lane = Lane(taken: nat, buffer: seq<Byte>, written: seq<Byte>, counted: U64, stalled: Option<int>)

  datatype IoStatus = Progressed | NoProgress | PeerClosed | Broken

  ghost predicate LaneInv(source: seq<Byte>, lane: Lane) {
    && Fifo(source, lane.taken, lane.buffer, lane.written)
    && lane.counted == Saturated(lane.taken)
    && (lane.stalled.Some? ==> lane.buffer != [])
  }

  /** The bytes one read must take: nothing into a full buffer, otherwise the least of what is ready, the
      room, one chunk and what the stream still holds. */
  ghost function ReadSize(source: seq<Byte>, lane: Lane, call: ReadCall): nat
    requires lane.taken <= |source|
  {
    if |lane.buffer| >= BUFFER_CAPACITY || !call.Ready? then 0
    else
      var room, left := BUFFER_CAPACITY - |lane.buffer|, |source| - lane.taken;
      if call.count <= room && call.count <= 8192 && call.count <= left then call.count
      else if room <= 8192 && room <= left then room
      else if 8192 <= left then 8192
      else left
  }

  /** The read finds that the peer has closed. */
  ghost predicate Closes(source: seq<Byte>, lane: Lane, call: ReadCall) {
    |lane.buffer| < BUFFER_CAPACITY && call.Ready? && (call.count == 0 || lane.taken == |source|)
  }

  /** The bytes one write must move out of `waiting`. */
  ghost function WriteSize(waiting: nat, call: WriteCall): nat {
    if !call.Takes? then 0 else if call.count <= waiting then call.count else waiting
  }

  ghost predicate WriteBreaks(waiting: nat, call: WriteCall) {
    waiting > 0 && (call.WriteFails? || call == Takes(0))
  }

  /** Reads one chunk if the buffer has room. */
  function ReadInto(source: seq<Byte>, lane: Lane, call: ReadCall): (r: (Lane, IoStatus))
    requires LaneInv(source, lane)
    ensures LaneInv(source, r.0) && r.0.written == lane.written
    ensures r.1 == Progressed <==> r.0.taken > lane.taken
    ensures r.1 != Progressed ==> r.0 == lane
    ensures r.0.taken == lane.taken + ReadSize(source, lane, call) && r.0.stalled == lane.stalled
    ensures r.1 == PeerClosed <==> Closes(source, lane, call)
    ensures r.1 == Broken <==> |lane.buffer| < BUFFER_CAPACITY && call.ReadFails?
  {
    if |lane.buffer| >= BUFFER_CAPACITY || call.ReadBlocks? then (lane, NoProgress)
    else if call.ReadFails? then (lane, Broken)
    else
      var available := Least(BUFFER_CAPACITY - |lane.buffer|, CHUNK_BYTES);
      var count := ReadCount(call, available, |source| - lane.taken);
      if count == 0 then (lane, PeerClosed)
      else
        FifoReads(source, lane.taken, lane.buffer, lane.written, count);
        (lane.(taken := lane.taken + count,
               buffer := lane.buffer + source[lane.taken..lane.taken + count],
               counted := SaturatingAdd(lane.counted, count)), Progressed)
  }

  /** Offers the whole buffer to the receiving side. */
  function WriteOut(source: seq<Byte>, lane: Lane, call: WriteCall, now: int): (r: (Lane, IoStatus))
    requires LaneInv(source, lane)
    ensures LaneInv(source, r.0) && r.0.taken == lane.taken && r.0.counted == lane.counted
    ensures r.1 == Progressed <==> |r.0.written| > |lane.written|
    ensures r.1 != Progressed ==> r.0.buffer == lane.buffer && r.0.written == lane.written
    ensures r.0.stalled.Some? ==>
              r.1 != Progressed && r.0.stalled == if lane.stalled.Some? then lane.stalled else Some(now)
    ensures r.1 != PeerClosed
    ensures |r.0.written| == |lane.written| + WriteSize(|lane.buffer|, call)
    ensures r.1 == Broken <==> WriteBreaks(|lane.buffer|, call)
    ensures r.1 == Progressed <==> lane.buffer != [] && call.Takes? && call.count > 0
    ensures r.1 == Progressed ==> r.0.stalled == None
    ensures lane.buffer == [] ==> r.0.stalled == None
    ensures lane.buffer != [] && call.WriteBlocks? ==> r.0.stalled.Some?
  {
    if lane.buffer == [] then (lane.(stalled := None), NoProgress)
    else match call
      case WriteFails => (lane, Broken)
      case WriteBlocks => (if lane.stalled.None? then lane.(stalled := Some(now)) else lane, NoProgress)
      case Takes(offered) =>
        var count := Least(offered, |lane.buffer|);
        if count == 0 then (lane, Broken)
        else
          FifoWrites(source, lane.taken, lane.buffer, lane.written, count);
          (lane.(buffer := lane.buffer[count..], written := lane.written + lane.buffer[..count], stalled := None),
           Progressed)
  }

  predicate TimedOut(since: Option<int>, now: int, limit: nat) {
    since.Some? && now - since.value >= limit
  }

  // ---------- One iteration ----------

  /** Both directions after one iteration, whether a byte moved, and the exit it forces, if any. */
  datatype Turned = Turned(toClient: Lane, toHost: Lane, progressed: bool, ended: Option<PumpExit>)

  /** The reads and writes of one iteration, in the order they are made. */
  function Turn(hostIn: seq<Byte>, clientIn: seq<Byte>, toClient: Lane, toHost: Lane, tick: Tick): (t: Turned)
    requires LaneInv(hostIn, toClient) && LaneInv(clientIn, toHost)
    ensures LaneInv(hostIn, t.toClient) && LaneInv(clientIn, t.toHost)
    ensures t.ended.Some? ==> t.ended.value in {Finished, ReadError, WriteError}
  {
    if tick.stop then Turned(toClient, toHost, false, Some(Finished))
    else
      var (c1, fromHost) := ReadInto(hostIn, toClient, tick.leftRead);
      if fromHost == PeerClosed then Turned(c1, toHost, false, Some(Finished))
      else if fromHost == Broken then Turned(c1, toHost, false, Some(ReadError))
      else
        var (h1, fromClient) := ReadInto(clientIn, toHost, tick.rightRead);
        if fromClient == PeerClosed then Turned(c1, h1, false, Some(Finished))
        else if fromClient == Broken then Turned(c1, h1, false, Some(ReadError))
        else
          var (c2, intoClient) := WriteOut(hostIn, c1, tick.rightWrite, tick.now);
          if intoClient == Broken then Turned(c2, h1, false, Some(WriteError))
          else
            var (h2, intoHost) := WriteOut(clientIn, h1, tick.leftWrite, tick.now);
            if intoHost == Broken then Turned(c2, h2, false, Some(WriteError))
            else
              Turned(c2, h2, fromHost == Progressed || fromClient == Progressed || intoClient == Progressed
                             || intoHost == Progressed, None)
  }

  /** The same, statement by statement. */
  method TurnOnce(hostIn: seq<Byte>, clientIn: seq<Byte>, toClient: Lane, toHost: Lane, tick: Tick)
    returns (t: Turned)
    requires LaneInv(hostIn, toClient) && LaneInv(clientIn, toHost)
    ensures t == Turn(hostIn, clientIn, toClient, toHost, tick)
  {
    hide LaneInv;
    if tick.stop {
      return Turned(toClient, toHost, false, Some(Finished));
    }
    var progressed := false;
    var (c1, fromHost) := ReadInto(hostIn, toClient, tick.leftRead);
    if fromHost == PeerClosed || fromHost == Broken {
      return Turned(c1, toHost, false, Some(if fromHost == PeerClosed then Finished else ReadError));
    }
    progressed := progressed || fromHost == Progressed;
    var (h1, fromClient) := ReadInto(clientIn, toHost, tick.rightRead);
    if fromClient == PeerClosed || fromClient == Broken {
      return Turned(c1, h1, false, Some(if fromClient == PeerClosed then Finished else ReadError));
    }
    progressed := progressed || fromClient == Progressed;
    var (c2, intoClient) := WriteOut(hostIn, c1, tick.rightWrite, tick.now);
    if intoClient == Broken {
      return Turned(c2, h1, false, Some(WriteError));
    }
    progressed := progressed || intoClient == Progressed;
    var (h2, intoHost) := WriteOut(clientIn, h1, tick.leftWrite, tick.now);
    if intoHost == Broken {
      return Turned(c2, h2, false, Some(WriteError));
    }
    progressed := progressed || intoHost == Progressed;
    t := Turned(c2, h2, progressed, None);
  }

  /** Which exit an iteration forces: the stop flag first, then the host's read, the client's read, and
      a broken write to either side. */
  lemma TurnEnds(hostIn: seq<Byte>, clientIn: seq<Byte>, toClient: Lane, toHost: Lane, tick: Tick)
    requires LaneInv(hostIn, toClient) && LaneInv(clientIn, toHost)
    ensures var t := Turn(hostIn, clientIn, toClient, toHost, tick);
            var hostRoom, clientRoom := |toClient.buffer| < BUFFER_CAPACITY, |toHost.buffer| < BUFFER_CAPACITY;
            t.ended ==
            if tick.stop || Closes(hostIn, toClient, tick.leftRead) then Some(Finished)
            else if hostRoom && tick.leftRead.ReadFails? then Some(ReadError)
            else if Closes(clientIn, toHost, tick.rightRead) then Some(Finished)
            else if clientRoom && tick.rightRead.ReadFails? then Some(ReadError)
            else if WriteBreaks(|toClient.buffer| + ReadSize(hostIn, toClient, tick.leftRead), tick.rightWrite)
                    || WriteBreaks(|toHost.buffer| + ReadSize(clientIn, toHost, tick.rightRead), tick.leftWrite)
            then Some(WriteError)
            else None
  {
    BufferSizes(hostIn, toClient, ReadInto(hostIn, toClient, tick.leftRead).0);
    BufferSizes(clientIn, toHost, ReadInto(clientIn, toHost, tick.rightRead).0);
  }

  /** What is taken and not written is what waits. */
  lemma BufferSizes(source: seq<Byte>, before: Lane, after: Lane)
    requires LaneInv(source, before) && LaneInv(source, after)
    ensures |before.buffer| == before.taken - |before.written| && |after.buffer| == after.taken - |after.written|
  {
    assert |before.written + before.buffer| == before.taken;
    assert |after.written + after.buffer| == after.taken;
  }

  /** How many bytes an iteration that goes on moves, in both directions; with the FIFO this fixes which. */
  lemma TurnMoves(hostIn: seq<Byte>, clientIn: seq<Byte>, toClient: Lane, toHost: Lane, tick: Tick)
    requires LaneInv(hostIn, toClient) && LaneInv(clientIn, toHost)
    requires Turn(hostIn, clientIn, toClient, toHost, tick).ended.None?
    ensures var t := Turn(hostIn, clientIn, toClient, toHost, tick);
            var fromHost, fromClient := ReadSize(hostIn, toClient, tick.leftRead), ReadSize(clientIn, toHost, tick.rightRead);
            var intoClient := WriteSize(|toClient.buffer| + fromHost, tick.rightWrite);
            var intoHost := WriteSize(|toHost.buffer| + fromClient, tick.leftWrite);
            && t.toClient.taken == toClient.taken + fromHost && |t.toClient.written| == |toClient.written| + intoClient
            && t.toHost.taken == toHost.taken + fromClient && |t.toHost.written| == |toHost.written| + intoHost
            && (t.progressed <==> fromHost + fromClient + intoClient + intoHost > 0)
  {
    BufferSizes(hostIn, toClient, ReadInto(hostIn, toClient, tick.leftRead).0);
    BufferSizes(clientIn, toHost, ReadInto(clientIn, toHost, tick.rightRead).0);
  }

  /** When the receiving side takes everything that waits, all that was read of that direction is written. */
  lemma TurnDrains(hostIn: seq<Byte>, clientIn: seq<Byte>, toClient: Lane, toHost: Lane, tick: Tick)
    requires LaneInv(hostIn, toClient) && LaneInv(clientIn, toHost)
    requires Turn(hostIn, clientIn, toClient, toHost, tick).ended.None?
    ensures var t := Turn(hostIn, clientIn, toClient, toHost, tick);
            && (tick.rightWrite.Takes? && tick.rightWrite.count >= BUFFER_CAPACITY ==>
                  t.toClient.written == hostIn[..t.toClient.taken])
            && (tick.leftWrite.Takes? && tick.leftWrite.count >= BUFFER_CAPACITY ==>
                  t.toHost.written == clientIn[..t.toHost.taken])
  {
    hide ReadInto, WriteOut, Turn, Fifo;
    var t := Turn(hostIn, clientIn, toClient, toHost, tick);
    TurnMoves(hostIn, clientIn, toClient, toHost, tick);
    BufferSizes(hostIn, toClient, t.toClient);
    BufferSizes(clientIn, toHost, t.toHost);
    Drained(hostIn, t.toClient);
    Drained(clientIn, t.toHost);
    ReadFits(hostIn, toClient, tick.leftRead);
    ReadFits(clientIn, toHost, tick.rightRead);
  }

  lemma Drained(source: seq<Byte>, lane: Lane)
    requires LaneInv(source, lane)
    ensures |lane.written| == lane.taken ==> lane.written == source[..lane.taken]
  {
    assert lane.buffer == [] ==> lane.written + lane.buffer == lane.written;
    assert |lane.written + lane.buffer| == lane.taken;
  }

  lemma ReadFits(source: seq<Byte>, lane: Lane, call: ReadCall)
    requires LaneInv(source, lane)
    ensures |lane.buffer| + ReadSize(source, lane, call) <= BUFFER_CAPACITY
  {
  }

  // ---------- The pump ----------

  /** The exit after an iteration that forced none. */
  function Clock(t: Turned, tick: Tick, lastActivity: int, idleTimeout: nat, stalledTimeout: nat): PumpExit {
    if tick.now - (if t.progressed then tick.now else lastActivity) >= idleTimeout then IdleTimeout
    else if TimedOut(t.toClient.stalled, tick.now, stalledTimeout) || TimedOut(t.toHost.stalled, tick.now, stalledTimeout)
    then StalledTimeout
    else StillRunning
  }

  /** When the pump gives up: an iteration that moved nothing comes at least the idle limit after the last
      that did, or else a side has taken nothing for the stall limit. */
  lemma ClockByName(t: Turned, tick: Tick, lastActivity: int, idleTimeout: nat, stalledTimeout: nat)
    ensures var exit := Clock(t, tick, lastActivity, idleTimeout, stalledTimeout);
            var idle := if t.progressed then idleTimeout == 0 else tick.now >= lastActivity + idleTimeout;
            var stalled := || (t.toClient.stalled.Some? && tick.now >= t.toClient.stalled.value + stalledTimeout)
                           || (t.toHost.stalled.Some? && tick.now >= t.toHost.stalled.value + stalledTimeout);
            && (exit == IdleTimeout <==> idle)
            && (exit == StalledTimeout <==> !idle && stalled)
            && (exit == StillRunning <==> !idle && !stalled)
  {
  }

  /** Iterations until one of them ends the pump. */
  function PumpRun(hostIn: seq<Byte>, clientIn: seq<Byte>, toClient: Lane, toHost: Lane, lastActivity: int,
                   script: seq<Tick>, idleTimeout: nat, stalledTimeout: nat): (Lane, Lane, PumpExit)
    requires LaneInv(hostIn, toClient) && LaneInv(clientIn, toHost)
    decreases |script|
  {
    if script == [] then (toClient, toHost, StillRunning)
    else
      var tick := script[0];
      var t := Turn(hostIn, clientIn, toClient, toHost, tick);
      if t.ended.Some? then (t.toClient, t.toHost, t.ended.value)
      else
        var exit := Clock(t, tick, lastActivity, idleTimeout, stalledTimeout);
        if exit != StillRunning then (t.toClient, t.toHost, exit)
        else PumpRun(hostIn, clientIn, t.toClient, t.toHost, if t.progressed then tick.now else lastActivity, script[1..],
                     idleTimeout, stalledTimeout)
  }

  /** What holds on every way out of the pump, for one direction: the peer was sent a prefix of the
      source, what was read and not yet sent is bounded, and the counter tells what was read. */
  ghost predicate Faithful(source: seq<Byte>, lane: Lane) {
    && lane.written <= source
    && |lane.written| <= lane.taken <= |source| && lane.taken <= |lane.written| + 65536
    && lane.written + lane.buffer == source[..lane.taken]
    && lane.counted == Saturated(lane.taken)
  }

  lemma LaneIsFaithful(source: seq<Byte>, lane: Lane)
    requires LaneInv(source, lane)
    ensures Faithful(source, lane)
  {
    assert (lane.written + lane.buffer)[..|lane.written|] == lane.written;
    assert source[..lane.taken][..|lane.written|] == source[..|lane.written|];
  }

  /** `lastActivity` is the time of the last iteration that moved a byte, or the start. */
  ghost predicate QuietSince(script: seq<Tick>, moved: seq<bool>, i: nat, lastActivity: int, started: int) {
    && |moved| == i <= |script|
    && ((lastActivity == started && forall k :: 0 <= k < i ==> !moved[k])
        || exists j :: 0 <= j < i && lastActivity == script[j].now && moved[j] && forall k :: j < k < i ==> !moved[k])
  }

  /** What had been written when iteration `j` began. */
  ghost function SizeBefore(sizes: seq<nat>, j: nat): nat
    requires j <= |sizes|
  {
    if j == 0 then 0 else sizes[j - 1]
  }

  /** A recorded stall began in some iteration, and nothing was written in it or since; `sizes` holds the
      bytes written by the end of each iteration. */
  ghost predicate StalledSince(script: seq<Tick>, sizes: seq<nat>, lane: Lane) {
    && |sizes| <= |script|
    && (lane.stalled.Some? ==>
          exists j :: 0 <= j < |sizes| && script[j].now == lane.stalled.value && SizeBefore(sizes, j) == |lane.written|
            && forall k :: j <= k < |sizes| ==> sizes[k] == |lane.written|)
  }

  /** Bytes wait, and for at least `limit` up to the last iteration none was written. */
  ghost predicate StalledFor(script: seq<Tick>, sizes: seq<nat>, lane: Lane, limit: nat) {
    && StalledSince(script, sizes, lane) && sizes != [] && lane.buffer != []
    && TimedOut(lane.stalled, script[|sizes| - 1].now, limit)
  }

  lemma StallGoesOn(script: seq<Tick>, sizes: seq<nat>, before: Lane, after: Lane)
    requires StalledSince(script, sizes, before) && |sizes| < |script| && SizeBefore(sizes, |sizes|) == |before.written|
    requires after.stalled.Some? ==>
               |after.written| == |before.written|
               && after.stalled == if before.stalled.Some? then before.stalled else Some(script[|sizes|].now)
    ensures StalledSince(script, sizes + [|after.written|], after)
    ensures SizeBefore(sizes + [|after.written|], |sizes| + 1) == |after.written|
  {
    var n, longer := |sizes|, sizes + [|after.written|];
    if after.stalled.Some? {
      if before.stalled.Some? {
        var j :| 0 <= j < n && script[j].now == before.stalled.value && SizeBefore(sizes, j) == |before.written|
          && forall k :: j <= k < n ==> sizes[k] == |before.written|;
        assert SizeBefore(longer, j) == SizeBefore(sizes, j);
        assert forall k :: j <= k < n + 1 ==> longer[k] == |after.written|;
      } else {
        assert SizeBefore(longer, n) == SizeBefore(sizes, n) && script[n].now == after.stalled.value;
      }
    }
  }

  const EMPTY := Lane(0, [], [], 0, None)

  /** The pump from its start, with both buffers empty. */
  function PumpFrom(hostIn: seq<Byte>, clientIn: seq<Byte>, started: int, script: seq<Tick>, idleTimeout: nat,
                    stalledTimeout: nat): (Lane, Lane, PumpExit)
  {
    EmptyLane(hostIn);
    EmptyLane(clientIn);
    PumpRun(hostIn, clientIn, EMPTY, EMPTY, started, script, idleTimeout, stalledTimeout)
  }

  /** Runs the pump against the environment's answers: iteration by iteration as specified. Whatever the
      answers are and however the pump ends, both directions are faithful; a stall is reported only when
      one direction has bytes waiting and wrote none for at least the limit, and an idle timeout only
      when nothing moved for its limit. */
  method Pump(hostIn: seq<Byte>, clientIn: seq<Byte>, script: seq<Tick>, started: int, idleTimeout: nat,
              stalledTimeout: nat)
    returns (exit: PumpExit, stats: Stats, toClient: Lane, toHost: Lane, moved: seq<bool>, lastActivity: int,
             clientSizes: seq<nat>, hostSizes: seq<nat>)
    ensures (toClient, toHost, exit) == PumpFrom(hostIn, clientIn, started, script, idleTimeout, stalledTimeout)
    ensures Faithful(hostIn, toClient) && Faithful(clientIn, toHost)
    ensures stats == Stats(Saturated(toHost.taken), Saturated(toClient.taken))
    ensures exit.StalledTimeout? ==> StalledFor(script, clientSizes, toClient, stalledTimeout)
                                     || StalledFor(script, hostSizes, toHost, stalledTimeout)
    ensures |moved| <= |script| && QuietSince(script, moved, |moved|, lastActivity, started)
    ensures exit.IdleTimeout? ==> moved != [] && script[|moved| - 1].now - lastActivity >= idleTimeout
    ensures exit.StillRunning? ==> |moved| == |script|
  {
    hide Faithful, LaneInv, Turn, QuietSince, StalledSince, StalledFor, PumpRun, PumpFrom, SizeBefore;
    toClient, toHost := EMPTY, EMPTY;
    moved, lastActivity, exit, clientSizes, hostSizes := [], started, StillRunning, [], [];
    EmptyLane(hostIn);
    EmptyLane(clientIn);
    NothingYet(script, started);
    PumpStarts(hostIn, clientIn, started, script, idleTimeout, stalledTimeout);
    var i := 0;
    while i < |script|
      invariant 0 <= i <= |script| && LaneInv(hostIn, toClient) && LaneInv(clientIn, toHost)
      invariant PumpFrom(hostIn, clientIn, started, script, idleTimeout, stalledTimeout) ==
                PumpRun(hostIn, clientIn, toClient, toHost, lastActivity, script[i..], idleTimeout, stalledTimeout)
      invariant |moved| == i && QuietSince(script, moved, i, lastActivity, started)
      invariant |clientSizes| == i && StalledSince(script, clientSizes, toClient)
      invariant |hostSizes| == i && StalledSince(script, hostSizes, toHost)
      invariant SizeBefore(clientSizes, i) == |toClient.written| && SizeBefore(hostSizes, i) == |toHost.written|
      invariant exit == StillRunning
    {
      var tick := script[i];
      PumpGoesOn(hostIn, clientIn, toClient, toHost, lastActivity, script, i, idleTimeout, stalledTimeout);
      var t := TurnOnce(hostIn, clientIn, toClient, toHost, tick);
      if t.ended.Some? {
        toClient, toHost, exit := t.toClient, t.toHost, t.ended.value;
        break;
      }
      TurnStalls(hostIn, clientIn, toClient, toHost, tick);
      MovedOnce(script, moved, i, lastActivity, started, t.progressed);
      StallGoesOn(script, clientSizes, toClient, t.toClient);
      StallGoesOn(script, hostSizes, toHost, t.toHost);
      toClient, toHost := t.toClient, t.toHost;
      moved := moved + [t.progressed];
      clientSizes, hostSizes := clientSizes + [|toClient.written|], hostSizes + [|toHost.written|];
      i := i + 1;
      if t.progressed {
        lastActivity := tick.now;
      }
      if tick.now - lastActivity >= idleTimeout {
        exit := IdleTimeout;
        break;
      }
      if TimedOut(toClient.stalled, tick.now, stalledTimeout) || TimedOut(toHost.stalled, tick.now, stalledTimeout) {
        exit := StalledTimeout;
        StallIsReported(hostIn, script, clientSizes, toClient, stalledTimeout);
        StallIsReported(clientIn, script, hostSizes, toHost, stalledTimeout);
        break;
      }
    }
    if exit == StillRunning {
      PumpRunsOut(hostIn, clientIn, toClient, toHost, lastActivity, script[i..], idleTimeout, stalledTimeout);
    }
    LaneIsFaithful(hostIn, toClient);
    LaneIsFaithful(clientIn, toHost);
    LaneCounts(hostIn, toClient);
    LaneCounts(clientIn, toHost);
    stats := Stats(toHost.counted, toClient.counted);
  }

  /** A stall recorded by an iteration is an old one, or starts now; and nothing was written. */
  lemma TurnStalls(hostIn: seq<Byte>, clientIn: seq<Byte>, toClient: Lane, toHost: Lane, tick: Tick)
    requires LaneInv(hostIn, toClient) && LaneInv(clientIn, toHost)
    requires Turn(hostIn, clientIn, toClient, toHost, tick).ended.None?
    ensures var t := Turn(hostIn, clientIn, toClient, toHost, tick);
            && (t.toClient.stalled.Some? ==>
                  |t.toClient.written| == |toClient.written|
                  && t.toClient.stalled == if toClient.stalled.Some? then toClient.stalled else Some(tick.now))
            && (t.toHost.stalled.Some? ==>
                  |t.toHost.written| == |toHost.written|
                  && t.toHost.stalled == if toHost.stalled.Some? then toHost.stalled else Some(tick.now))
  {
    hide LaneInv, ReadSize, WriteSize;
  }

  lemma PumpStarts(hostIn: seq<Byte>, clientIn: seq<Byte>, started: int, script: seq<Tick>, idleTimeout: nat,
                   stalledTimeout: nat)
    ensures LaneInv(hostIn, EMPTY) && LaneInv(clientIn, EMPTY)
    ensures PumpFrom(hostIn, clientIn, started, script, idleTimeout, stalledTimeout) ==
            PumpRun(hostIn, clientIn, EMPTY, EMPTY, started, script[0..], idleTimeout, stalledTimeout)
  {
    EmptyLane(hostIn);
    EmptyLane(clientIn);
    assert script[0..] == script;
  }

  /** The first iteration of the rest of the script. */
  lemma PumpGoesOn(hostIn: seq<Byte>, clientIn: seq<Byte>, toClient: Lane, toHost: Lane, lastActivity: int,
                   script: seq<Tick>, i: nat, idleTimeout: nat, stalledTimeout: nat)
    requires LaneInv(hostIn, toClient) && LaneInv(clientIn, toHost) && i < |script|
    ensures var t := Turn(hostIn, clientIn, toClient, toHost, script[i]);
            var exit := if t.ended.Some? then t.ended.value
                        else Clock(t, script[i], lastActivity, idleTimeout, stalledTimeout);
            PumpRun(hostIn, clientIn, toClient, toHost, lastActivity, script[i..], idleTimeout, stalledTimeout) ==
            if exit != StillRunning then (t.toClient, t.toHost, exit)
            else PumpRun(hostIn, clientIn, t.toClient, t.toHost, if t.progressed then script[i].now else lastActivity,
                         script[i + 1..], idleTimeout, stalledTimeout)
  {
    hide Turn, LaneInv;
    assert script[i..][0] == script[i] && script[i..][1..] == script[i + 1..];
  }

  lemma PumpRunsOut(hostIn: seq<Byte>, clientIn: seq<Byte>, toClient: Lane, toHost: Lane, lastActivity: int,
                    script: seq<Tick>, idleTimeout: nat, stalledTimeout: nat)
    requires LaneInv(hostIn, toClient) && LaneInv(clientIn, toHost) && script == []
    ensures PumpRun(hostIn, clientIn, toClient, toHost, lastActivity, script, idleTimeout, stalledTimeout)
            == (toClient, toHost, StillRunning)
  {
  }

  lemma StallIsReported(source: seq<Byte>, script: seq<Tick>, sizes: seq<nat>, lane: Lane, limit: nat)
    requires LaneInv(source, lane) && StalledSince(script, sizes, lane) && sizes != [] && |sizes| <= |script|
    ensures TimedOut(lane.stalled, script[|sizes| - 1].now, limit) ==> StalledFor(script, sizes, lane, limit)
  {
  }

  lemma LaneCounts(source: seq<Byte>, lane: Lane)
    requires LaneInv(source, lane)
    ensures lane.counted == Saturated(lane.taken)
  {
  }

  lemma NothingYet(script: seq<Tick>, started: int)
    ensures QuietSince(script, [], 0, started, started) && StalledSince(script, [], EMPTY) && SizeBefore([], 0) == 0
  {
  }

  lemma EmptyLane(source: seq<Byte>)
    ensures LaneInv(source, EMPTY)
  {
  }

  lemma MovedOnce(script: seq<Tick>, moved: seq<bool>, i: nat, lastActivity: int, started: int, progressed: bool)
    requires QuietSince(script, moved, i, lastActivity, started) && i < |script|
    ensures QuietSince(script, moved + [progressed], i + 1, if progressed then script[i].now else lastActivity, started)
  {
    var after := moved + [progressed];
    if progressed {
      assert after[i];
    } else if !(lastActivity == started && forall k :: 0 <= k < i ==> !moved[k]) {
      var j :| 0 <= j < i && lastActivity == script[j].now && moved[j] && forall k :: j < k < i ==> !moved[k];
      assert after[j] && forall k :: j < k < i + 1 ==> !after[k];
    }
  }
}
