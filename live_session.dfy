/** The live conversation session: its status machine, the capture step that
    resamples microphone frames and hands them to the uplink, and the
    downlink scheduler that queues decoded chunks back to back on the audio
    clock and drops them all on an interruption.

    The Web Audio graph, the microphone and the remote transport are outside
    the model: the audio clock reading `now`, the identity of each playback
    node, the outcome of every setup step and of every send, and the base64
    and PCM16 encoders arrive as parameters. Every callback of the original is
    one method, and callbacks run one at a time. */
module LiveAudio {
  import opened Types
  import Js
  import Resampler
  import Pcm16

  /** The rate the remote peer expects uplink audio at. */
  const TargetRate: real := 24000.0

  /** The rate of the downlink PCM chunks. */
  const DownlinkRate: real := 24000.0

  /** The MIME type attached to every uplink frame. */
  function UplinkMimeType(): string {
    "audio/pcm;rate=" + Js.NatToString(24000)
  }

  const SetupFailureMessage: string := "Failed to access microphone or API."
  const ConnectionUnstableMessage: string := "Connection unstable."

  datatype Status = Idle | Connecting | Live | Error

  /** Where `connect` stops: the AudioContext constructor, the microphone
      request or the transport's connect call may each throw. */
  datatype SetupOutcome = AudioContextFails | MicrophoneFails | TransportFails | SetupSucceeds

  /** One uplink frame as handed to sendRealtimeInput. */
  datatype Media = Media(mimeType: string, data: string)

  /** One capture processor built by the open callback: the audio context it
      runs on, that context's sample rate, and the `muted` value its
      onaudioprocess closure captured. */
  datatype Processor = Processor(context: nat, rate: real, muted: bool)

  /** Every processor resamples from a real, positive context rate. */
  ghost predicate PositiveRates(processors: seq<Processor>) {
    forall p :: p in processors ==> p.rate > 0.0
  }

  /** The processors that keep running once the context `closed`, when there
      is one, is closed: a closed context stops every processor built on it. */
  function OffContext(processors: seq<Processor>, closed: Option<nat>): (r: seq<Processor>)
    ensures closed.None? ==> r == processors
    ensures |r| <= |processors|
    ensures forall p :: p in r ==> p in processors && (closed.Some? ==> p.context != closed.value)
    ensures forall p :: p in processors && (closed.Some? ==> p.context != closed.value) ==> p in r
  {
    if closed.None? then processors
    else
      var kept := Js.Filter(processors, (p: Processor) => p.context != closed.value);
      assert forall p :: p in kept ==> p.context != closed.value by {
        forall p | p in kept ensures p.context != closed.value {
          var i :| 0 <= i < |kept| && kept[i] == p;
        }
      }
      assert forall p :: p in processors && p.context != closed.value ==> p in kept by {
        forall p | p in processors && p.context != closed.value ensures p in kept {
          var i :| 0 <= i < |processors| && processors[i] == p;
        }
      }
      kept
  }

  /** The processors still running after the capture teardown of
      `disconnect`: the one in processorRef (the last built), when `holding`,
      is disconnected, and the context `closed`, when there is one, is
      closed. Processors built earlier on other contexts keep running. */
  function Released(processors: seq<Processor>, holding: bool, closed: Option<nat>): (r: seq<Processor>)
    requires holding ==> |processors| > 0
    ensures |r| <= |processors|
    ensures forall p :: p in r ==> p in processors && (closed.Some? ==> p.context != closed.value)
    ensures forall i :: 0 <= i < |processors| - (if holding then 1 else 0) ==>
      (closed.Some? ==> processors[i].context != closed.value) ==> processors[i] in r
    ensures (forall p :: p in processors ==> closed.Some? && p.context == closed.value) ==> r == []
  {
    var kept := if holding then processors[..|processors| - 1] else processors;
    assert forall p :: p in kept ==> p in processors by {
      forall p | p in kept ensures p in processors {
        var i :| 0 <= i < |kept| && kept[i] == p;
        assert processors[i] == p;
      }
    }
    assert forall i :: 0 <= i < |kept| ==> kept[i] == processors[i];
    var r := OffContext(kept, closed);
    assert r != [] ==> r[0] in r;
    r
  }

  /** The parts of a server message the handler reads: the inline audio of the
      first part of the model turn, and the interruption flag. */
  datatype ServerMessage = ServerMessage(audioData: Option<string>, interrupted: bool)

  /** One scheduled playback node: its identity, its start on the audio clock,
      its duration and its samples. */
  datatype PlaybackChunk = PlaybackChunk(id: nat, start: real, duration: real, samples: seq<real>)

  function ChunkEnd(c: PlaybackChunk): real {
    c.start + c.duration
  }

  /** Where a chunk arriving at `now` starts: Math.max(now, nextStartTime),
      never in the past and never before audio already queued. */
  function ScheduleStart(now: real, cursor: real): (start: real)
    ensures start >= now && start >= cursor
    ensures start == now || start == cursor
  {
    if now >= cursor then now else cursor
  }

  /** Consecutive chunks do not overlap. */
  ghost predicate Successive(chunks: seq<PlaybackChunk>) {
    forall i :: 0 <= i < |chunks| - 1 ==> ChunkEnd(chunks[i]) <= chunks[i + 1].start
  }

  /** No two chunks overlap, whichever pair is taken. */
  ghost predicate PairwiseDisjoint(chunks: seq<PlaybackChunk>) {
    forall i, j :: 0 <= i < j < |chunks| ==> ChunkEnd(chunks[i]) <= chunks[j].start
  }

  ghost predicate NonNegativeDurations(chunks: seq<PlaybackChunk>) {
    forall i :: 0 <= i < |chunks| ==> chunks[i].duration >= 0.0
  }

  /** Chunks of non-negative length that do not overlap their successors do
      not overlap any later chunk. */
  lemma {:induction false} SuccessiveArePairwiseDisjoint(chunks: seq<PlaybackChunk>)
    requires NonNegativeDurations(chunks) && Successive(chunks)
    ensures PairwiseDisjoint(chunks)
  {
    if |chunks| > 1 {
      var rest := chunks[1..];
      assert NonNegativeDurations(rest) && Successive(rest) by {
        forall i | 0 <= i < |rest| - 1 ensures ChunkEnd(rest[i]) <= rest[i + 1].start {
          assert rest[i] == chunks[i + 1] && rest[i + 1] == chunks[i + 2];
        }
      }
      SuccessiveArePairwiseDisjoint(rest);
      forall i, j | 0 <= i < j < |chunks| ensures ChunkEnd(chunks[i]) <= chunks[j].start {
        if i > 0 {
          assert chunks[i] == rest[i - 1] && chunks[j] == rest[j - 1];
        } else if j > 1 {
          assert chunks[1] == rest[0] && chunks[j] == rest[j - 1];
          assert chunks[1].start <= ChunkEnd(chunks[1]);
        }
      }
    }
  }

  function Ids(chunks: seq<PlaybackChunk>): set<nat> {
    set i | 0 <= i < |chunks| :: chunks[i].id
  }

  /** Whether a message carries audio the handler plays: inline data that is
      present and non-empty, with an audio context held. */
  predicate PlaysAudio(msg: ServerMessage, hasAudioContext: bool) {
    msg.audioData.Some? && msg.audioData.value != "" && hasAudioContext
  }

  /** Whether the message callback throws at createBuffer: the audio it
      would play decodes to fewer than two bytes, so the buffer would hold no
      sample, and a buffer of length 0 is refused with NotSupportedError. */
  predicate AudioThrows(msg: ServerMessage, hasAudioContext: bool, decode: string -> seq<Pcm16.byte>) {
    PlaysAudio(msg, hasAudioContext) && |decode(msg.audioData.value)| < 2
  }

  /** The node a downlink chunk becomes: its PCM16 samples, started at the
      later of the clock and the cursor, lasting one second per 24000 samples. */
  function NewChunk(bytes: seq<Pcm16.byte>, now: real, cursor: real, id: nat): (chunk: PlaybackChunk)
    ensures chunk.start >= now && chunk.start >= cursor && chunk.duration >= 0.0
    ensures chunk.duration * DownlinkRate == (|bytes| / 2) as real
    ensures forall i :: 0 <= i < |chunk.samples| ==> -1.0 <= chunk.samples[i] < 1.0
  {
    var samples := Pcm16.Decode(bytes);
    Pcm16.DecodeShape(bytes);
    PlaybackChunk(id, ScheduleStart(now, cursor), |samples| as real / DownlinkRate, samples)
  }

  lemma IdsAppend(chunks: seq<PlaybackChunk>, chunk: PlaybackChunk)
    ensures Ids(chunks + [chunk]) == Ids(chunks) + {chunk.id}
  {
    var s := chunks + [chunk];
    forall x | x in Ids(s) ensures x in Ids(chunks) + {chunk.id} {
      var i :| 0 <= i < |s| && s[i].id == x;
      if i < |chunks| { assert s[i] == chunks[i]; }
    }
    forall x | x in Ids(chunks) + {chunk.id} ensures x in Ids(s) {
      if x in Ids(chunks) {
        var i :| 0 <= i < |chunks| && chunks[i].id == x;
        assert s[i] == chunks[i];
      } else {
        assert s[|chunks|] == chunk;
      }
    }
  }

  /** The playback timeline a session keeps: every chunk has a length, the
      chunks since the last interruption (from `epoch` on) do not overlap,
      the cursor is at or after the end of the last of them, and every
      playing node is one of them. */
  ghost predicate Timeline(scheduled: seq<PlaybackChunk>, epoch: nat, cursor: real, active: set<nat>) {
    && epoch <= |scheduled|
    && NonNegativeDurations(scheduled)
    && Successive(scheduled[epoch..])
    && (epoch < |scheduled| ==> ChunkEnd(scheduled[|scheduled| - 1]) <= cursor)
    && active <= Ids(scheduled[epoch..])
  }

  /** A chunk that starts at or after the cursor, once queued and playing
      with the cursor moved to its end, keeps the timeline. */
  lemma ScheduleExtendsTimeline(scheduled: seq<PlaybackChunk>, epoch: nat, cursor: real, active: set<nat>,
                                chunk: PlaybackChunk)
    requires Timeline(scheduled, epoch, cursor, active)
    requires chunk.start >= cursor && chunk.duration >= 0.0
    ensures Timeline(scheduled + [chunk], epoch, ChunkEnd(chunk), active + {chunk.id})
  {
    var s := scheduled + [chunk];
    var current := scheduled[epoch..];
    var x := current + [chunk];
    assert s[epoch..] == x;
    forall i | 0 <= i < |x| - 1 ensures ChunkEnd(x[i]) <= x[i + 1].start {
      if i + 1 < |current| {
        assert x[i] == current[i] && x[i + 1] == current[i + 1];
      } else {
        assert x[i] == current[|current| - 1] == scheduled[|scheduled| - 1];
        assert x[i + 1] == chunk;
      }
    }
    forall i | 0 <= i < |s| ensures s[i].duration >= 0.0 {
      if i < |scheduled| {
        assert s[i] == scheduled[i];
      }
    }
    IdsAppend(current, chunk);
    assert s[|s| - 1] == chunk;
  }

  /** After an interruption the timeline starts a new, empty run. */
  lemma InterruptRestartsTimeline(scheduled: seq<PlaybackChunk>, epoch: nat, cursor: real, active: set<nat>,
                                  newCursor: real)
    requires Timeline(scheduled, epoch, cursor, active)
    ensures Timeline(scheduled, |scheduled|, newCursor, {})
  {
    assert scheduled[|scheduled|..] == [];
  }

  class LiveSession {
    // UI state
    var status: Status
    var errorMsg: string
    var connected: bool
    var muted: bool

    // The `muted` value the capture callback closed over when `connect` ran.
    var captureMuted: bool

    // The number of audio contexts created so far; the one in audioContextRef,
    // when a context is held, is the latest, numbered `contexts`.
    var contexts: nat

    // audioContextRef: whether a context is held, and its hardware rate.
    var hasAudioContext: bool
    var sampleRate: real

    // Every capture processor still running, in the order the open callback
    // built them. A processor keeps running until it is disconnected or its
    // context is closed; no callback removes it otherwise.
    var processors: seq<Processor>

    // processorRef / inputSourceRef: whether they hold a processor; when they
    // do, it is the last one in `processors`.
    var capturing: bool

    // activeSessionRef: whether a transport session is held.
    var hasSession: bool

    // The playback timeline: nextStartTimeRef and sourcesRef.
    var nextStartTime: real
    var active: set<nat>

    // What left the component: uplink frames the transport accepted, every
    // node started (in order) and every node stopped.
    var uplink: seq<Media>
    var scheduled: seq<PlaybackChunk>
    var stopped: set<nat>

    // The index in `scheduled` of the first chunk after the last interruption.
    ghost var epoch: nat

    ghost predicate Valid()
      reads this
    {
      && sampleRate > 0.0
      && PositiveRates(processors)
      && (capturing ==> |processors| > 0)
      && Timeline(scheduled, epoch, nextStartTime, active)
    }

    /** Every running processor is built on the context held now, so closing
        that context stops all capture. */
    ghost predicate CaptureOwned()
      reads this
    {
      forall p :: p in processors ==> hasAudioContext && p.context == contexts
    }

    /** Everything still playing was scheduled after the last interruption,
        and those chunks never overlap one another. */
    lemma ActiveChunksDisjoint()
      requires Valid()
      ensures PairwiseDisjoint(scheduled[epoch..])
      ensures forall id :: id in active ==> exists i :: epoch <= i < |scheduled| && scheduled[i].id == id
    {
      var current := scheduled[epoch..];
      assert NonNegativeDurations(current) by {
        forall i | 0 <= i < |current| ensures current[i].duration >= 0.0 {
          assert current[i] == scheduled[epoch + i];
        }
      }
      SuccessiveArePairwiseDisjoint(current);
      forall id | id in active
        ensures exists i :: epoch <= i < |scheduled| && scheduled[i].id == id
      {
        var k :| 0 <= k < |current| && current[k].id == id;
        assert scheduled[epoch + k] == current[k];
      }
    }

    constructor ()
      ensures Valid()
      ensures status == Idle && errorMsg == "" && !connected && !muted
      ensures !hasAudioContext && !capturing && !hasSession
      ensures contexts == 0 && processors == []
      ensures nextStartTime == 0.0 && active == {}
      ensures uplink == [] && scheduled == [] && stopped == {}
    {
      status, errorMsg, connected, muted := Idle, "", false, false;
      captureMuted := false;
      contexts, hasAudioContext, sampleRate := 0, false, TargetRate;
      processors, capturing, hasSession := [], false, false;
      nextStartTime, active := 0.0, {};
      uplink, scheduled, stopped := [], [], {};
      epoch := 0;
    }

    /** `connect`: shows `connecting` and clears the error, then creates the
        audio context, asks for the microphone and opens the transport; an
        exception at any of these steps ends in `error` with a message. */
    method Connect(outcome: SetupOutcome, contextRate: real)
      requires Valid() && contextRate > 0.0
      modifies this`status, this`errorMsg, this`captureMuted, this`contexts, this`hasAudioContext, this`sampleRate
      ensures Valid()
      ensures captureMuted == muted
      ensures outcome == SetupSucceeds ==> status == Connecting && errorMsg == ""
      ensures outcome != SetupSucceeds ==> status == Status.Error && errorMsg == SetupFailureMessage
      ensures hasAudioContext == (old(hasAudioContext) || outcome != AudioContextFails)
      ensures outcome != AudioContextFails ==> contexts == old(contexts) + 1 && sampleRate == contextRate
      ensures outcome == AudioContextFails ==> contexts == old(contexts) && sampleRate == old(sampleRate)
    {
      status := Connecting;
      errorMsg := "";
      captureMuted := muted;
      if outcome == AudioContextFails {
        errorMsg := SetupFailureMessage;
        status := Status.Error;
        return;
      }
      // The previous context, if any, is replaced without being closed.
      contexts := contexts + 1;
      hasAudioContext := true;
      sampleRate := contextRate;
      if outcome != SetupSucceeds {
        errorMsg := SetupFailureMessage;
        status := Status.Error;
      }
    }

    /** `connect` as evidently intended: a new audio context's clock starts
        at zero, so the playback cursor starts there too and the nodes of an
        earlier context are forgotten; everything else is as in Connect. */
    method ConnectFreshTimeline(outcome: SetupOutcome, contextRate: real)
      requires Valid() && contextRate > 0.0
      modifies this`status, this`errorMsg, this`captureMuted, this`contexts, this`hasAudioContext, this`sampleRate
      modifies this`nextStartTime, this`active, this`epoch
      ensures Valid()
      ensures captureMuted == muted
      ensures outcome == SetupSucceeds ==> status == Connecting && errorMsg == ""
      ensures outcome != SetupSucceeds ==> status == Status.Error && errorMsg == SetupFailureMessage
      ensures hasAudioContext == (old(hasAudioContext) || outcome != AudioContextFails)
      ensures outcome != AudioContextFails ==>
        contexts == old(contexts) + 1 && sampleRate == contextRate && nextStartTime == 0.0 && active == {}
      ensures outcome == AudioContextFails ==>
        && contexts == old(contexts) && sampleRate == old(sampleRate)
        && nextStartTime == old(nextStartTime) && active == old(active)
    {
      Connect(outcome, contextRate);
      if outcome != AudioContextFails {
        ForgetPlayback();
      }
    }

    /** The playback state a fresh audio context starts with: the cursor at
        the clock's zero and no node playing. */
    method ForgetPlayback()
      requires Valid()
      modifies this`nextStartTime, this`active, this`epoch
      ensures Valid() && nextStartTime == 0.0 && active == {}
    {
      InterruptRestartsTimeline(scheduled, epoch, nextStartTime, active, 0.0);
      nextStartTime := 0.0;
      active := {};
      epoch := |scheduled|;
    }

    /** The transport's open callback: the session is live, and when an audio
        context is held a new processor is built on it, closing over that
        context's rate and the mute flag `connect` saw; processorRef then holds
        it. Processors built earlier are not disconnected. */
    method OnOpen()
      requires Valid()
      modifies this`status, this`connected, this`capturing, this`processors
      ensures Valid()
      ensures status == Live && connected
      ensures hasAudioContext ==>
        capturing && processors == old(processors) + [Processor(contexts, sampleRate, captureMuted)]
      ensures !hasAudioContext ==> capturing == old(capturing) && processors == old(processors)
      ensures old(CaptureOwned()) ==> CaptureOwned()
    {
      status := Live;
      connected := true;
      if hasAudioContext {
        processors := processors + [Processor(contexts, sampleRate, captureMuted)];
        capturing := true;
      }
    }

    /** The session promise resolves: from now on frames can be sent. */
    method OnSessionResolved()
      requires Valid()
      modifies this`hasSession
      ensures Valid() && hasSession
    {
      hasSession := true;
    }

    /** The transport's close callback: back to `idle`, with no session held;
        the processors and the audio context stay as they are, so every
        processor keeps running and will send into the next session. */
    method OnClose()
      requires Valid()
      modifies this`status, this`connected, this`hasSession
      ensures Valid()
      ensures status == Idle && !connected && !hasSession
    {
      status := Idle;
      connected := false;
      hasSession := false;
    }

    /** The transport's error callback changes only the message. */
    method OnError()
      requires Valid()
      modifies this`errorMsg
      ensures Valid() && errorMsg == ConnectionUnstableMessage
    {
      errorMsg := ConnectionUnstableMessage;
    }

    /** `disconnect`: closes the session, releases the capture graph and
        shows `idle`. The playback timeline and the set of playing nodes are
        left untouched. */
    method Disconnect()
      requires Valid()
      modifies this`hasSession, this`capturing, this`processors, this`hasAudioContext, this`status, this`connected
      ensures Valid()
      ensures !hasSession && !capturing && !hasAudioContext
      ensures processors == Released(old(processors), old(capturing), if old(hasAudioContext) then Some(contexts) else None)
      ensures old(CaptureOwned()) ==> processors == []
      ensures status == Idle && !connected
    {
      hasSession := false;
      ReleaseCapture();
      status := Idle;
      connected := false;
    }

    /** The capture teardown of `disconnect`: the processor in processorRef
        (the last one built) is disconnected and the held audio context is
        closed, which stops every processor on it; processors on earlier
        contexts keep running. */
    method ReleaseCapture()
      requires Valid()
      modifies this`capturing, this`processors, this`hasAudioContext
      ensures Valid()
      ensures !capturing && !hasAudioContext
      ensures processors == Released(old(processors), old(capturing), if old(hasAudioContext) then Some(contexts) else None)
      ensures old(CaptureOwned()) ==> processors == []
    {
      processors := Released(processors, capturing, if hasAudioContext then Some(contexts) else None);
      capturing := false;
      hasAudioContext := false;
    }

    /** The mute button flips the UI flag only. */
    method ToggleMute()
      requires Valid()
      modifies this`muted
      ensures Valid() && muted == !old(muted)
    {
      muted := !muted;
    }

    /** The capture callback of the running processor `which` for one
        microphone frame: nothing is sent when the `muted` its closure
        captured is set or no session is held; otherwise the frame is
        resampled from that processor's context rate to the target rate,
        encoded, and sent to whatever session activeSessionRef holds now. A
        send that throws is caught: the frame is lost and nothing else
        changes, so later frames are sent as before. `encode` stands for the
        PCM16 conversion followed by base64. */
    method CaptureFrame(which: nat, frame: array<real>, encode: seq<real> -> string, sendThrows: bool)
      requires Valid() && which < |processors|
      modifies this`uplink
      ensures Valid()
      ensures processors[which].muted || !hasSession || sendThrows ==> uplink == old(uplink)
      ensures !processors[which].muted && hasSession && !sendThrows ==>
        uplink == old(uplink)
          + [Media(UplinkMimeType(), encode(Resampler.Downsample(frame[..], processors[which].rate, TargetRate)))]
    {
      var processor := processors[which];
      if processor.muted || !hasSession {
        return;
      }
      var resampledData := Resampler.DownsampleBuffer(frame, processor.rate, TargetRate);
      var base64 := encode(resampledData[..]);
      if !sendThrows {
        uplink := uplink + [Media(UplinkMimeType(), base64)];
      }
    }

    /** The capture callback as evidently intended: the mute flag is read
        when the frame arrives (through a ref), not when `connect` ran. */
    method CaptureFrameHonoringMute(which: nat, frame: array<real>, encode: seq<real> -> string, sendThrows: bool)
      requires Valid() && which < |processors|
      modifies this`uplink
      ensures Valid()
      ensures muted || !hasSession || sendThrows ==> uplink == old(uplink)
      ensures !muted && hasSession && !sendThrows ==>
        uplink == old(uplink)
          + [Media(UplinkMimeType(), encode(Resampler.Downsample(frame[..], processors[which].rate, TargetRate)))]
    {
      if muted || !hasSession {
        return;
      }
      var resampledData := Resampler.DownsampleBuffer(frame, processors[which].rate, TargetRate);
      var base64 := encode(resampledData[..]);
      if !sendThrows {
        uplink := uplink + [Media(UplinkMimeType(), base64)];
      }
    }

    /** The message callback. Audio, when present, non-empty and a context is
        held, is decoded and scheduled at Math.max(now, nextStartTime); the
        node joins the playing set and the cursor moves to the chunk's end.
        An interruption then stops every playing node (the new one included),
        empties the set and, when a context is held, moves the cursor back to
        the clock. A payload too short for one sample makes the handler throw
        before it schedules or interrupts anything. `decode` stands for
        base64ToUint8Array; `id` names the new node. */
    method OnMessage(msg: ServerMessage, now: real, decode: string -> seq<Pcm16.byte>, id: nat)
      requires Valid() && id !in Ids(scheduled)
      modifies this`nextStartTime, this`active, this`scheduled, this`stopped, this`epoch
      ensures Valid()
      ensures AudioThrows(msg, hasAudioContext, decode) ==>
        && scheduled == old(scheduled) && active == old(active)
        && stopped == old(stopped) && nextStartTime == old(nextStartTime)
      ensures !AudioThrows(msg, hasAudioContext, decode) ==>
        var plays := PlaysAudio(msg, hasAudioContext);
        && (plays ==> scheduled == old(scheduled) + [NewChunk(decode(msg.audioData.value), now, old(nextStartTime), id)])
        && (!plays ==> scheduled == old(scheduled))
        && var playing := old(active) + (if plays then {id} else {});
           if msg.interrupted then
             && active == {}
             && stopped == old(stopped) + playing
             && nextStartTime == (if hasAudioContext then now else old(nextStartTime))
           else
             && active == playing
             && stopped == old(stopped)
             && nextStartTime == (if plays then ChunkEnd(scheduled[|scheduled| - 1]) else old(nextStartTime))
    {
      if PlaysAudio(msg, hasAudioContext) {
        var thrown := ScheduleAudio(msg.audioData.value, now, decode, id);
        if thrown {
          return;
        }
      }
      if msg.interrupted {
        Interrupt(now);
      }
    }

    /** Decodes one chunk and queues it at the cursor or the clock, whichever
        is later. `thrown` reports that createBuffer refused a buffer of no
        samples, in which case nothing changes. */
    method ScheduleAudio(data: string, now: real, decode: string -> seq<Pcm16.byte>, id: nat)
      returns (thrown: bool)
      requires Valid() && id !in Ids(scheduled)
      modifies this`nextStartTime, this`active, this`scheduled
      ensures Valid()
      ensures thrown <==> |decode(data)| < 2
      ensures thrown ==>
        scheduled == old(scheduled) && active == old(active) && nextStartTime == old(nextStartTime)
      ensures !thrown ==>
        var chunk := NewChunk(decode(data), now, old(nextStartTime), id);
        && scheduled == old(scheduled) + [chunk]
        && active == old(active) + {id}
        && nextStartTime == ChunkEnd(chunk)
        && chunk.duration > 0.0
    {
      var rawBytes := decode(data);
      if |rawBytes| / 2 == 0 {
        return true;
      }
      thrown := false;
      var channelData := Pcm16.DecodeChunk(rawBytes);
      var duration := channelData.Length as real / DownlinkRate;
      var startTime := ScheduleStart(now, nextStartTime);
      var chunk := PlaybackChunk(id, startTime, duration, channelData[..]);
      assert chunk == NewChunk(rawBytes, now, nextStartTime, id);
      ScheduleExtendsTimeline(scheduled, epoch, nextStartTime, active, chunk);
      scheduled := scheduled + [chunk];
      nextStartTime := startTime + duration;
      active := active + {id};
    }

    /** Stops every playing node, empties the set, and moves the cursor back
        to the clock when a context is held; the next chunk starts a new run. */
    method Interrupt(now: real)
      requires Valid()
      modifies this`nextStartTime, this`active, this`stopped, this`epoch
      ensures Valid()
      ensures active == {} && stopped == old(stopped) + old(active)
      ensures nextStartTime == if hasAudioContext then now else old(nextStartTime)
    {
      InterruptRestartsTimeline(scheduled, epoch, nextStartTime, active,
        if hasAudioContext then now else nextStartTime);
      stopped := stopped + active;
      active := {};
      epoch := |scheduled|;
      if hasAudioContext {
        nextStartTime := now;
      }
    }

    /** A node's ended event removes it from the playing set. */
    method OnEnded(id: nat)
      requires Valid()
      modifies this`active
      ensures Valid() && active == old(active) - {id}
    {
      active := active - {id};
    }
  }

  // -----------------------------------------------------------------------
  // Two defects of the component, each shown on a concrete run
  // -----------------------------------------------------------------------

  /** The user connects unmuted, the session opens, the user presses mute
      and then speaks: the frame is still sent, because the capture callback
      sees the mute flag of the moment `connect` ran. */
  method StaleMuteScenario(frame: array<real>, encode: seq<real> -> string) returns (session: LiveSession)
    ensures session.muted && |session.uplink| == 1
  {
    session := OpenedSession(false);
    session.OnSessionResolved();
    session.ToggleMute();
    session.CaptureFrame(0, frame, encode, false);
  }

  /** The same run with the mute flag read when the frame arrives: nothing
      leaves while the user is muted. */
  method MuteHonoredScenario(frame: array<real>, encode: seq<real> -> string) returns (session: LiveSession)
    ensures session.muted && session.uplink == []
  {
    session := OpenedSession(false);
    session.OnSessionResolved();
    session.ToggleMute();
    session.CaptureFrameHonoringMute(0, frame, encode, false);
  }

  /** The user connects, the session opens, and the server closes it; the
      user goes live again and the new session opens. A single microphone
      frame then reaches the new session twice, once from the processor of
      each connection, since the close callback left the first one running
      on its unclosed context. */
  method OrphanProcessorScenario(frame: array<real>, encode: seq<real> -> string) returns (session: LiveSession)
    ensures |session.processors| == 2
    ensures |session.uplink| == 2 && session.uplink[0] == session.uplink[1]
  {
    session := ClosedAndReopened(false);
    assert session.processors == [Processor(1, 48000.0, false), Processor(2, 48000.0, false)];
    session.CaptureFrame(0, frame, encode, false);
    session.CaptureFrame(1, frame, encode, false);
  }

  /** The same run ended by the user: `disconnect` stops the second
      processor and closes the second context, but the first processor, on
      the first context, keeps running with the microphone open. */
  method OrphanOutlivesDisconnectScenario() returns (session: LiveSession)
    ensures !session.hasAudioContext && !session.capturing
    ensures session.processors == [Processor(1, 48000.0, false)]
  {
    session := ClosedAndReopened(false);
    assert session.processors[..1] == [Processor(1, 48000.0, false)];
    session.Disconnect();
    assert Processor(1, 48000.0, false) in session.processors;
  }

  /** A session opened unmuted on a 48 kHz device and closed by the server,
      with the close callback as written or as intended, then live again. */
  method ClosedAndReopened(releaseOnClose: bool) returns (session: LiveSession)
    ensures fresh(session) && session.Valid() && session.hasSession && session.hasAudioContext && session.capturing
    ensures session.contexts == 2 && session.uplink == []
    ensures session.processors ==
      (if releaseOnClose then [] else [Processor(1, 48000.0, false)]) + [Processor(2, 48000.0, false)]
  {
    session := OpenedSession(false);
    session.OnSessionResolved();
    if releaseOnClose {
      OnCloseReleasingCapture(session);
    } else {
      session.OnClose();
    }
    GoLiveAgain(session);
  }

  /** "Go Live" pressed again on a 48 kHz device: the setup succeeds, the
      transport opens and its session resolves. */
  method GoLiveAgain(session: LiveSession)
    requires session.Valid()
    modifies session
    ensures session.Valid() && session.hasSession && session.hasAudioContext && session.capturing
    ensures session.contexts == old(session.contexts) + 1
    ensures session.processors == old(session.processors) + [Processor(session.contexts, 48000.0, session.muted)]
    ensures session.muted == old(session.muted) && session.uplink == old(session.uplink)
  {
    session.Connect(SetupSucceeds, 48000.0);
    session.OnOpen();
    session.OnSessionResolved();
  }

  /** The close callback as evidently intended: besides showing `idle` and
      dropping the session, it releases the capture graph as `disconnect`
      does, so no processor outlives its connection. */
  method OnCloseReleasingCapture(session: LiveSession)
    requires session.Valid()
    modifies session`status, session`connected, session`hasSession
    modifies session`capturing, session`processors, session`hasAudioContext
    ensures session.Valid()
    ensures session.status == Idle && !session.connected && !session.hasSession
    ensures !session.capturing && !session.hasAudioContext
    ensures old(session.CaptureOwned()) ==> session.processors == []
  {
    session.OnClose();
    session.ReleaseCapture();
  }

  /** The same run with the close callback releasing capture: the frame
      reaches the new session once, and ending the call stops all capture. */
  method ReleasedCaptureScenario(frame: array<real>, encode: seq<real> -> string) returns (session: LiveSession)
    ensures |session.uplink| == 1 && session.processors == []
  {
    session := ClosedAndReopened(true);
    assert session.processors == [Processor(2, 48000.0, false)];
    session.CaptureFrame(0, frame, encode, false);
    assert session.CaptureOwned();
    session.Disconnect();
  }

  /** A one-second chunk (48000 bytes) plays at clock 0 and moves the cursor
      to 1 s; the user disconnects and connects again; the new context's clock
      restarts at 0, yet the first chunk of the new session is scheduled at
      1 s, after a second of silence. */
  method StaleCursorScenario(data: string, decode: string -> seq<Pcm16.byte>)
    returns (session: LiveSession, first: PlaybackChunk)
    requires data != "" && |decode(data)| == 48000
    ensures first.start == 1.0
  {
    var msg := ServerMessage(Some(data), false);
    session := PlayOneSecond(data, decode, false);
    session.Disconnect();
    session.Connect(SetupSucceeds, 48000.0);
    assert session.nextStartTime == 1.0;
    session.OnOpen();
    assert PlaysAudio(msg, session.hasAudioContext) && session.nextStartTime == 1.0;
    ghost var before := session.scheduled;
    session.OnMessage(msg, 0.0, decode, 1);
    assert session.scheduled == before + [NewChunk(decode(data), 0.0, 1.0, 1)];
    first := session.scheduled[|session.scheduled| - 1];
  }

  /** A new session, connected with either connect and opened by the
      transport, before any audio has arrived. */
  method OpenedSession(freshTimeline: bool) returns (session: LiveSession)
    ensures fresh(session) && session.Valid()
    ensures session.status == Live && session.hasAudioContext && session.capturing
    ensures session.contexts == 1 && session.processors == [Processor(1, 48000.0, false)]
    ensures !session.muted && !session.captureMuted && !session.hasSession
    ensures session.nextStartTime == 0.0 && session.scheduled == [] && session.uplink == []
  {
    session := new LiveSession();
    if freshTimeline {
      session.ConnectFreshTimeline(SetupSucceeds, 48000.0);
    } else {
      session.Connect(SetupSucceeds, 48000.0);
    }
    session.OnOpen();
  }

  /** A new session, connected with either connect, that has played one
      second of audio from clock 0. */
  method PlayOneSecond(data: string, decode: string -> seq<Pcm16.byte>, freshTimeline: bool)
    returns (session: LiveSession)
    requires data != "" && |decode(data)| == 48000
    ensures fresh(session) && session.Valid()
    ensures session.nextStartTime == 1.0 && Ids(session.scheduled) == {0}
  {
    var msg := ServerMessage(Some(data), false);
    var chunk := NewChunk(decode(data), 0.0, 0.0, 0);
    OneSecondChunk(decode(data), 0);
    session := OpenedSession(freshTimeline);
    session.OnMessage(msg, 0.0, decode, 0);
    assert session.scheduled == [chunk];
    assert session.scheduled[0].id == 0;
  }

  /** 48000 bytes of 16-bit samples at the downlink rate last one second. */
  lemma OneSecondChunk(bytes: seq<Pcm16.byte>, id: nat)
    requires |bytes| == 48000
    ensures NewChunk(bytes, 0.0, 0.0, id).duration == 1.0
  {
    var d := NewChunk(bytes, 0.0, 0.0, id).duration;
    assert d * 24000.0 == 24000.0;
  }

  /** The same run with the cursor reset on connect: the first chunk of the
      new session starts as soon as it arrives. */
  method FreshTimelineScenario(data: string, decode: string -> seq<Pcm16.byte>)
    returns (session: LiveSession, first: PlaybackChunk)
    requires data != "" && |decode(data)| == 48000
    ensures first.start == 0.0
  {
    var msg := ServerMessage(Some(data), false);
    session := PlayOneSecond(data, decode, true);
    session.Disconnect();
    session.ConnectFreshTimeline(SetupSucceeds, 48000.0);
    assert session.nextStartTime == 0.0;
    session.OnOpen();
    assert PlaysAudio(msg, session.hasAudioContext) && session.nextStartTime == 0.0;
    ghost var before := session.scheduled;
    session.OnMessage(msg, 0.0, decode, 1);
    assert session.scheduled == before + [NewChunk(decode(data), 0.0, 0.0, 1)];
    first := session.scheduled[|session.scheduled| - 1];
  }

  // -----------------------------------------------------------------------
  // The timeline over a run of arrivals without interruption
  // -----------------------------------------------------------------------

  /** A downlink chunk arriving at clock time `at` and lasting `duration`. */
  datatype Arrival = Arrival(at: real, duration: real)

  /** The start times the scheduler gives a run of arrivals, from cursor on. */
  function Starts(cursor: real, arrivals: seq<Arrival>): (starts: seq<real>)
    ensures |starts| == |arrivals|
    decreases |arrivals|
  {
    if arrivals == [] then []
    else
      var start := ScheduleStart(arrivals[0].at, cursor);
      [start] + Starts(start + arrivals[0].duration, arrivals[1..])
  }

  /** The cursor after a run of arrivals. */
  function FinalCursor(cursor: real, arrivals: seq<Arrival>): real
    decreases |arrivals|
  {
    if arrivals == [] then cursor
    else
      var start := ScheduleStart(arrivals[0].at, cursor);
      FinalCursor(start + arrivals[0].duration, arrivals[1..])
  }

  ghost predicate NonNegative(arrivals: seq<Arrival>) {
    forall i :: 0 <= i < |arrivals| ==> arrivals[i].duration >= 0.0
  }

  function TotalDuration(arrivals: seq<Arrival>): real {
    if arrivals == [] then 0.0 else arrivals[0].duration + TotalDuration(arrivals[1..])
  }

  /** Without interruption: no chunk starts before it arrives or before the
      initial cursor; a chunk that arrives while the previous one is still
      queued starts exactly at its end, and one that arrives later starts on
      arrival, so chunks never overlap and the cursor never moves back. */
  lemma {:induction false} TimelineOrdered(cursor: real, arrivals: seq<Arrival>)
    requires NonNegative(arrivals)
    ensures var starts := Starts(cursor, arrivals);
      && (forall i :: 0 <= i < |arrivals| ==> starts[i] >= arrivals[i].at && starts[i] >= cursor)
      && (forall i :: 0 <= i < |arrivals| - 1 ==>
            starts[i + 1] == (if arrivals[i + 1].at <= starts[i] + arrivals[i].duration
                              then starts[i] + arrivals[i].duration else arrivals[i + 1].at))
      && (forall i :: 0 <= i < |arrivals| - 1 ==> starts[i] + arrivals[i].duration <= starts[i + 1])
      && FinalCursor(cursor, arrivals) >= cursor
      && (arrivals != [] ==>
            FinalCursor(cursor, arrivals) == starts[|arrivals| - 1] + arrivals[|arrivals| - 1].duration)
  {
    StartsAfterArrival(cursor, arrivals);
    StartsStep(cursor, arrivals);
    FinalCursorIsLastEnd(cursor, arrivals);
  }

  /** Dropping the first arrival leaves a run of non-negative durations. */
  lemma NonNegativeTail(arrivals: seq<Arrival>)
    requires NonNegative(arrivals) && arrivals != []
    ensures NonNegative(arrivals[1..]) && arrivals[0].duration >= 0.0
  {
    var rest := arrivals[1..];
    forall i | 0 <= i < |rest| ensures rest[i].duration >= 0.0 { assert rest[i] == arrivals[i + 1]; }
  }

  /** No chunk starts before it arrives or before the initial cursor. */
  lemma {:induction false} StartsAfterArrival(cursor: real, arrivals: seq<Arrival>)
    requires NonNegative(arrivals)
    ensures forall i :: 0 <= i < |arrivals| ==>
      Starts(cursor, arrivals)[i] >= arrivals[i].at && Starts(cursor, arrivals)[i] >= cursor
    decreases |arrivals|
  {
    if arrivals != [] {
      var next := ScheduleStart(arrivals[0].at, cursor) + arrivals[0].duration;
      var rest := arrivals[1..];
      NonNegativeTail(arrivals);
      StartsAfterArrival(next, rest);
      var starts := Starts(cursor, arrivals);
      var later := Starts(next, rest);
      forall i | 0 <= i < |arrivals| ensures starts[i] >= arrivals[i].at && starts[i] >= cursor {
        if i > 0 { assert starts[i] == later[i - 1] && arrivals[i] == rest[i - 1]; }
      }
    }
  }

  /** Each chunk starts at the end of the previous one when it arrives by
      then, and on arrival otherwise. */
  lemma {:induction false} StartsStep(cursor: real, arrivals: seq<Arrival>)
    ensures var starts := Starts(cursor, arrivals);
      forall i :: 0 <= i < |arrivals| - 1 ==>
        starts[i + 1] == (if arrivals[i + 1].at <= starts[i] + arrivals[i].duration
                          then starts[i] + arrivals[i].duration else arrivals[i + 1].at)
    decreases |arrivals|
  {
    if arrivals != [] {
      var start := ScheduleStart(arrivals[0].at, cursor);
      var next := start + arrivals[0].duration;
      var rest := arrivals[1..];
      StartsStep(next, rest);
      var starts := Starts(cursor, arrivals);
      var later := Starts(next, rest);
      forall i | 0 <= i < |arrivals| - 1
        ensures starts[i + 1] == (if arrivals[i + 1].at <= starts[i] + arrivals[i].duration
                                  then starts[i] + arrivals[i].duration else arrivals[i + 1].at)
      {
        assert starts[i + 1] == later[i] && arrivals[i + 1] == rest[i];
        if i == 0 {
          assert starts[0] == start && later[0] == ScheduleStart(rest[0].at, next);
        } else {
          assert starts[i] == later[i - 1] && arrivals[i] == rest[i - 1];
        }
      }
    }
  }

  /** The cursor never moves back, and after a run it sits at the end of the
      last chunk. */
  lemma {:induction false} FinalCursorIsLastEnd(cursor: real, arrivals: seq<Arrival>)
    requires NonNegative(arrivals)
    ensures FinalCursor(cursor, arrivals) >= cursor
    ensures arrivals != [] ==>
      FinalCursor(cursor, arrivals)
        == Starts(cursor, arrivals)[|arrivals| - 1] + arrivals[|arrivals| - 1].duration
    decreases |arrivals|
  {
    if arrivals != [] {
      var next := ScheduleStart(arrivals[0].at, cursor) + arrivals[0].duration;
      var rest := arrivals[1..];
      NonNegativeTail(arrivals);
      FinalCursorIsLastEnd(next, rest);
      var starts := Starts(cursor, arrivals);
      var later := Starts(next, rest);
      if rest != [] {
        assert starts[|arrivals| - 1] == later[|rest| - 1] && arrivals[|arrivals| - 1] == rest[|rest| - 1];
      }
    }
  }

  /** One or more chunks that all arrive at the same instant t, with the
      cursor not ahead of t, are laid end to end from t: the cursor ends at t
      plus the sum of their durations. */
  lemma InstantArrivals(cursor: real, t: real, arrivals: seq<Arrival>)
    requires cursor <= t && NonNegative(arrivals) && arrivals != []
    requires forall i :: 0 <= i < |arrivals| ==> arrivals[i].at == t
    ensures FinalCursor(cursor, arrivals) == t + TotalDuration(arrivals)
  {
    var rest := arrivals[1..];
    assert NonNegative(rest) by {
      forall i | 0 <= i < |rest| ensures rest[i].duration >= 0.0 { assert rest[i] == arrivals[i + 1]; }
    }
    assert ScheduleStart(arrivals[0].at, cursor) == t;
    QueuedArrivals(t + arrivals[0].duration, t, rest);
  }

  /** Arrivals at time t while the cursor is at or past t queue from the cursor. */
  lemma {:induction false} QueuedArrivals(cursor: real, t: real, arrivals: seq<Arrival>)
    requires cursor >= t && NonNegative(arrivals)
    requires forall i :: 0 <= i < |arrivals| ==> arrivals[i].at == t
    ensures FinalCursor(cursor, arrivals) == cursor + TotalDuration(arrivals)
    decreases |arrivals|
  {
    if arrivals != [] {
      var rest := arrivals[1..];
      assert NonNegative(rest) by {
        forall i | 0 <= i < |rest| ensures rest[i].duration >= 0.0 { assert rest[i] == arrivals[i + 1]; }
      }
      QueuedArrivals(cursor + arrivals[0].duration, t, rest);
    }
  }

  /** Two one-second chunks arriving at 0 s and 0.1 s on an empty timeline:
      the second starts at 1 s, when the first ends, not at 0.1 s. */
  lemma BackToBackScenario()
    ensures Starts(0.0, [Arrival(0.0, 1.0), Arrival(0.1, 1.0)]) == [0.0, 1.0]
    ensures FinalCursor(0.0, [Arrival(0.0, 1.0), Arrival(0.1, 1.0)]) == 2.0
  {
    var arrivals := [Arrival(0.0, 1.0), Arrival(0.1, 1.0)];
    assert arrivals[1..] == [Arrival(0.1, 1.0)];
    assert arrivals[1..][1..] == [];
  }
}
