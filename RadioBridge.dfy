/**
 * ZelloRadioBridge and its configuration: a voice-activated (VOX) gate
 * between a microphone and a ZelloChannel. Frames arrive one at a time;
 * while the gate is closed the newest few are kept as pre-roll, and when a
 * frame is loud enough the gate opens, a voice stream starts and the
 * pre-roll is queued ahead of the frames that follow. A long enough silence
 * closes the gate again. A separate loop drains the queue into the channel.
 */
module RadioBridge {
  import opened Wrappers
  import opened Bytes
  import opened AudioConstants
  import opened Audio
  import opened Commands
  import opened Channel

  // ---------------------------------------------------------------------
  // ZelloRadioBridgeConfig

  datatype BridgeConfig = BridgeConfig(
    voxOpenThreshold: real,
    voxCloseThreshold: real,
    voxHangTimeMs: int,
    preRollFrameCount: Int32)

  const DEFAULT_VOX_OPEN_THRESHOLD: real := 0.05
  const DEFAULT_VOX_CLOSE_THRESHOLD: real := 0.03
  const DEFAULT_VOX_HANG_TIME_MS: int := 10000
  const DEFAULT_PRE_ROLL_FRAME_COUNT: Int32 := 10

  /** The builder: each field takes its default unless it was set; no value is checked. */
  function BuildConfig(open: Option<real>, close: Option<real>, hangTimeMs: Option<int>, preRollFrames: Option<Int32>)
    : (c: BridgeConfig)
    ensures c.voxOpenThreshold == if open.Some? then open.value else DEFAULT_VOX_OPEN_THRESHOLD
    ensures c.voxCloseThreshold == if close.Some? then close.value else DEFAULT_VOX_CLOSE_THRESHOLD
    ensures c.voxHangTimeMs == if hangTimeMs.Some? then hangTimeMs.value else DEFAULT_VOX_HANG_TIME_MS
    ensures c.preRollFrameCount == if preRollFrames.Some? then preRollFrames.value else DEFAULT_PRE_ROLL_FRAME_COUNT
  {
    BridgeConfig(open.GetOr(DEFAULT_VOX_OPEN_THRESHOLD), close.GetOr(DEFAULT_VOX_CLOSE_THRESHOLD),
                 hangTimeMs.GetOr(DEFAULT_VOX_HANG_TIME_MS), preRollFrames.GetOr(DEFAULT_PRE_ROLL_FRAME_COUNT))
  }

  /**
   * The defaults close the gate below the level that opens it, and the
   * pre-roll covers 200 ms of 20 ms frames.
   */
  lemma DefaultConfig()
    ensures var c := BuildConfig(None, None, None, None);
      && 0.0 < c.voxCloseThreshold < c.voxOpenThreshold <= 1.0
      && c.preRollFrameCount * FRAME_DURATION_MS == 200
      && c.voxHangTimeMs == 10 * 1000
  {
  }

  // ---------------------------------------------------------------------
  // Loudness (calculateRms)

  /** Sample i of a frame: a little-endian signed 16-bit value. */
  function Sample(pcm: seq<byte>, i: int): (s: int)
    requires 0 <= i < |pcm| / 2
    ensures -32768 <= s < 32768
    ensures (s - (pcm[2 * i] as int + 256 * (pcm[2 * i + 1] as int))) % 65536 == 0
  {
    var u := pcm[2 * i] as int + 256 * (pcm[2 * i + 1] as int);
    if u >= 32768 then u - 65536 else u
  }

  /** The sum of the squares of the first n samples. */
  function SquareSum(pcm: seq<byte>, n: int): int
    requires 0 <= n <= |pcm| / 2
  {
    if n == 0 then 0 else SquareSum(pcm, n - 1) + Sample(pcm, n - 1) * Sample(pcm, n - 1)
  }

  /** The square of a full-scale 16-bit sample. */
  const FULL_SCALE_SQUARE: int := 32768 * 32768

  /** Multiplying by a non-negative factor keeps an order. */
  lemma MultiplyMonotonic(k: int, a: int, b: int)
    requires 0 <= k && a <= b
    ensures k * a <= k * b
  {
    assert k * b - k * a == k * (b - a);
  }

  /** No 16-bit sample squares to more than full scale. */
  lemma SampleSquareBound(s: int)
    requires -32768 <= s < 32768
    ensures 0 <= s * s <= FULL_SCALE_SQUARE
  {
    var m := if s < 0 then -s else s;
    assert s * s == m * m;
    MultiplyMonotonic(m, m, 32768);
    MultiplyMonotonic(32768, m, 32768);
  }

  /** The sum never goes negative and stays under n full-scale squares, so a Java long cannot overflow on a frame. */
  lemma {:induction false} SquareSumBounds(pcm: seq<byte>, n: int)
    requires 0 <= n <= |pcm| / 2
    ensures 0 <= SquareSum(pcm, n) <= n * FULL_SCALE_SQUARE
  {
    if n > 0 {
      SquareSumBounds(pcm, n - 1);
      SampleSquareBound(Sample(pcm, n - 1));
    }
  }

  /** An all-zero frame sums to zero. */
  lemma {:induction false} SilenceSumsToZero(pcm: seq<byte>, n: int)
    requires 0 <= n <= |pcm| / 2
    requires forall k :: 0 <= k < |pcm| ==> pcm[k] == 0
    ensures SquareSum(pcm, n) == 0
  {
    if n > 0 {
      SilenceSumsToZero(pcm, n - 1);
      assert Sample(pcm, n - 1) == 0;
    }
  }

  /** What calculateRms measures: NaN without a whole sample, otherwise the sum of squares over the samples. */
  datatype Loudness = NotANumber | Measured(sumOfSquares: int, samples: int)

  /** The loudness of a frame: its |pcm| / 2 whole samples (a trailing odd byte is ignored). */
  function LoudnessOf(pcm: seq<byte>): (l: Loudness)
    ensures l.NotANumber? <==> |pcm| / 2 == 0
  {
    var n := |pcm| / 2;
    if n == 0 then NotANumber else Measured(SquareSum(pcm, n), n)
  }

  /** calculateRms up to the square root: the loop over the samples, then the division. */
  method CalculateRms(pcm: seq<byte>) returns (l: Loudness)
    ensures l == LoudnessOf(pcm)
    ensures l.Measured? ==> 0 <= l.sumOfSquares <= l.samples * FULL_SCALE_SQUARE
  {
    var sum := 0;
    var i := 0;
    while i < |pcm| / 2
      invariant 0 <= i <= |pcm| / 2
      invariant sum == SquareSum(pcm, i)
    {
      var sample := Sample(pcm, i);
      sum := sum + sample * sample;
      i := i + 1;
    }
    SquareSumBounds(pcm, |pcm| / 2);
    if |pcm| / 2 == 0 {
      return NotANumber;
    }
    l := Measured(sum, |pcm| / 2);
  }

  /**
   * calculateRms(pcm) > threshold. The RMS is sqrt(sum / n) / 32768, so for
   * a non-negative threshold it exceeds it exactly when the sum exceeds
   * n * (32768 * threshold)^2. NaN (0.0 / 0) exceeds nothing.
   */
  predicate Exceeds(l: Loudness, threshold: real) {
    && l.Measured? && l.samples > 0
    && (threshold < 0.0 || l.sumOfSquares as real > (l.samples as real) * ((32768.0 * threshold) * (32768.0 * threshold)))
  }

  /** A level loud enough to open the gate is loud enough to hold it open when the close level is lower. */
  lemma OpenLevelHoldsGate(l: Loudness, open: real, close: real)
    requires close <= open && Exceeds(l, open)
    ensures Exceeds(l, close)
  {
    if close >= 0.0 {
      var n := l.samples as real;
      var lc, lo := (32768.0 * close) * (32768.0 * close), (32768.0 * open) * (32768.0 * open);
      assert 0.0 <= 32768.0 * close <= 32768.0 * open;
      assert lc <= (32768.0 * open) * (32768.0 * close) <= lo;
      assert n * lc <= n * lo;
    }
  }

  /** Digital silence never opens the gate, whatever non-negative level is configured. */
  lemma SilenceNeverOpens(pcm: seq<byte>, threshold: real)
    requires threshold >= 0.0
    requires forall k :: 0 <= k < |pcm| ==> pcm[k] == 0
    ensures !Exceeds(LoudnessOf(pcm), threshold)
  {
    SilenceSumsToZero(pcm, |pcm| / 2);
  }

  /** The newest n frames, oldest first (all of them when there are fewer). */
  function Newest(frames: seq<seq<byte>>, n: nat): (r: seq<seq<byte>>)
    ensures |r| == if |frames| <= n then |frames| else n
    ensures r == frames[|frames| - |r|..]
  {
    if |frames| <= n then frames else frames[|frames| - n..]
  }

  /** Keeping the newest n after each arrival is the same as keeping the newest n of everything. */
  lemma NewestOfAppend(frames: seq<seq<byte>>, frame: seq<byte>, n: nat)
    ensures Newest(Newest(frames, n) + [frame], n) == Newest(frames + [frame], n)
  {
    var kept := Newest(frames, n);
    if |frames| > n {
      assert kept + [frame] == (frames + [frame])[|frames| - n..];
    }
  }

  // ---------------------------------------------------------------------
  // ZelloRadioBridge

  datatype VoxState = LISTENING | TRANSMITTING

  class ZelloRadioBridge {
    const channel: ZelloChannel
    const config: BridgeConfig
    var isRunning: bool
    var voxState: VoxState
    /** Milliseconds, from the clock passed in. */
    var lastSoundTime: int
    var preRoll: seq<seq<byte>>
    /** The transmission queue (audioBuffer), oldest first. */
    var queue: seq<seq<byte>>
    /** The transmission executor has been shut down; it is final, so it stays that way. */
    var shutDown: bool

    ghost predicate Valid()
      reads this, channel, channel.audioEngine
    {
      && channel.Valid()
      && |preRoll| <= (if config.preRollFrameCount >= 0 then config.preRollFrameCount else 0)
    }

    constructor (channel: ZelloChannel, config: BridgeConfig)
      requires channel.Valid()
      ensures Valid() && this.channel == channel && this.config == config
      ensures !isRunning && voxState == LISTENING && lastSoundTime == 0
      ensures preRoll == [] && queue == [] && !shutDown
    {
      this.channel := channel;
      this.config := config;
      isRunning := false;
      voxState := LISTENING;
      lastSoundTime := 0;
      preRoll := [];
      queue := [];
      shutDown := false;
    }

    /**
     * start(): sets the running flag unless it is already set; nothing else
     * is reset. The transmit loop is then submitted to the executor, which
     * rejects it once stop() has shut the executor down: `rejected` is that
     * RejectedExecutionException, thrown after the flag is already set.
     */
    method Start() returns (rejected: bool)
      modifies this`isRunning
      ensures isRunning
      ensures rejected <==> !old(isRunning) && shutDown
    {
      if isRunning {
        return false;
      }
      isRunning := true;
      rejected := shutDown;
    }

    /**
     * stop(): clears the running flag, shuts the executor down for good and
     * closes the voice stream when the gate is open on a connected channel.
     * The gate itself stays as it was.
     */
    method Stop()
      requires Valid()
      modifies this`isRunning, this`shutDown,
               channel`outgoingStreamId, channel`sent, channel`sequence, channel`wrapped, channel`commandCallbacks
      ensures Valid()
      ensures !isRunning && shutDown && voxState == old(voxState)
      ensures channel.state == CONNECTED && voxState == TRANSMITTING ==> channel.VoiceStreamStopped()
      ensures !(channel.state == CONNECTED && voxState == TRANSMITTING) ==> channel.VoiceStreamKept()
    {
      isRunning := false;
      shutDown := true;
      if channel.state == CONNECTED && voxState == TRANSMITTING {
        channel.StopVoiceStream();
      }
    }

    /**
     * The pre-roll step of processIncomingAudio: the frame is appended and
     * the oldest frames are dropped while there are more than the
     * configured count. A negative count empties the list and then fails
     * on removing from an empty list.
     */
    method KeepPreRoll(pcm: seq<byte>) returns (failed: bool)
      modifies this`preRoll
      ensures config.preRollFrameCount < 0 ==> failed && preRoll == []
      ensures config.preRollFrameCount >= 0 ==>
        !failed && preRoll == Newest(old(preRoll) + [pcm], config.preRollFrameCount)
    {
      ghost var arrived := preRoll + [pcm];
      preRoll := preRoll + [pcm];
      while |preRoll| > config.preRollFrameCount
        invariant preRoll == arrived[|arrived| - |preRoll|..]
        invariant config.preRollFrameCount >= 0 ==>
          |preRoll| >= (if |arrived| <= config.preRollFrameCount then |arrived| else config.preRollFrameCount)
        decreases |preRoll|
      {
        if preRoll == [] {
          return true;
        }
        preRoll := preRoll[1..];
      }
      failed := false;
    }

    /** Opening the gate: TRANSMITTING, the voice stream starts, and the pre-roll moves to the queue in order. */
    method OpenGate(now: int)
      requires Valid()
      modifies this`preRoll, this`queue, this`voxState, this`lastSoundTime,
               channel`outgoingPacketId, channel`sent, channel`sequence, channel`wrapped, channel`commandCallbacks
      ensures Valid()
      ensures voxState == TRANSMITTING && lastSoundTime == now
      ensures queue == old(queue) + old(preRoll) && preRoll == []
      ensures channel.VoiceStreamStarted()
    {
      voxState := TRANSMITTING;
      channel.StartVoiceStream();
      lastSoundTime := now;
      var i := 0;
      while i < |preRoll|
        invariant 0 <= i <= |preRoll|
        invariant queue == old(queue) + preRoll[..i]
        modifies this`queue
      {
        queue := queue + [preRoll[i]];
        i := i + 1;
      }
      assert preRoll[..i] == preRoll;
      preRoll := [];
    }

    /** Closing the gate: LISTENING, the voice stream stops, and whatever is queued is dropped. */
    method CloseGate()
      requires Valid()
      modifies this`queue, this`voxState,
               channel`outgoingStreamId, channel`sent, channel`sequence, channel`wrapped, channel`commandCallbacks
      ensures Valid()
      ensures voxState == LISTENING && queue == []
      ensures channel.VoiceStreamStopped()
    {
      voxState := LISTENING;
      channel.StopVoiceStream();
      queue := [];
    }

    /**
     * The gate logic of processIncomingAudio for a frame of the given
     * loudness at time `now`, starting from the pre-roll `kept`: a closed
     * gate opens on a frame above the open level and moves the pre-roll to
     * the queue; an open gate queues the frame, notes the time of a frame
     * above the close level, and closes after a silence longer than the
     * hang time, dropping the queue. Opening starts the channel's voice
     * stream, closing stops it, and otherwise the channel is untouched.
     */
    twostate predicate VoxApplied(pcm: seq<byte>, level: Loudness, now: int, kept: seq<seq<byte>>)
      reads this, channel
    {
      var opens := old(voxState) == LISTENING && Exceeds(level, config.voxOpenThreshold);
      var loud := old(voxState) == TRANSMITTING && Exceeds(level, config.voxCloseThreshold);
      var closes := old(voxState) == TRANSMITTING && !loud && now - old(lastSoundTime) > config.voxHangTimeMs;
      && voxState == (if opens then TRANSMITTING else if closes then LISTENING else old(voxState))
      && preRoll == (if opens then [] else kept)
      && queue == (if opens then old(queue) + kept
                   else if closes then []
                   else if old(voxState) == TRANSMITTING then old(queue) + [pcm]
                   else old(queue))
      && lastSoundTime == (if opens || loud then now else old(lastSoundTime))
      && (opens ==> channel.VoiceStreamStarted())
      && (closes ==> channel.VoiceStreamStopped())
      && (!opens && !closes ==> channel.VoiceStreamKept())
    }

    /** The gate logic of processIncomingAudio, after the pre-roll has been updated. */
    method ApplyVox(pcm: seq<byte>, level: Loudness, now: int)
      requires Valid()
      modifies this`preRoll, this`queue, this`voxState, this`lastSoundTime,
               channel`outgoingPacketId, channel`outgoingStreamId, channel`sent, channel`sequence, channel`wrapped,
               channel`commandCallbacks
      ensures Valid()
      ensures VoxApplied(pcm, level, now, old(preRoll))
    {
      if voxState == LISTENING {
        if Exceeds(level, config.voxOpenThreshold) {
          OpenGate(now);
        }
      } else {
        queue := queue + [pcm];
        if Exceeds(level, config.voxCloseThreshold) {
          lastSoundTime := now;
        } else if now - lastSoundTime > config.voxHangTimeMs {
          CloseGate();
        }
      }
    }

    /**
     * processIncomingAudio(pcm) at time `now`: nothing while stopped;
     * otherwise the pre-roll is kept up to date, the frame's loudness is
     * measured and the gate logic runs.
     */
    method ProcessIncomingAudio(pcm: seq<byte>, now: int) returns (failed: bool)
      requires Valid()
      modifies this`preRoll, this`queue, this`voxState, this`lastSoundTime,
               channel`outgoingPacketId, channel`outgoingStreamId, channel`sent, channel`sequence, channel`wrapped,
               channel`commandCallbacks
      ensures Valid()
      ensures !isRunning ==>
        && !failed && preRoll == old(preRoll) && queue == old(queue) && voxState == old(voxState)
        && lastSoundTime == old(lastSoundTime) && channel.VoiceStreamKept()
      ensures isRunning && config.preRollFrameCount < 0 ==>
        && failed && preRoll == [] && queue == old(queue) && voxState == old(voxState)
        && lastSoundTime == old(lastSoundTime) && channel.VoiceStreamKept()
      ensures isRunning && config.preRollFrameCount >= 0 ==>
        !failed && VoxApplied(pcm, LoudnessOf(pcm), now, Newest(old(preRoll) + [pcm], config.preRollFrameCount))
    {
      if !isRunning {
        return false;
      }
      failed := KeepPreRoll(pcm);
      if failed {
        return;
      }
      var level := CalculateRms(pcm);
      ApplyVox(pcm, level, now);
    }

    /**
     * One turn of transmitLoop: while running, the oldest queued frame is
     * taken and, when the channel is connected, sent as voice data (`reply`
     * is the encoder's answer). With an empty queue the loop waits, which
     * changes nothing. Once the executor is shut down the loop has ended
     * (its thread is interrupted) and is never submitted again.
     */
    method TransmitStep(reply: CodecReply)
      requires Valid() && EncodeReplyFits(reply)
      modifies this`queue, channel`sent, channel`outgoingPacketId, channel`deadEncoderUses
      ensures Valid()
      ensures !isRunning || shutDown || old(queue) == [] ==>
        && queue == old(queue) && channel.sent == old(channel.sent)
        && channel.outgoingPacketId == old(channel.outgoingPacketId)
        && channel.deadEncoderUses == old(channel.deadEncoderUses)
      ensures isRunning && !shutDown && old(queue) != [] ==> queue == old(queue)[1..]
      ensures isRunning && !shutDown && old(queue) != [] && channel.state != CONNECTED ==>
        && channel.sent == old(channel.sent) && channel.outgoingPacketId == old(channel.outgoingPacketId)
        && channel.deadEncoderUses == old(channel.deadEncoderUses)
      ensures isRunning && !shutDown && old(queue) != [] && channel.state == CONNECTED ==>
        var encoded := channel.outgoingStreamId != -1;
        var written := encoded && EncodedOpus(reply).Some? && channel.hasSocket && channel.socketOpen;
        && (written ==>
              && channel.sent == old(channel.sent) + [BinaryFrame(
                   Packets.AudioPacket(channel.outgoingStreamId, old(channel.outgoingPacketId), EncodedOpus(reply).value))]
              && channel.outgoingPacketId == Inc32(old(channel.outgoingPacketId)))
        && (!written ==> channel.sent == old(channel.sent) && channel.outgoingPacketId == old(channel.outgoingPacketId))
        && channel.deadEncoderUses == old(channel.deadEncoderUses)
             + (if encoded && channel.audioEngine.encoder !in channel.audioEngine.live then 1 else 0)
    {
      if !isRunning || shutDown || queue == [] {
        return;
      }
      var frame := queue[0];
      queue := queue[1..];
      if channel.state == CONNECTED {
        channel.SendVoiceData(frame, reply);
      }
    }
  }
}
