/**
 * The Opus session table of AudioEngine: one encoder for outgoing audio and
 * one decoder per incoming stream, keyed by stream id. The native Opus
 * library is not modelled: each call's answer (a return code and the buffer
 * it filled) is a parameter, and handles come from a counter that never
 * hands out the same handle twice. Ghost state records which handles are
 * alive and every destroy call, so leaks and double destroys can be stated.
 */
module Audio {
  import opened Wrappers
  import opened Bytes
  import opened AudioConstants

  const OPUS_OK: int := 0

  /** A native codec pointer. */
  type Handle = nat

  /** The answer of one Opus call: its return code and the output buffer it filled. */
  datatype CodecReply = CodecReply(code: int, buffer: seq<byte>)

  /**
   * What opus_decode can answer here: at most SAMPLES_PER_FRAME samples
   * (the frame size it is given), written into a buffer of
   * SAMPLES_PER_FRAME * CHANNELS 16-bit samples.
   */
  predicate DecodeReplyFits(reply: CodecReply) {
    reply.code <= SAMPLES_PER_FRAME && |reply.buffer| == PcmBytes(SAMPLES_PER_FRAME)
  }

  /** What opus_encode can answer here: at most MAX_OPUS_PACKET_SIZE bytes, in a buffer of that size. */
  predicate EncodeReplyFits(reply: CodecReply) {
    reply.code <= MAX_OPUS_PACKET_SIZE && |reply.buffer| == MAX_OPUS_PACKET_SIZE
  }

  /** decode's result for a codec answer: null on a negative code, else samples * CHANNELS * 2 bytes of PCM. */
  function DecodedPcm(reply: CodecReply): (pcm: Option<seq<byte>>)
    requires DecodeReplyFits(reply)
    ensures pcm.None? <==> reply.code < 0
    ensures pcm.Some? ==> |pcm.value| == PcmBytes(reply.code) <= FRAME_SIZE_BYTES
    ensures pcm.Some? ==> pcm.value == reply.buffer[..|pcm.value|]
  {
    if reply.code < 0 then None else Some(reply.buffer[..PcmBytes(reply.code)])
  }

  /** encode's result for a codec answer: null on a negative code, else exactly the bytes encoded. */
  function EncodedOpus(reply: CodecReply): (opus: Option<seq<byte>>)
    requires EncodeReplyFits(reply)
    ensures opus.None? <==> reply.code < 0
    ensures opus.Some? ==> |opus.value| == reply.code <= MAX_OPUS_PACKET_SIZE
    ensures opus.Some? ==> opus.value == reply.buffer[..|opus.value|]
  {
    if reply.code < 0 then None else Some(reply.buffer[..reply.code])
  }

  class AudioEngine {
    /** Stream id to decoder handle. */
    var decoders: map<Int32, Handle>
    /** The encoder, created with the engine and never replaced. */
    const encoder: Handle
    /** The next handle the native allocator returns. */
    var nextHandle: nat
    /** Handles created and not yet destroyed. */
    ghost var live: set<Handle>
    /** Every destroy call, in order. */
    ghost var destroyed: seq<Handle>
    /** Handles destroyed while not alive. */
    ghost var doubleDestroys: set<Handle>

    ghost predicate Valid()
      reads this
    {
      && encoder < nextHandle
      && (forall h :: h in live ==> h < nextHandle)
      && (forall id :: id in decoders ==> decoders[id] in live && decoders[id] != encoder)
      && Injective(decoders)
    }

    /** Handles that are alive but held by nobody: decoders whose table entry was overwritten. */
    ghost function Leaked(): set<Handle>
      reads this
    {
      live - decoders.Values - {encoder}
    }

    /** A new engine with its encoder; the constructor's failure path is not modelled. */
    constructor ()
      ensures Valid()
      ensures decoders == map[] && live == {encoder}
      ensures destroyed == [] && doubleDestroys == {}
    {
      encoder := 0;
      nextHandle := 1;
      decoders := map[];
      live := {0};
      destroyed := [];
      doubleDestroys := {};
    }

    /** opus_decoder_destroy / opus_encoder_destroy. */
    method Destroy(h: Handle)
      modifies this`live, this`destroyed, this`doubleDestroys
      ensures destroyed == old(destroyed) + [h]
      ensures live == old(live) - {h}
      ensures doubleDestroys == if h in old(live) then old(doubleDestroys) else old(doubleDestroys) + {h}
    {
      if h !in live {
        doubleDestroys := doubleDestroys + {h};
      }
      live := live - {h};
      destroyed := destroyed + [h];
    }

    /**
     * startDecodingSession: on OPUS_OK a fresh decoder is filed under the
     * stream id, replacing (and leaking) any decoder already there; on any
     * other code nothing changes.
     */
    method StartDecodingSession(streamId: Int32, createError: int)
      requires Valid()
      modifies this
      ensures Valid()
      ensures destroyed == old(destroyed) && doubleDestroys == old(doubleDestroys)
      ensures createError != OPUS_OK ==>
        decoders == old(decoders) && live == old(live) && nextHandle == old(nextHandle)
      ensures createError == OPUS_OK ==>
        && old(nextHandle) !in old(live)
        && decoders == old(decoders)[streamId := old(nextHandle)]
        && live == old(live) + {old(nextHandle)}
        && nextHandle == old(nextHandle) + 1
      ensures createError == OPUS_OK && streamId in old(decoders) ==>
        old(decoders)[streamId] in Leaked()
    {
      if createError != OPUS_OK {
        return;
      }
      var decoder := nextHandle;
      nextHandle := nextHandle + 1;
      live := live + {decoder};
      var previous := decoders;
      decoders := decoders[streamId := decoder];
      if streamId in previous {
        var h := previous[streamId];
        forall id | id in decoders ensures decoders[id] != h {
          if id != streamId {
            assert previous[id] != previous[streamId];
          }
        }
      }
    }

    /** stopDecodingSession: the stream's decoder is removed and destroyed once; an unknown id changes nothing. */
    method StopDecodingSession(streamId: Int32)
      requires Valid()
      modifies this
      ensures Valid()
      ensures nextHandle == old(nextHandle) && doubleDestroys == old(doubleDestroys)
      ensures streamId !in old(decoders) ==>
        decoders == old(decoders) && live == old(live) && destroyed == old(destroyed)
      ensures streamId in old(decoders) ==>
        && decoders == old(decoders) - {streamId}
        && destroyed == old(destroyed) + [old(decoders)[streamId]]
        && live == old(live) - {old(decoders)[streamId]}
      ensures Leaked() == old(Leaked())
    {
      if streamId in decoders {
        var h := decoders[streamId];
        decoders := decoders - {streamId};
        Destroy(h);
        RemoveEntry(old(decoders), streamId);
        forall id | id in decoders ensures decoders[id] in live {
          assert old(decoders)[id] != h;
        }
      }
    }

    /**
     * decode: null when the stream has no decoder (the codec is not called),
     * otherwise the PCM the codec's answer stands for. `opusData` is what
     * the codec is given; `reply` is its answer.
     */
    method Decode(streamId: Int32, opusData: seq<byte>, reply: CodecReply) returns (pcm: Option<seq<byte>>)
      requires DecodeReplyFits(reply)
      ensures streamId !in decoders ==> pcm.None?
      ensures streamId in decoders ==> pcm == DecodedPcm(reply)
    {
      if streamId !in decoders {
        return None;
      }
      pcm := DecodedPcm(reply);
    }

    /** encode: the Opus packet the codec's answer stands for, or null on a negative code. */
    method Encode(pcmData: seq<byte>, reply: CodecReply) returns (opus: Option<seq<byte>>)
      requires EncodeReplyFits(reply)
      ensures opus == EncodedOpus(reply)
      ensures opus.Some? ==> |opus.value| <= MAX_OPUS_PACKET_SIZE
    {
      opus := EncodedOpus(reply);
    }

    /**
     * close: the encoder is destroyed, then every decoder in the table once,
     * in the map's iteration order, and the table is emptied. Nothing
     * records that the encoder is already gone, so a second close destroys
     * it again.
     */
    method Close()
      requires Valid()
      modifies this
      ensures Valid()
      ensures decoders == map[] && nextHandle == old(nextHandle)
      ensures |destroyed| == |old(destroyed)| + 1 + |old(decoders)|
      ensures destroyed[..|old(destroyed)| + 1] == old(destroyed) + [encoder]
      ensures forall id :: id in old(decoders) ==> old(decoders)[id] in destroyed[|old(destroyed)| + 1..]
      ensures live == old(live) - {encoder} - old(decoders).Values
      ensures doubleDestroys == if encoder in old(live) then old(doubleDestroys) else old(doubleDestroys) + {encoder}
      ensures Leaked() == old(Leaked())
    {
      Destroy(encoder);
      DestroyEach(decoders.Values);
      ValuesOfInjective(old(decoders));
      decoders := map[];
    }

    /** The forEach over decoders.values() in close: every handle in the set destroyed once, in some order. */
    method DestroyEach(values: set<Handle>)
      requires values <= live
      modifies this`live, this`destroyed, this`doubleDestroys
      ensures live == old(live) - values
      ensures doubleDestroys == old(doubleDestroys)
      ensures |destroyed| == |old(destroyed)| + |values|
      ensures destroyed[..|old(destroyed)|] == old(destroyed)
      ensures forall h :: h in values ==> h in destroyed[|old(destroyed)|..]
    {
      ghost var start := destroyed;
      ghost var alive := live;
      ghost var order: seq<Handle> := [];
      var pending := values;
      while pending != {}
        invariant pending <= values
        invariant live == alive - (values - pending)
        invariant destroyed == start + order
        invariant |order| + |pending| == |values|
        invariant forall h :: h in values && h !in pending ==> h in order
        invariant doubleDestroys == old(doubleDestroys)
        decreases |pending|
      {
        var h :| h in pending;
        Destroy(h);
        order := order + [h];
        pending := pending - {h};
      }
      assert destroyed[|start|..] == order;
    }
  }

  /** No two stream ids share a handle. */
  ghost predicate Injective(m: map<Int32, Handle>) {
    forall a, b :: a in m && b in m && a != b ==> m[a] != m[b]
  }

  /** Removing one entry of a map without shared values removes exactly its value and one key. */
  lemma RemoveEntry(m: map<Int32, Handle>, id: Int32)
    requires id in m && Injective(m)
    ensures (m - {id}).Values == m.Values - {m[id]}
    ensures |m - {id}| == |m| - 1
    ensures Injective(m - {id})
  {
    var rest := m - {id};
    forall x | x in m.Values - {m[id]} ensures x in rest.Values {
      var other :| other in m && m[other] == x;
      assert rest[other] == x;
    }
    assert rest.Keys == m.Keys - {id};
  }

  /**
   * The engine's loopback: one zero PCM frame is encoded, a session for
   * stream 1 is started, the packet is decoded there and the session is
   * stopped. With a codec that encodes the frame and decodes one full frame
   * of samples, the decoded PCM is as long as the frame that went in.
   */
  method EncodeDecodeLoopback(engine: AudioEngine, encodeReply: CodecReply, decodeReply: CodecReply)
      returns (opus: Option<seq<byte>>, pcm: Option<seq<byte>>)
    requires engine.Valid()
    requires EncodeReplyFits(encodeReply) && 0 < encodeReply.code
    requires DecodeReplyFits(decodeReply) && decodeReply.code == SAMPLES_PER_FRAME
    modifies engine
    ensures engine.Valid()
    ensures opus.Some? && |opus.value| > 0
    ensures pcm.Some? && |pcm.value| == FRAME_SIZE_BYTES
    ensures engine.decoders == old(engine.decoders) - {1}
  {
    var frame := seq(FRAME_SIZE_BYTES, _ => 0);
    opus := engine.Encode(frame, encodeReply);
    engine.StartDecodingSession(1, OPUS_OK);
    pcm := engine.Decode(1, opus.value, decodeReply);
    engine.StopDecodingSession(1);
  }

  /** A map without shared values has as many values as keys. */
  lemma {:induction false} ValuesOfInjective(m: map<Int32, Handle>)
    requires Injective(m)
    ensures |m.Values| == |m|
    decreases |m|
  {
    if m != map[] {
      var id :| id in m;
      RemoveEntry(m, id);
      ValuesOfInjective(m - {id});
      assert m[id] in m.Values;
    }
  }
}
