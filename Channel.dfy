/**
 * ZelloChannel, the session engine: the connection state machine, the
 * sequence counter, the tables of acknowledgement callbacks, pending image
 * uploads and incoming streams, the outgoing stream, and the handlers the
 * WebSocket client calls. The socket is an open flag plus an append-only log
 * of what was written to it; the listener is a log of the calls it receives.
 * Each callback runs as one atomic step.
 */
module Channel {
  import opened Wrappers
  import opened Bytes
  import opened Json
  import opened Events
  import opened Packets
  import opened Commands
  import opened Audio
  import opened WebSocketClient

  datatype ConnectionState = DISCONNECTED | CONNECTING | LOGGING_IN | CONNECTED | DISCONNECTING

  /** One message written to the socket: a command (as JSON text) or a binary frame. */
  datatype Outgoing =
    | TextFrame(message: CommandMessage)
    | BinaryFrame(bytes: seq<byte>)

  /** One call on ZelloChannelListener. */
  datatype Notification =
    | Connected
    | Disconnected(reason: Option<string>)
    | Error(error: string)
    | TextMessage(from: Option<string>, message: Option<string>)
    | StreamStarted(streamId: Int32, from: Option<string>)
    | StreamStopped(streamId: Int32, from: Option<string>)
    | AudioData(streamId: Int32, pcm: seq<byte>)
    | ImageReceived(event: ServerCommand)

  /** An acknowledgement callback (a Consumer<JSONObject>), known by its identity. */
  datatype Callback = Callback(id: nat)

  /** An image waiting for its image_id: the thumbnail and the full JPEG. */
  datatype PendingImage = PendingImage(thumbnailData: seq<byte>, fullImageData: seq<byte>)

  /** What ImageIO makes of the JPEG passed to sendImage: its size and the thumbnail created from it. */
  datatype ImageFacts = ImageFacts(width: Int32, height: Int32, thumbnail: seq<byte>)

  /** How connect() ends: it starts connecting, or throws IllegalStateException, or fails to build the URI. */
  datatype ConnectOutcome = Connecting | IllegalState | InvalidUri

  const UNKNOWN_ERROR: string := "An unknown error occurred."
  const COMMAND_FAILED: string := "A command failed: "
  const SERVER_ERROR: string := "Server error: "
  const IMAGE_FAILURE: string := "Failed to process image for sending"
  const TRANSPORT_ERROR: string := "A WebSocket error occurred"

  /** Java's string concatenation of a possibly null string. */
  function JavaText(s: Option<string>): string {
    match s
    case Some(t) => t
    case None => "null"
  }

  // ---------------------------------------------------------------------
  // Sequence numbers of the emitted commands.

  /** The seq of every command in the log, in emission order. */
  function TextSequences(log: seq<Outgoing>): (r: seq<Int32>)
    ensures forall j :: 0 <= j < |log| && log[j].TextFrame? ==> log[j].message.sequence in r
    ensures forall x :: x in r ==> exists j :: 0 <= j < |log| && log[j].TextFrame? && log[j].message.sequence == x
  {
    if log == [] then []
    else
      var last := log[|log| - 1];
      TextSequences(log[..|log| - 1]) + (if last.TextFrame? then [last.message.sequence] else [])
  }

  lemma TextSequencesOfAppend(log: seq<Outgoing>, x: Outgoing)
    ensures TextSequences(log + [x]) == TextSequences(log) + (if x.TextFrame? then [x.message.sequence] else [])
  {
    assert (log + [x])[..|log|] == log;
  }

  predicate Increasing(xs: seq<Int32>) {
    forall i, j :: 0 <= i < j < |xs| ==> xs[i] < xs[j]
  }

  predicate AllBelow(xs: seq<Int32>, bound: int) {
    forall i :: 0 <= i < |xs| ==> 1 <= xs[i] < bound
  }

  /** Appending a seq above every earlier one keeps the seqs increasing and below the next counter value. */
  lemma IncreasingAfterIssue(xs: seq<Int32>, s: Int32, next: int)
    requires Increasing(xs) && AllBelow(xs, s) && 1 <= s < next
    ensures Increasing(xs + [s]) && AllBelow(xs + [s], next)
  {
  }

  // ---------------------------------------------------------------------
  // Replies (messages without a "command" property).

  /** The reply's seq, -1 when absent or not a number (optInt("seq", -1)). */
  function ReplySeq(r: JsonObject): Int32 {
    OptInt(r, "seq", -1)
  }

  /** What onServerResponse does with a reply. */
  datatype ReplyAction =
    | RunCallback(sequence: Int32)
    | CommandFailed(sequence: Int32, error: string)
    | Succeeded(sequence: Int32, streamId: Option<Int32>, imageId: Option<Int32>)
    | Malformed(streamId: Option<Int32>)    // getBoolean or getInt threw; streamId was stored before the throw

  /**
   * onServerResponse's decision: a registered callback takes the reply and
   * nothing else happens; otherwise "error" or success=false make it a
   * failure; otherwise stream_id sets the outgoing stream and image_id (with
   * a seq) starts an upload. A malformed "success", "stream_id" or
   * "image_id" throws.
   */
  function ClassifyReply(r: JsonObject, callbacks: set<Int32>): (a: ReplyAction)
    ensures a.RunCallback? <==> ReplySeq(r) != -1 && ReplySeq(r) in callbacks
    ensures !a.Malformed? ==> a.sequence == ReplySeq(r)
    ensures a.CommandFailed? <==>
      !a.RunCallback? && ("error" in r || ("success" in r && GetBoolean(r, "success") == Some(false)))
    ensures a.CommandFailed? ==> a.error == OptString(r, "error", UNKNOWN_ERROR)
    ensures (a.Succeeded? || a.Malformed?) && a.streamId.Some? ==>
      "stream_id" in r && GetInt(r, "stream_id") == a.streamId
    ensures a.Succeeded? ==> (a.streamId.Some? <==> "stream_id" in r)
    ensures a.Succeeded? ==> (a.imageId.Some? <==> "image_id" in r && ReplySeq(r) != -1)
    ensures a.Succeeded? && a.imageId.Some? ==> GetInt(r, "image_id") == a.imageId
  {
    var s := ReplySeq(r);
    if s != -1 && s in callbacks then RunCallback(s)
    else if "error" in r then CommandFailed(s, OptString(r, "error", UNKNOWN_ERROR))
    else if "success" in r && GetBoolean(r, "success").None? then Malformed(None)
    else if "success" in r && GetBoolean(r, "success") == Some(false) then CommandFailed(s, OptString(r, "error", UNKNOWN_ERROR))
    else if "stream_id" in r && GetInt(r, "stream_id").None? then Malformed(None)
    else
      var streamId := if "stream_id" in r then GetInt(r, "stream_id") else None;
      if "image_id" in r && s != -1 then
        match GetInt(r, "image_id")
        case None => Malformed(streamId)
        case Some(id) => Succeeded(s, streamId, Some(id))
      else Succeeded(s, streamId, None)
  }

  /** A failed command never reaches the stream and image handling, whatever else the reply carries. */
  lemma FailureReturnsEarly(r: JsonObject, callbacks: set<Int32>)
    requires !(ReplySeq(r) != -1 && ReplySeq(r) in callbacks)
    requires "error" in r
    ensures ClassifyReply(r, callbacks) == CommandFailed(ReplySeq(r), OptString(r, "error", UNKNOWN_ERROR))
  {
  }

  /** A successful reply with a numeric stream_id reports that id as the outgoing stream. */
  lemma StreamIdReplySetsStream(r: JsonObject, callbacks: set<Int32>, id: Int32)
    requires !(ReplySeq(r) != -1 && ReplySeq(r) in callbacks)
    requires "error" !in r && "success" !in r && "image_id" !in r
    requires "stream_id" in r && r["stream_id"] == JNumber(id)
    ensures ClassifyReply(r, callbacks) == Succeeded(ReplySeq(r), Some(id), None)
  {
  }

  /** Without a seq an image_id is ignored. */
  lemma ImageIdNeedsSeq(r: JsonObject, callbacks: set<Int32>)
    requires "seq" !in r
    ensures var a := ClassifyReply(r, callbacks);
      !a.RunCallback? && !(a.Succeeded? && a.imageId.Some?)
  {
  }

  /** The two frames sendBinaryImageData writes: the thumbnail first, then the full image. */
  function ImageUpload(imageId: Int32, image: PendingImage): (frames: seq<Outgoing>)
    ensures |frames| == 2 && frames[0].BinaryFrame? && frames[1].BinaryFrame?
    ensures frames[0].bytes == Frame(IMAGE_PACKET, imageId, IMAGE_TYPE_THUMBNAIL, image.thumbnailData)
    ensures frames[1].bytes == Frame(IMAGE_PACKET, imageId, IMAGE_TYPE_FULL, image.fullImageData)
  {
    [BinaryFrame(ImagePacket(imageId, IMAGE_TYPE_THUMBNAIL, image.thumbnailData)),
     BinaryFrame(ImagePacket(imageId, IMAGE_TYPE_FULL, image.fullImageData))]
  }

  class ZelloChannel {
    const config: ChannelConfig
    const audioEngine: AudioEngine
    /** listener != null */
    var hasListener: bool
    /** webSocketClient != null */
    var hasSocket: bool
    /** webSocketClient.isOpen() */
    var socketOpen: bool
    var state: ConnectionState
    /** The AtomicInteger behind seq allocation; starts at 1 and wraps like a Java int. */
    var sequence: Int32
    /** Whether the counter has wrapped past Integer.MAX_VALUE. */
    ghost var wrapped: bool
    var commandCallbacks: map<Int32, Callback>
    var pendingImages: map<Int32, PendingImage>
    var activeIncomingStreams: map<Int32, string>
    /** -1 when no outgoing stream is open. */
    var outgoingStreamId: Int32
    var outgoingPacketId: Int32
    /** Everything written to the socket, in order. */
    var sent: seq<Outgoing>
    /** Every listener call, in order. */
    var notifications: seq<Notification>
    /** Every acknowledgement callback invocation, in order. */
    var callbackCalls: seq<(Callback, JsonObject)>
    /** How many times the encoder was used after being destroyed. */
    ghost var deadEncoderUses: nat

    ghost predicate Valid()
      reads this, audioEngine
    {
      && audioEngine.Valid()
      && (socketOpen ==> hasSocket)
      && (forall k :: k in commandCallbacks ==> k in TextSequences(sent))
      && (!wrapped ==> 1 <= sequence && Increasing(TextSequences(sent)) && AllBelow(TextSequences(sent), sequence))
    }

    /** What the listener receives for one notification: nothing when no listener is set. */
    function Heard(n: Notification): (r: seq<Notification>)
      reads this
      ensures |r| == (if hasListener then 1 else 0)
    {
      if hasListener then [n] else []
    }

    constructor (config: ChannelConfig)
      ensures Valid() && fresh(audioEngine) && this.config == config
      ensures state == DISCONNECTED && sequence == 1 && !wrapped
      ensures outgoingStreamId == -1 && outgoingPacketId == 0
      ensures commandCallbacks == map[] && pendingImages == map[] && activeIncomingStreams == map[]
      ensures sent == [] && notifications == [] && callbackCalls == []
      ensures !hasListener && !hasSocket && !socketOpen
      ensures audioEngine.decoders == map[] && audioEngine.live == {audioEngine.encoder}
    {
      this.config := config;
      audioEngine := new AudioEngine();
      hasListener := false;
      hasSocket := false;
      socketOpen := false;
      state := DISCONNECTED;
      sequence := 1;
      wrapped := false;
      commandCallbacks := map[];
      pendingImages := map[];
      activeIncomingStreams := map[];
      outgoingStreamId := -1;
      outgoingPacketId := 0;
      sent := [];
      notifications := [];
      callbackCalls := [];
      deadEncoderUses := 0;
    }

    method SetListener(present: bool)
      modifies this`hasListener
      ensures hasListener == present
    {
      hasListener := present;
    }

    method Notify(n: Notification)
      modifies this`notifications
      ensures notifications == old(notifications) + Heard(n)
    {
      if hasListener {
        notifications := notifications + [n];
      }
    }

    /** sequence.getAndIncrement(). */
    method NextSequence() returns (s: Int32)
      modifies this`sequence, this`wrapped
      ensures s == old(sequence) && sequence == Inc32(old(sequence))
      ensures wrapped == (old(wrapped) || old(sequence) == INT_MAX)
    {
      s := sequence;
      if sequence == INT_MAX {
        wrapped := true;
      }
      sequence := Inc32(sequence);
    }

    /**
     * connect(): only from DISCONNECTED, otherwise it throws and changes
     * nothing. It moves to CONNECTING before building the URI, so a bad URL
     * leaves the channel in CONNECTING with no new socket. `uriValid` is
     * whether config.serverUrl parses as a URI.
     */
    method Connect(uriValid: bool) returns (outcome: ConnectOutcome)
      requires Valid()
      requires config.serverUrl.None? ==> !uriValid
      modifies this`state, this`hasSocket, this`socketOpen
      ensures Valid()
      ensures old(state) != DISCONNECTED ==>
        outcome == IllegalState && state == old(state) && hasSocket == old(hasSocket) && socketOpen == old(socketOpen)
      ensures old(state) == DISCONNECTED && !uriValid ==>
        outcome == InvalidUri && state == CONNECTING && hasSocket == old(hasSocket) && socketOpen == old(socketOpen)
      ensures old(state) == DISCONNECTED && uriValid ==>
        outcome == Connecting && state == CONNECTING && hasSocket && !socketOpen
    {
      if state != DISCONNECTED {
        return IllegalState;
      }
      state := CONNECTING;
      if !uriValid {
        return InvalidUri;
      }
      hasSocket := true;
      socketOpen := false;
      outcome := Connecting;
    }

    /**
     * disconnect(): with a socket, DISCONNECTING and the socket starts
     * closing; in every case the audio engine is closed, even if it was
     * closed before.
     */
    method Disconnect()
      requires Valid()
      modifies this`state, this`socketOpen, audioEngine
      ensures Valid()
      ensures hasSocket ==> state == DISCONNECTING && !socketOpen
      ensures !hasSocket ==> state == old(state) && socketOpen == old(socketOpen)
      ensures audioEngine.decoders == map[]
      ensures audioEngine.live == old(audioEngine.live) - {audioEngine.encoder} - old(audioEngine.decoders).Values
      ensures audioEngine.doubleDestroys ==
        if audioEngine.encoder in old(audioEngine.live) then old(audioEngine.doubleDestroys)
        else old(audioEngine.doubleDestroys) + {audioEngine.encoder}
    {
      if hasSocket {
        state := DISCONNECTING;
        socketOpen := false;
      }
      audioEngine.Close();
    }

    /**
     * sendCommand(command, ackCallback): with the socket closed nothing
     * happens. Otherwise the command is stamped with the counter's value,
     * the counter moves on by one, the callback (if any) is filed under
     * that seq and the command is written.
     */
    method SendCommand(command: Command, callback: Option<Callback>)
      requires Valid()
      modifies this`sent, this`sequence, this`wrapped, this`commandCallbacks, command`sequence
      ensures Valid()
      ensures !(hasSocket && socketOpen) ==>
        && sent == old(sent) && sequence == old(sequence) && wrapped == old(wrapped)
        && commandCallbacks == old(commandCallbacks) && command.sequence == old(command.sequence)
      ensures hasSocket && socketOpen ==>
        && command.sequence == old(sequence)
        && sequence == Inc32(old(sequence))
        && sent == old(sent) + [TextFrame(CommandMessage(command.body, old(sequence)))]
        && commandCallbacks == (if callback.Some? then old(commandCallbacks)[old(sequence) := callback.value]
                                else old(commandCallbacks))
    {
      if !(hasSocket && socketOpen) {
        return;
      }
      ghost var before := sent;
      var s := NextSequence();
      command.SetSequence(s);
      if callback.Some? {
        commandCallbacks := commandCallbacks[s := callback.value];
      }
      sent := sent + [TextFrame(command.Message())];
      TextSequencesOfAppend(before, TextFrame(CommandMessage(command.body, s)));
      if !wrapped {
        IncreasingAfterIssue(TextSequences(before), s, sequence);
      }
    }

    /**
     * The effect of startVoiceStream(): only when CONNECTED, the packet
     * counter restarts at 0 and start_stream goes out under the next seq
     * while the socket is open. The outgoing stream id and the callbacks
     * are untouched.
     */
    twostate predicate VoiceStreamStarted()
      reads this
    {
      && commandCallbacks == old(commandCallbacks) && outgoingStreamId == old(outgoingStreamId)
      && (state != CONNECTED ==>
            && outgoingPacketId == old(outgoingPacketId) && sent == old(sent)
            && sequence == old(sequence) && wrapped == old(wrapped))
      && (state == CONNECTED ==> outgoingPacketId == 0)
      && (state == CONNECTED && hasSocket && socketOpen ==>
            sent == old(sent) + [TextFrame(CommandMessage(StartStream, old(sequence)))] && sequence == Inc32(old(sequence)))
      && (state == CONNECTED && !(hasSocket && socketOpen) ==> sent == old(sent) && sequence == old(sequence))
    }

    /**
     * The effect of stopVoiceStream(): only when CONNECTED with an outgoing
     * stream, stop_stream for that stream goes out under the next seq while
     * the socket is open, and the stream id becomes -1 either way. The
     * packet counter and the callbacks are untouched.
     */
    twostate predicate VoiceStreamStopped()
      reads this
    {
      && commandCallbacks == old(commandCallbacks) && outgoingPacketId == old(outgoingPacketId)
      && (state != CONNECTED || old(outgoingStreamId) == -1 ==>
            && outgoingStreamId == old(outgoingStreamId) && sent == old(sent)
            && sequence == old(sequence) && wrapped == old(wrapped))
      && (state == CONNECTED && old(outgoingStreamId) != -1 ==> outgoingStreamId == -1)
      && (state == CONNECTED && old(outgoingStreamId) != -1 && hasSocket && socketOpen ==>
            && sent == old(sent) + [TextFrame(CommandMessage(StopStream(old(outgoingStreamId), config.channel), old(sequence)))]
            && sequence == Inc32(old(sequence)))
      && (state == CONNECTED && old(outgoingStreamId) != -1 && !(hasSocket && socketOpen) ==>
            sent == old(sent) && sequence == old(sequence))
    }

    /** Neither stream call ran: everything either of them may change is as it was. */
    twostate predicate VoiceStreamKept()
      reads this
    {
      && commandCallbacks == old(commandCallbacks) && outgoingPacketId == old(outgoingPacketId)
      && outgoingStreamId == old(outgoingStreamId) && sent == old(sent)
      && sequence == old(sequence) && wrapped == old(wrapped)
    }

    /** startVoiceStream() */
    method StartVoiceStream()
      requires Valid()
      modifies this`outgoingPacketId, this`sent, this`sequence, this`wrapped, this`commandCallbacks
      ensures Valid()
      ensures VoiceStreamStarted()
    {
      if state != CONNECTED {
        return;
      }
      outgoingPacketId := 0;
      var command := new Command(StartStream);
      SendCommand(command, None);
    }

    /** stopVoiceStream() */
    method StopVoiceStream()
      requires Valid()
      modifies this`outgoingStreamId, this`sent, this`sequence, this`wrapped, this`commandCallbacks
      ensures Valid()
      ensures VoiceStreamStopped()
    {
      if state != CONNECTED || outgoingStreamId == -1 {
        return;
      }
      var command := new Command(StopStream(outgoingStreamId, config.channel));
      SendCommand(command, None);
      outgoingStreamId := -1;
    }

    /**
     * sendVoiceData(pcm): only when CONNECTED with an outgoing stream. The
     * frame is encoded (`reply` is the encoder's answer); when that gives
     * bytes and the socket is open, one audio packet is written and the
     * packet counter moves on by one. The encoder is used whether or not
     * the engine was closed before.
     */
    method SendVoiceData(pcmData: seq<byte>, reply: CodecReply)
      requires Valid() && EncodeReplyFits(reply)
      modifies this`sent, this`outgoingPacketId, this`deadEncoderUses
      ensures Valid()
      ensures var encoded := state == CONNECTED && outgoingStreamId != -1;
        var written := encoded && EncodedOpus(reply).Some? && hasSocket && socketOpen;
        && (written ==>
              && sent == old(sent) + [BinaryFrame(AudioPacket(outgoingStreamId, old(outgoingPacketId), EncodedOpus(reply).value))]
              && outgoingPacketId == Inc32(old(outgoingPacketId)))
        && (!written ==> sent == old(sent) && outgoingPacketId == old(outgoingPacketId))
        && deadEncoderUses == old(deadEncoderUses) + (if encoded && audioEngine.encoder !in audioEngine.live then 1 else 0)
    {
      if state != CONNECTED || outgoingStreamId == -1 {
        return;
      }
      if audioEngine.encoder !in audioEngine.live {
        deadEncoderUses := deadEncoderUses + 1;
      }
      var opus := audioEngine.Encode(pcmData, reply);
      if opus.Some? && hasSocket && socketOpen {
        WriteBinary(AudioPacket(outgoingStreamId, outgoingPacketId, opus.value));
        outgoingPacketId := Inc32(outgoingPacketId);
      }
    }

    /** sendTextMessage(message, ackCallback): only when CONNECTED; the text goes to the configured channel. */
    method SendTextMessage(message: Option<string>, callback: Option<Callback>)
      requires Valid()
      modifies this`sent, this`sequence, this`wrapped, this`commandCallbacks
      ensures Valid()
      ensures state != CONNECTED || !(hasSocket && socketOpen) ==>
        sent == old(sent) && sequence == old(sequence) && commandCallbacks == old(commandCallbacks)
      ensures state == CONNECTED && hasSocket && socketOpen ==>
        && sent == old(sent) + [TextFrame(CommandMessage(Commands.SendTextMessage(config.channel, message), old(sequence)))]
        && sequence == Inc32(old(sequence))
        && commandCallbacks == (if callback.Some? then old(commandCallbacks)[old(sequence) := callback.value]
                                else old(commandCallbacks))
    {
      if state != CONNECTED {
        return;
      }
      var command := new Command(Commands.SendTextMessage(config.channel, message));
      SendCommand(command, callback);
    }

    /**
     * sendImage(jpeg): only when CONNECTED. `facts` is ImageIO's reading of
     * the JPEG (None when it cannot be decoded, which is reported to the
     * listener). The image is filed under the seq taken here, and
     * sendCommand then stamps the command with the next one.
     */
    method SendImage(jpegData: seq<byte>, facts: Option<ImageFacts>)
      requires Valid()
      requires |jpegData| <= INT_MAX && (facts.Some? ==> |facts.value.thumbnail| <= INT_MAX)
      modifies this`sent, this`sequence, this`wrapped, this`commandCallbacks, this`pendingImages, this`notifications
      ensures Valid()
      ensures commandCallbacks == old(commandCallbacks)
      ensures state != CONNECTED ==>
        && sent == old(sent) && sequence == old(sequence)
        && pendingImages == old(pendingImages) && notifications == old(notifications)
      ensures state == CONNECTED && facts.None? ==>
        && notifications == old(notifications) + Heard(Error(IMAGE_FAILURE))
        && sent == old(sent) && sequence == old(sequence) && pendingImages == old(pendingImages)
      ensures state == CONNECTED && facts.Some? ==>
        var s := old(sequence);
        var f := facts.value;
        && notifications == old(notifications)
        && pendingImages == old(pendingImages)[s := PendingImage(f.thumbnail, jpegData)]
        && (hasSocket && socketOpen ==>
              && sent == old(sent) + [TextFrame(CommandMessage(
                   SendImageBuilder(config.channel, None, f.width, f.height, |f.thumbnail|, |jpegData|), Inc32(s)))]
              && sequence == Inc32(Inc32(s)))
        && (!(hasSocket && socketOpen) ==> sent == old(sent) && sequence == Inc32(s))
    {
      if state != CONNECTED {
        return;
      }
      if facts.None? {
        Notify(Error(IMAGE_FAILURE));
        return;
      }
      var f := facts.value;
      var command := new Command(SendImageBuilder(config.channel, None, f.width, f.height, |f.thumbnail|, |jpegData|));
      ghost var before := TextSequences(sent);
      var s := NextSequence();
      command.SetSequence(s);
      pendingImages := pendingImages[s := PendingImage(f.thumbnail, jpegData)];
      if !wrapped {
        assert AllBelow(before, sequence);
      }
      SendCommand(command, None);
    }

    /** onOpen(): LOGGING_IN, and the logon command built from the config is sent. */
    method OnOpen()
      requires Valid()
      modifies this`state, this`sent, this`sequence, this`wrapped, this`commandCallbacks
      ensures Valid()
      ensures state == LOGGING_IN && commandCallbacks == old(commandCallbacks)
      ensures hasSocket && socketOpen ==>
        sent == old(sent) + [TextFrame(CommandMessage(LogonCommand(config), old(sequence)))] && sequence == Inc32(old(sequence))
      ensures !(hasSocket && socketOpen) ==> sent == old(sent) && sequence == old(sequence)
    {
      state := LOGGING_IN;
      var command := new Command(LogonCommand(config));
      SendCommand(command, None);
    }

    /** sendBinaryImageData: the thumbnail frame, then the full image frame, when the socket is open. */
    method SendBinaryImageData(imageId: Int32, image: PendingImage)
      requires Valid()
      modifies this`sent
      ensures Valid()
      ensures hasSocket && socketOpen ==> sent == old(sent) + ImageUpload(imageId, image)
      ensures !(hasSocket && socketOpen) ==> sent == old(sent)
    {
      if !(hasSocket && socketOpen) {
        return;
      }
      var frames := ImageUpload(imageId, image);
      WriteBinary(frames[0].bytes);
      WriteBinary(frames[1].bytes);
      assert sent == old(sent) + frames;
    }

    /** webSocketClient.send(bytes): one binary frame is added to the log; the seqs sent so far stay as they were. */
    method WriteBinary(bytes: seq<byte>)
      requires Valid()
      modifies this`sent
      ensures Valid()
      ensures sent == old(sent) + [BinaryFrame(bytes)]
    {
      TextSequencesOfAppend(sent, BinaryFrame(bytes));
      sent := sent + [BinaryFrame(bytes)];
    }

    /**
     * onServerResponse(response), as ClassifyReply decides. `failed` is the
     * JSONException that escapes to the client, which reports it.
     */
    method OnServerResponse(response: JsonObject) returns (failed: bool)
      requires Valid()
      modifies this`commandCallbacks, this`callbackCalls, this`notifications, this`pendingImages,
               this`outgoingStreamId, this`sent
      ensures Valid()
      ensures var a := ClassifyReply(response, old(commandCallbacks).Keys);
        && failed == a.Malformed?
        && commandCallbacks == (if a.RunCallback? then old(commandCallbacks) - {a.sequence} else old(commandCallbacks))
        && callbackCalls == (if a.RunCallback? then old(callbackCalls) + [(old(commandCallbacks)[a.sequence], response)]
                             else old(callbackCalls))
        && notifications == (if a.CommandFailed? then old(notifications) + Heard(Error(COMMAND_FAILED + a.error))
                             else old(notifications))
        && outgoingStreamId == (if (a.Succeeded? || a.Malformed?) && a.streamId.Some? then a.streamId.value
                                else old(outgoingStreamId))
        && pendingImages == (if a.CommandFailed? || (a.Succeeded? && a.imageId.Some?) then old(pendingImages) - {a.sequence}
                             else old(pendingImages))
        && sent == (if a.Succeeded? && a.imageId.Some? && a.sequence in old(pendingImages) && hasSocket && socketOpen
                    then old(sent) + ImageUpload(a.imageId.value, old(pendingImages)[a.sequence])
                    else old(sent))
    {
      var s := OptInt(response, "seq", -1);
      if s != -1 && s in commandCallbacks {
        var callback := commandCallbacks[s];
        commandCallbacks := commandCallbacks - {s};
        callbackCalls := callbackCalls + [(callback, response)];
        return false;
      }
      var isError: bool;
      if "error" in response {
        isError := true;
      } else if "success" in response {
        var success := GetBoolean(response, "success");
        if success.None? {
          return true;
        }
        isError := !success.value;
      } else {
        isError := false;
      }
      if isError {
        var error := OptString(response, "error", UNKNOWN_ERROR);
        Notify(Error(COMMAND_FAILED + error));
        pendingImages := pendingImages - {s};
        return false;
      }
      failed := OnCommandSucceeded(response, s, commandCallbacks.Keys);
    }

    /**
     * The success half of onServerResponse: stream_id becomes the outgoing
     * stream, and image_id (with a seq) uploads the image filed under that
     * seq, if any.
     */
    method OnCommandSucceeded(response: JsonObject, s: Int32, ghost callbacks: set<Int32>) returns (failed: bool)
      requires Valid()
      requires s == ReplySeq(response) && !(s != -1 && s in callbacks)
      requires "error" !in response && ("success" in response ==> GetBoolean(response, "success") == Some(true))
      modifies this`pendingImages, this`outgoingStreamId, this`sent
      ensures Valid()
      ensures var a := ClassifyReply(response, callbacks);
        && (a.Succeeded? || a.Malformed?)
        && failed == a.Malformed?
        && outgoingStreamId == (if a.streamId.Some? then a.streamId.value else old(outgoingStreamId))
        && pendingImages == (if a.Succeeded? && a.imageId.Some? then old(pendingImages) - {s} else old(pendingImages))
        && sent == (if a.Succeeded? && a.imageId.Some? && s in old(pendingImages) && hasSocket && socketOpen
                    then old(sent) + ImageUpload(a.imageId.value, old(pendingImages)[s])
                    else old(sent))
    {
      if "stream_id" in response {
        var id := GetInt(response, "stream_id");
        if id.None? {
          return true;
        }
        outgoingStreamId := id.value;
      }
      if "image_id" in response && s != -1 {
        var imageId := GetInt(response, "image_id");
        if imageId.None? {
          return true;
        }
        var image := if s in pendingImages then Some(pendingImages[s]) else None;
        pendingImages := pendingImages - {s};
        if image.Some? {
          SendBinaryImageData(imageId.value, image.value);
        }
      }
      failed := false;
    }

    /**
     * onServerCommand(event): an "online" channel status connects; text,
     * stream start/stop, error and image events are passed to the listener;
     * a logon result and any other status do nothing. A stream start with a
     * null sender throws (the table refuses null values) before anything
     * changes; `createError` is the decoder creation's result code.
     */
    method OnServerCommand(event: ServerCommand, createError: int) returns (failed: bool)
      requires Valid()
      modifies this`state, this`notifications, this`activeIncomingStreams, audioEngine
      ensures Valid()
      ensures failed <==> event.OnStreamStart? && event.from.None?
      ensures !event.OnStreamStart? && !event.OnStreamStop? ==>
        activeIncomingStreams == old(activeIncomingStreams) && unchanged(audioEngine)
      ensures !(event.OnChannelStatus? && event.status == Some("online")) ==> state == old(state)
      ensures event.LogonResult? || (event.OnChannelStatus? && event.status != Some("online")) ==>
        notifications == old(notifications)
      ensures event.OnChannelStatus? && event.status == Some("online") ==>
        state == CONNECTED && notifications == old(notifications) + Heard(Connected)
      ensures event.OnTextMessage? ==>
        notifications == old(notifications) + Heard(TextMessage(event.from, event.message))
      ensures event.OnError? ==>
        notifications == old(notifications) + Heard(Error(SERVER_ERROR + JavaText(event.error)))
      ensures event.OnImage? ==> notifications == old(notifications) + Heard(ImageReceived(event))
      ensures event.OnStreamStart? && event.from.None? ==>
        notifications == old(notifications) && activeIncomingStreams == old(activeIncomingStreams) && unchanged(audioEngine)
      ensures event.OnStreamStart? && event.from.Some? ==>
        && activeIncomingStreams == old(activeIncomingStreams)[event.streamId := event.from.value]
        && notifications == old(notifications) + Heard(StreamStarted(event.streamId, event.from))
        && audioEngine.decoders == (if createError == OPUS_OK then old(audioEngine.decoders)[event.streamId := old(audioEngine.nextHandle)]
                                    else old(audioEngine.decoders))
        && audioEngine.destroyed == old(audioEngine.destroyed)
      ensures event.OnStreamStop? ==>
        var from := if event.streamId in old(activeIncomingStreams) then Some(old(activeIncomingStreams)[event.streamId]) else None;
        && activeIncomingStreams == old(activeIncomingStreams) - {event.streamId}
        && notifications == old(notifications) + Heard(StreamStopped(event.streamId, from))
        && audioEngine.decoders == old(audioEngine.decoders) - {event.streamId}
        && audioEngine.doubleDestroys == old(audioEngine.doubleDestroys)
    {
      failed := false;
      match event
      case OnChannelStatus(_, _, status) =>
        if status == Some("online") {
          state := CONNECTED;
          Notify(Connected);
        }
      case OnTextMessage(_, _, from, message) =>
        Notify(TextMessage(from, message));
      case OnStreamStart(_, _, streamId, from) =>
        if from.None? {
          return true;
        }
        activeIncomingStreams := activeIncomingStreams[streamId := from.value];
        audioEngine.StartDecodingSession(streamId, createError);
        Notify(StreamStarted(streamId, from));
      case OnStreamStop(_, _, streamId, _) =>
        var from := if streamId in activeIncomingStreams then Some(activeIncomingStreams[streamId]) else None;
        activeIncomingStreams := activeIncomingStreams - {streamId};
        audioEngine.StopDecodingSession(streamId);
        Notify(StreamStopped(streamId, from));
      case OnError(_, _, error) =>
        Notify(Error(SERVER_ERROR + JavaText(error)));
      case OnImage(_, _, _, _, _) =>
        Notify(ImageReceived(event));
      case LogonResult(_, _, _, _) =>
    }

    /** onAudioPacket(streamId, data): the decoded PCM goes to the listener; nothing when there is no decoder or decoding fails. */
    method OnAudioPacket(streamId: Int32, audioData: seq<byte>, reply: CodecReply)
      requires Valid() && DecodeReplyFits(reply)
      modifies this`notifications
      ensures Valid()
      ensures var pcm := if streamId in audioEngine.decoders then DecodedPcm(reply) else None;
        notifications == old(notifications) + (if pcm.Some? then Heard(AudioData(streamId, pcm.value)) else [])
    {
      var pcm := audioEngine.Decode(streamId, audioData, reply);
      if pcm.Some? {
        Notify(AudioData(streamId, pcm.value));
      }
    }

    /** onClose(reason): DISCONNECTED and the listener is told; no table is cleared. */
    method OnClose(reason: Option<string>)
      modifies this`state, this`notifications
      ensures state == DISCONNECTED
      ensures notifications == old(notifications) + Heard(Disconnected(reason))
    {
      state := DISCONNECTED;
      Notify(Disconnected(reason));
    }

    /** onError(message): passed on to the listener. */
    method OnError(message: string)
      modifies this`notifications
      ensures notifications == old(notifications) + Heard(Error(message))
    {
      Notify(Error(message));
    }

    // -------------------------------------------------------------------
    // The WebSocket client's callbacks, which forward to the handlers above.

    /** The transport has opened: isOpen() now holds and onOpen runs. */
    method TransportOpened()
      requires Valid() && hasSocket
      modifies this`socketOpen, this`state, this`sent, this`sequence, this`wrapped, this`commandCallbacks
      ensures Valid()
      ensures socketOpen && state == LOGGING_IN && commandCallbacks == old(commandCallbacks)
      ensures sent == old(sent) + [TextFrame(CommandMessage(LogonCommand(config), old(sequence)))]
      ensures sequence == Inc32(old(sequence))
    {
      socketOpen := true;
      OnOpen();
    }

    /** The transport has closed: the reason is forwarded to onClose as it is. */
    method TransportClosed(reason: Option<string>)
      requires Valid()
      modifies this`socketOpen, this`state, this`notifications
      ensures Valid()
      ensures !socketOpen && state == DISCONNECTED
      ensures notifications == old(notifications) + Heard(Disconnected(reason))
    {
      socketOpen := false;
      OnClose(reason);
    }

    /** A transport error: reported to the listener. */
    method TransportError()
      modifies this`notifications
      ensures notifications == old(notifications) + Heard(Error(TRANSPORT_ERROR))
    {
      OnError(TRANSPORT_ERROR);
    }

    /**
     * onMessage(ByteBuffer): frames under 9 bytes are dropped; anything
     * else reaches onAudioPacket with its stream id and payload.
     */
    method ReceiveBinary(bytes: seq<byte>, reply: CodecReply)
      requires Valid() && DecodeReplyFits(reply)
      modifies this`notifications
      ensures Valid()
      ensures |bytes| < HEADER_SIZE ==> notifications == old(notifications)
      ensures |bytes| >= HEADER_SIZE ==>
        var id := AudioDelivery(bytes).value.0;
        var pcm := if id in audioEngine.decoders then DecodedPcm(reply) else None;
        notifications == old(notifications) + (if pcm.Some? then Heard(AudioData(id, pcm.value)) else [])
    {
      match AudioDelivery(bytes)
      case None =>
      case Some((streamId, payload)) =>
        OnAudioPacket(streamId, payload, reply);
    }

    /**
     * onMessage(String): `parsed` is the JSON library's reading of the text.
     * A message without "command" goes to onServerResponse, one with it to
     * onServerCommand; parse and mapping failures, and exceptions thrown by
     * either handler, are reported as PARSE_FAILURE.
     */
    method ReceiveText(parsed: Option<JsonObject>, createError: int)
      requires Valid()
      modifies this`state, this`notifications, this`activeIncomingStreams, audioEngine,
               this`commandCallbacks, this`callbackCalls, this`pendingImages, this`outgoingStreamId, this`sent
      ensures Valid()
      ensures RouteText(parsed).ToError? ==>
        && notifications == old(notifications) + Heard(Error(PARSE_FAILURE))
        && state == old(state) && sent == old(sent) && commandCallbacks == old(commandCallbacks)
        && callbackCalls == old(callbackCalls) && pendingImages == old(pendingImages)
        && outgoingStreamId == old(outgoingStreamId)
        && activeIncomingStreams == old(activeIncomingStreams) && unchanged(audioEngine)
      ensures RouteText(parsed).ToServerResponse? ==> ReplyHandled(RouteText(parsed).response)
      ensures RouteText(parsed).ToServerCommand? ==> EventHandled(RouteText(parsed).event, createError)
    {
      match RouteText(parsed)
      case ToError(message) =>
        OnError(message);
      case ToServerResponse(response) =>
        HandleResponse(response);
      case ToServerCommand(event) =>
        HandleCommand(event, createError);
    }

    /**
     * The whole effect of onServerResponse as onMessage(String) runs it:
     * the reply is classified against the registered callbacks, a callback
     * is removed and run, a failure is reported and its pending image
     * dropped, a success sets the stream and uploads the image, and a
     * JSONException escaping the handler is reported as PARSE_FAILURE.
     * The connection state, the stream table and the codecs stay as they were.
     */
    twostate predicate ReplyHandled(response: JsonObject)
      reads this, audioEngine
    {
      var a := ClassifyReply(response, old(commandCallbacks).Keys);
      && state == old(state) && activeIncomingStreams == old(activeIncomingStreams) && unchanged(audioEngine)
      && commandCallbacks == (if a.RunCallback? then old(commandCallbacks) - {a.sequence} else old(commandCallbacks))
      && callbackCalls == (if a.RunCallback? then old(callbackCalls) + [(old(commandCallbacks)[a.sequence], response)]
                           else old(callbackCalls))
      && notifications == (if a.CommandFailed? then old(notifications) + Heard(Error(COMMAND_FAILED + a.error))
                           else if a.Malformed? then old(notifications) + Heard(Error(PARSE_FAILURE))
                           else old(notifications))
      && outgoingStreamId == (if (a.Succeeded? || a.Malformed?) && a.streamId.Some? then a.streamId.value
                              else old(outgoingStreamId))
      && pendingImages == (if a.CommandFailed? || (a.Succeeded? && a.imageId.Some?) then old(pendingImages) - {a.sequence}
                           else old(pendingImages))
      && sent == (if a.Succeeded? && a.imageId.Some? && a.sequence in old(pendingImages) && hasSocket && socketOpen
                  then old(sent) + ImageUpload(a.imageId.value, old(pendingImages)[a.sequence])
                  else old(sent))
    }

    /**
     * The whole effect of onServerCommand as onMessage(String) runs it: an
     * "online" status connects, the other events reach the listener, a
     * stream start opens a decoding session and records its sender, a stream
     * stop closes it, and a stream start with a null sender changes nothing
     * but is reported as PARSE_FAILURE. The socket log and the reply tables
     * stay as they were.
     */
    twostate predicate EventHandled(event: ServerCommand, createError: int)
      reads this, audioEngine
    {
      && sent == old(sent) && commandCallbacks == old(commandCallbacks) && pendingImages == old(pendingImages)
      && outgoingStreamId == old(outgoingStreamId) && callbackCalls == old(callbackCalls)
      && (!event.OnStreamStart? && !event.OnStreamStop? ==>
            activeIncomingStreams == old(activeIncomingStreams) && unchanged(audioEngine))
      && (!(event.OnChannelStatus? && event.status == Some("online")) ==> state == old(state))
      && (event.LogonResult? || (event.OnChannelStatus? && event.status != Some("online")) ==>
            notifications == old(notifications))
      && (event.OnChannelStatus? && event.status == Some("online") ==>
            state == CONNECTED && notifications == old(notifications) + Heard(Connected))
      && (event.OnTextMessage? ==> notifications == old(notifications) + Heard(TextMessage(event.from, event.message)))
      && (event.OnError? ==> notifications == old(notifications) + Heard(Error(SERVER_ERROR + JavaText(event.error))))
      && (event.OnImage? ==> notifications == old(notifications) + Heard(ImageReceived(event)))
      && (event.OnStreamStart? && event.from.None? ==>
            && notifications == old(notifications) + Heard(Error(PARSE_FAILURE))
            && activeIncomingStreams == old(activeIncomingStreams) && unchanged(audioEngine))
      && (event.OnStreamStart? && event.from.Some? ==>
            && activeIncomingStreams == old(activeIncomingStreams)[event.streamId := event.from.value]
            && notifications == old(notifications) + Heard(StreamStarted(event.streamId, event.from))
            && audioEngine.decoders == (if createError == OPUS_OK
                                        then old(audioEngine.decoders)[event.streamId := old(audioEngine.nextHandle)]
                                        else old(audioEngine.decoders))
            && audioEngine.destroyed == old(audioEngine.destroyed))
      && (event.OnStreamStop? ==>
            var from := if event.streamId in old(activeIncomingStreams) then Some(old(activeIncomingStreams)[event.streamId]) else None;
            && activeIncomingStreams == old(activeIncomingStreams) - {event.streamId}
            && notifications == old(notifications) + Heard(StreamStopped(event.streamId, from))
            && audioEngine.decoders == old(audioEngine.decoders) - {event.streamId}
            && audioEngine.doubleDestroys == old(audioEngine.doubleDestroys))
    }

    /** The reply branch of onMessage(String): onServerResponse, with an escaping exception reported as a parse failure. */
    method HandleResponse(response: JsonObject)
      requires Valid()
      modifies this`notifications, this`commandCallbacks, this`callbackCalls, this`pendingImages,
               this`outgoingStreamId, this`sent
      ensures Valid()
      ensures ReplyHandled(response)
    {
      var failed := OnServerResponse(response);
      if failed {
        OnError(PARSE_FAILURE);
      }
    }

    /** The event branch of onMessage(String): onServerCommand, with an escaping exception reported as a parse failure. */
    method HandleCommand(event: ServerCommand, createError: int)
      requires Valid()
      modifies this`state, this`notifications, this`activeIncomingStreams, audioEngine
      ensures Valid()
      ensures EventHandled(event, createError)
    {
      var failed := OnServerCommand(event, createError);
      if failed {
        OnError(PARSE_FAILURE);
      }
    }
  }
}
