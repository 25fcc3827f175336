/**
 * The inbound side of ZelloWebSocketClient: a binary message is cut into its
 * 9-byte header and payload, a text message is routed by whether it carries
 * a "command" property. Both are pure decisions; the session engine acts on
 * what they return.
 */
module WebSocketClient {
  import opened Wrappers
  import opened Bytes
  import opened Json
  import opened Events
  import opened Packets

  /** The header fields and payload read from one binary message. */
  datatype BinaryMessage = BinaryMessage(kind: byte, streamId: Int32, packetId: Int32, payload: seq<byte>)

  /** onMessage(ByteBuffer): fewer than 9 bytes are dropped; otherwise type, two big-endian ints, the rest. */
  function ParseBinary(bs: seq<byte>): (r: Option<BinaryMessage>)
    ensures r.None? <==> |bs| < HEADER_SIZE
    ensures r.Some? ==> |r.value.payload| == |bs| - HEADER_SIZE
  {
    if |bs| < HEADER_SIZE then None
    else Some(BinaryMessage(bs[0], ReadBigEndian32(bs[1..5]), ReadBigEndian32(bs[5..9]), bs[9..]))
  }

  /** What onAudioPacket receives: the stream id and the payload; the type byte is never looked at. */
  function AudioDelivery(bs: seq<byte>): (r: Option<(Int32, seq<byte>)>)
    ensures r.None? <==> |bs| < HEADER_SIZE
  {
    match ParseBinary(bs)
    case None => None
    case Some(m) => Some((m.streamId, m.payload))
  }

  /** Parsing a frame the session engine built recovers every field. */
  lemma ParseBinaryOfFrame(kind: byte, id: Int32, field: Int32, payload: seq<byte>)
    ensures ParseBinary(Frame(kind, id, field, payload)) == Some(BinaryMessage(kind, id, field, payload))
  {
    FrameLayout(kind, id, field, payload);
    ReadBigEndian32OfBigEndian32(id);
    ReadBigEndian32OfBigEndian32(field);
  }

  /** Conversely, re-encoding a parsed message reproduces its bytes exactly. */
  lemma FrameOfParseBinary(bs: seq<byte>)
    requires |bs| >= HEADER_SIZE
    ensures var m := ParseBinary(bs).value;
      Frame(m.kind, m.streamId, m.packetId, m.payload) == bs
  {
    var m := ParseBinary(bs).value;
    BigEndian32OfReadBigEndian32(bs[1..5]);
    BigEndian32OfReadBigEndian32(bs[5..9]);
    assert bs == [bs[0]] + bs[1..5] + bs[5..9] + bs[9..];
  }

  /** The audio packet sendVoiceData writes reaches the audio handler with its stream id and opus bytes. */
  lemma AudioPacketRoundTrip(streamId: Int32, packetId: Int32, opus: seq<byte>)
    ensures ParseBinary(AudioPacket(streamId, packetId, opus)) == Some(BinaryMessage(AUDIO_PACKET, streamId, packetId, opus))
    ensures AudioDelivery(AudioPacket(streamId, packetId, opus)) == Some((streamId, opus))
  {
    ParseBinaryOfFrame(AUDIO_PACKET, streamId, packetId, opus);
  }

  /** Image packets are not told apart: an 0x02 frame is handed to the audio handler as well. */
  lemma ImagePacketReachesAudioHandler(imageId: Int32, imageType: Int32, data: seq<byte>)
    ensures AudioDelivery(ImagePacket(imageId, imageType, data)) == Some((imageId, data))
  {
    ParseBinaryOfFrame(IMAGE_PACKET, imageId, imageType, data);
  }

  /** Where a text message goes. */
  datatype TextRoute =
    | ToServerCommand(event: ServerCommand)
    | ToServerResponse(response: JsonObject)
    | ToError(message: string)

  const PARSE_FAILURE: string := "Failed to parse server message"

  /**
   * onMessage(String): `parsed` is the JSON library's reading of the text
   * (None when it is not a JSON object). A "command" property sends it to
   * the typed-event mapping, its absence to the reply handler, and any
   * parse or mapping failure to onError.
   */
  function RouteText(parsed: Option<JsonObject>): (r: TextRoute)
    ensures parsed.None? ==> r == ToError(PARSE_FAILURE)
    ensures parsed.Some? && "command" !in parsed.value ==> r == ToServerResponse(parsed.value)
    ensures parsed.Some? && "command" in parsed.value ==>
      match DecodeEvent(parsed.value)
      case Some(e) => r == ToServerCommand(e)
      case None => r == ToError(PARSE_FAILURE)
  {
    match parsed
    case None => ToError(PARSE_FAILURE)
    case Some(o) =>
      if "command" in o then
        match DecodeEvent(o)
        case Some(e) => ToServerCommand(e)
        case None => ToError(PARSE_FAILURE)
      else ToServerResponse(o)
  }

  /** A reply goes to the reply handler exactly when it parses and has no "command" property. */
  lemma RoutedToResponseIff(parsed: Option<JsonObject>)
    ensures RouteText(parsed).ToServerResponse? <==> parsed.Some? && "command" !in parsed.value
  {
  }

  /** Only messages with a "command" property become typed events. */
  lemma RoutedToCommandOnlyWithCommandKey(parsed: Option<JsonObject>)
    ensures RouteText(parsed).ToServerCommand? <==>
      parsed.Some? && "command" in parsed.value && DecodeEvent(parsed.value).Some?
  {
  }
}
