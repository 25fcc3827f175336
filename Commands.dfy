/**
 * The commands the client sends (Command and its subclasses) and the JSON
 * object Jackson writes for each. A command is its name, a mutable `seq`
 * and the fields of its subclass; `Command` is the mutable object,
 * `CommandMessage` the value it holds when it is written to the socket.
 */
module Commands {
  import opened Wrappers
  import opened Bytes
  import opened Json
  import opened Base64
  import opened AudioConstants

  /** ZelloChannelConfig: every field is a nullable string set through the builder. */
  datatype ChannelConfig = ChannelConfig(
    serverUrl: Option<string>,
    username: Option<string>,
    password: Option<string>,
    authToken: Option<string>,
    channel: Option<string>)

  /** The subclass-specific fields of each command. */
  datatype CommandBody =
    | Logon(authToken: Option<string>, username: Option<string>, password: Option<string>, channel: Option<string>)
    | StartStream
    | StopStream(streamId: Int32, channel: Option<string>)
    | SendTextMessage(channel: Option<string>, text: Option<string>)
    | SendImage(channel: Option<string>, source: Option<string>, width: Int32, height: Int32,
                thumbnailContentLength: Int32, contentLength: Int32)

  /** The name each subclass passes to the Command constructor. */
  function CommandName(b: CommandBody): string {
    match b
    case Logon(_, _, _, _) => "logon"
    case StartStream => "start_stream"
    case StopStream(_, _) => "stop_stream"
    case SendTextMessage(_, _) => "send_text_message"
    case SendImage(_, _, _, _, _, _) => "send_image"
  }

  /** Different kinds of command never share a name. */
  lemma CommandNamesDistinct(a: CommandBody, b: CommandBody)
    ensures CommandName(a) == CommandName(b) <==>
      (a.Logon? && b.Logon?) || (a.StartStream? && b.StartStream?) || (a.StopStream? && b.StopStream?)
      || (a.SendTextMessage? && b.SendTextMessage?) || (a.SendImage? && b.SendImage?)
  {
  }

  /** new LogonCommand(config): the four credentials and the channel, copied as they are. */
  function LogonCommand(config: ChannelConfig): (b: CommandBody)
    ensures b.Logon? && CommandName(b) == "logon"
    ensures b.authToken == config.authToken && b.username == config.username
    ensures b.password == config.password && b.channel == config.channel
  {
    Logon(config.authToken, config.username, config.password, config.channel)
  }

  // StartStreamCommand's constant fields.
  const STREAM_TYPE: string := "audio"
  const STREAM_CODEC: string := "opus"
  const PACKET_DURATION: int := 20
  /** Base64 of the 4-byte Opus header: 16000 Hz little-endian, 1 frame per packet, 20 ms frames. */
  const CODEC_HEADER: string := "gD4BFA=="

  // SendImageCommand's constant field and builder default.
  const IMAGE_TYPE: string := "jpeg"
  const DEFAULT_IMAGE_SOURCE: string := "library"

  /**
   * SendImageCommand.builder()...build(): `source` takes its default unless
   * the builder set it (the outer Option is "was it set", the inner one the
   * nullable value); the other fields are copied.
   */
  function SendImageBuilder(channel: Option<string>, source: Option<Option<string>>, width: Int32, height: Int32,
                            thumbnailContentLength: Int32, contentLength: Int32): (b: CommandBody)
    ensures b.SendImage? && CommandName(b) == "send_image"
    ensures b.source == if source.Some? then source.value else Some(DEFAULT_IMAGE_SOURCE)
    ensures b.channel == channel && b.width == width && b.height == height
    ensures b.thumbnailContentLength == thumbnailContentLength && b.contentLength == contentLength
  {
    SendImage(channel, source.GetOr(Some(DEFAULT_IMAGE_SOURCE)), width, height, thumbnailContentLength, contentLength)
  }

  /** The value a command is written from: its fields and the seq it carries at that moment. */
  datatype CommandMessage = CommandMessage(body: CommandBody, sequence: Int32)

  /** A nullable string property as Jackson writes it by default: null stays null. */
  function Text(v: Option<string>): (j: JsonValue)
    ensures v.None? <==> j.JNull?
  {
    match v
    case None => JNull
    case Some(s) => JString(s)
  }

  /** A nullable property under NON_NULL inclusion: present only when it is not null. */
  function PutIfPresent(o: JsonObject, key: string, v: Option<string>): (r: JsonObject)
    ensures v.None? ==> r == o
    ensures v.Some? ==> r == o[key := JString(v.value)]
  {
    match v
    case None => o
    case Some(s) => o[key := JString(s)]
  }

  /**
   * The object Jackson writes for a command (JsonUtils.commandToJson):
   * "command" and "seq" from the base class, then the subclass's properties
   * under their @JsonProperty names. LogonCommand is NON_NULL, so its null
   * fields are left out; the others write null as null.
   */
  function Serialize(m: CommandMessage): (o: JsonObject)
    ensures "command" in o && o["command"] == JString(CommandName(m.body))
    ensures "seq" in o && o["seq"] == JNumber(m.sequence)
  {
    var base := map["command" := JString(CommandName(m.body)), "seq" := JNumber(m.sequence)];
    match m.body
    case Logon(authToken, username, password, channel) =>
      PutIfPresent(PutIfPresent(PutIfPresent(PutIfPresent(base,
        "auth_token", authToken), "username", username), "password", password), "channel", channel)
    case StartStream =>
      base["type" := JString(STREAM_TYPE)]["codec" := JString(STREAM_CODEC)]
        ["packet_duration" := JNumber(PACKET_DURATION)]["codec_header" := JString(CODEC_HEADER)]
    case StopStream(streamId, channel) =>
      base["stream_id" := JNumber(streamId)]["channel" := Text(channel)]
    case SendTextMessage(channel, text) =>
      base["channel" := Text(channel)]["text" := Text(text)]
    case SendImage(channel, source, width, height, thumbnailContentLength, contentLength) =>
      base["channel" := Text(channel)]["type" := JString(IMAGE_TYPE)]["source" := Text(source)]
        ["width" := JNumber(width)]["height" := JNumber(height)]
        ["thumbnail_content_length" := JNumber(thumbnailContentLength)]["content_length" := JNumber(contentLength)]
  }

  /**
   * The logon object carries each credential under its own key ("auth_token"
   * for the token) exactly when the config has it, with the config's value;
   * nothing chooses between a token and a username/password pair.
   */
  lemma LogonSerialization(config: ChannelConfig, sequence: Int32)
    ensures var o := Serialize(CommandMessage(LogonCommand(config), sequence));
      && o.Keys == {"command", "seq"}
           + (if config.authToken.Some? then {"auth_token"} else {})
           + (if config.username.Some? then {"username"} else {})
           + (if config.password.Some? then {"password"} else {})
           + (if config.channel.Some? then {"channel"} else {})
      && ("auth_token" in o ==> o["auth_token"] == JString(config.authToken.value))
      && ("username" in o ==> o["username"] == JString(config.username.value))
      && ("password" in o ==> o["password"] == JString(config.password.value))
      && ("channel" in o ==> o["channel"] == JString(config.channel.value))
  {
    var base := map["command" := JString("logon"), "seq" := JNumber(sequence)];
    var o1 := PutIfPresent(base, "auth_token", config.authToken);
    var o2 := PutIfPresent(o1, "username", config.username);
    var o3 := PutIfPresent(o2, "password", config.password);
    var o4 := PutIfPresent(o3, "channel", config.channel);
    assert Serialize(CommandMessage(LogonCommand(config), sequence)) == o4;
  }

  /** With every credential set, all of them are sent. */
  lemma LogonSendsEveryCredential(config: ChannelConfig, sequence: Int32)
    requires config.authToken.Some? && config.username.Some? && config.password.Some?
    ensures var o := Serialize(CommandMessage(LogonCommand(config), sequence));
      "auth_token" in o && "username" in o && "password" in o
  {
    LogonSerialization(config, sequence);
  }

  /**
   * The start_stream object is the same for every command apart from "seq":
   * type "audio", codec "opus", a packet duration equal to the frame
   * duration, and the fixed codec header.
   */
  lemma StartStreamPayload(sequence: Int32)
    ensures var o := Serialize(CommandMessage(StartStream, sequence));
      && o.Keys == {"command", "seq", "type", "codec", "packet_duration", "codec_header"}
      && o["command"] == JString("start_stream")
      && o["type"] == JString("audio") && o["codec"] == JString("opus")
      && o["packet_duration"] == JNumber(FRAME_DURATION_MS)
      && o["codec_header"] == JString(CODEC_HEADER)
  {
  }

  /** Two start_stream commands differ at most in their "seq". */
  lemma StartStreamDiffersOnlyInSeq(s1: Int32, s2: Int32)
    ensures Serialize(CommandMessage(StartStream, s1))["seq" := JNumber(s2)]
         == Serialize(CommandMessage(StartStream, s2))
  {
  }

  /** The 4-byte Opus header behind CODEC_HEADER. */
  const CODEC_HEADER_BYTES: seq<byte> := [0x80, 0x3E, 0x01, 0x14]

  /**
   * CODEC_HEADER is the Base64 text of the four header bytes: the sample
   * rate 16000 little-endian in bytes 0 and 1, one frame per packet in
   * byte 2 and the 20 ms frame duration in byte 3.
   */
  lemma CodecHeaderDecodes()
    ensures Base64.Decode(CODEC_HEADER) == Some(CODEC_HEADER_BYTES)
    ensures CODEC_HEADER_BYTES[0] as int + 256 * (CODEC_HEADER_BYTES[1] as int) == SAMPLE_RATE
    ensures CODEC_HEADER_BYTES[2] == 1
    ensures CODEC_HEADER_BYTES[3] == FRAME_DURATION_MS
  {
    assert Base64.Encode(CODEC_HEADER_BYTES) == CODEC_HEADER;
    DecodeEncode(CODEC_HEADER_BYTES);
  }

  /** The text message object has exactly the keys "channel" and "text" besides the base ones. */
  lemma SendTextMessageSerialization(channel: Option<string>, text: Option<string>, sequence: Int32)
    ensures var o := Serialize(CommandMessage(SendTextMessage(channel, text), sequence));
      && o.Keys == {"command", "seq", "channel", "text"}
      && o["command"] == JString("send_text_message")
      && o["channel"] == Text(channel) && o["text"] == Text(text)
  {
  }

  /** The stop object names the stream and the channel. */
  lemma StopStreamSerialization(streamId: Int32, channel: Option<string>, sequence: Int32)
    ensures var o := Serialize(CommandMessage(StopStream(streamId, channel), sequence));
      && o.Keys == {"command", "seq", "stream_id", "channel"}
      && o["command"] == JString("stop_stream")
      && o["stream_id"] == JNumber(streamId) && o["channel"] == Text(channel)
  {
  }

  /**
   * The image object: type always "jpeg", source "library" unless the
   * builder set it, and the sizes as given.
   */
  lemma SendImageSerialization(channel: Option<string>, width: Int32, height: Int32,
                               thumbnailContentLength: Int32, contentLength: Int32, sequence: Int32)
    ensures var b := SendImageBuilder(channel, None, width, height, thumbnailContentLength, contentLength);
      var o := Serialize(CommandMessage(b, sequence));
      && o.Keys == {"command", "seq", "channel", "type", "source", "width", "height",
                    "thumbnail_content_length", "content_length"}
      && o["command"] == JString("send_image")
      && o["type"] == JString("jpeg") && o["source"] == JString("library")
      && o["channel"] == Text(channel)
      && o["width"] == JNumber(width) && o["height"] == JNumber(height)
      && o["thumbnail_content_length"] == JNumber(thumbnailContentLength)
      && o["content_length"] == JNumber(contentLength)
  {
  }

  /**
   * A command object: its name and fields are fixed when it is built, its
   * seq starts at 0 and is overwritten by SetSequence.
   */
  class Command {
    const body: CommandBody
    var sequence: Int32

    constructor (body: CommandBody)
      ensures this.body == body && sequence == 0
    {
      this.body := body;
      sequence := 0;
    }

    /** getCommand(): the name given at construction. */
    function Name(): string {
      CommandName(body)
    }

    /** setSequence(seq): the last value set wins; the name and fields stay as they were. */
    method SetSequence(s: Int32)
      modifies this`sequence
      ensures sequence == s
    {
      sequence := s;
    }

    /** What the command holds right now, as it would be written. */
    function Message(): (m: CommandMessage)
      reads this
      ensures m.body == body && m.sequence == sequence
    {
      CommandMessage(body, sequence)
    }
  }
}
