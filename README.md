# Zello channels SDK: session engine, wire format, codec table and VOX bridge

This project is a Dafny model of the core of a Java client for Zello
push-to-talk channels. Its parts:

- **Session engine (`ZelloChannel`).** It owns:
  - the connection state machine (DISCONNECTED, CONNECTING, LOGGING_IN, CONNECTED, DISCONNECTING);
  - the command sequence counter;
  - three tables: acknowledgement callbacks by seq, pending image uploads by seq, and incoming streams by stream id;
  - the outgoing voice stream and its packet counter;
  - the handlers for server replies and server events.
- **Binary frames.** There are two kinds, audio (type `0x01`) and image (type `0x02`). Each is a type byte, two big-endian 32-bit ints and the payload.
- **WebSocket client.** It parses those frames and routes text messages either to the reply handler or to the typed event mapping.
- **Opus session table (`AudioEngine`).** It holds one encoder and one decoder per incoming stream.
- **Radio bridge (`ZelloRadioBridge`).** It is a voice-activated gate with a pre-roll buffer, a transmission queue and a hang time.
- **Protocol vocabulary.** This covers:
  - the audio constants;
  - the command records and the JSON object each one is written as;
  - the Base64 codec header of `start_stream`;
  - the event discriminant table;
  - the bridge configuration defaults.

Modules, one per component:

| module | models |
|---|---|
| `Bytes` | Java `int` (`Int32`, `Wrap32`, `Inc32`) and big-endian `putInt`/`getInt` |
| `AudioConstants` | the frame arithmetic constants |
| `Packets` | the audio and image frame encoders |
| `Base64` | RFC 4648 section 4 Base64, used to give the codec header its meaning |
| `Json` | parsed JSON objects and the org.json accessors `has`, `optInt`, `getInt`, `getBoolean`, `optString` |
| `Commands` | `Command` (a class with a mutable `seq`), its subclasses as `CommandBody`, and their serialized objects |
| `Events` | `ServerCommand` and its subclasses, and the polymorphic mapping keyed by `"command"`, with a default Jackson `ObjectMapper`'s coercions of strings to `int` and `boolean` |
| `WebSocketClient` | `onMessage(ByteBuffer)` and `onMessage(String)` as pure decisions |
| `Audio` | `AudioEngine` as a class over a `map` from stream id to decoder handle, with ghost sets of live handles |
| `Channel` | `ZelloChannel` as a class |
| `RadioBridge` | `ZelloRadioBridgeConfig` and `ZelloRadioBridge` as a class |

How the outside world is represented:

- **Socket.** A `hasSocket` flag, an `isOpen` flag, and an append-only log `sent`. Each entry is a command value (`TextFrame`) or a binary frame (`BinaryFrame`).
- **Listener.** The log `notifications`. It grows only when a listener is set.
- **Acknowledgement callbacks.** Each one is an identity; each invocation is recorded in `callbackCalls`.
- **Opus.** Each call into the native library becomes a `CodecReply` parameter: its return code and the buffer it filled.
- **Other inputs, all parameters:** the clock (`now`), the image library's reading of a JPEG (`ImageFacts`), URI parsing (`uriValid`) and JSON text parsing (`parsed`).
- **Concurrency.** Each callback and each turn of the transmission loop is one atomic step.

Java's `int` wraps on overflow, and the model writes that out. The sequence counter and the packet counter go through `Inc32`. Once the sequence counter passes `Integer.MAX_VALUE` (recorded in the ghost flag `wrapped`), the emitted seqs are no longer increasing, and `Valid()` only asserts that property before the wrap.

Behaviour of the code that the model keeps as written:

- `onClose` sets DISCONNECTED and clears none of the tables.
- `onServerCommand` has no branch for a logon result, so a failed logon changes nothing.
- `sendImage` files the pending image under one seq (`ZelloChannel.java:161-164`). `sendCommand` then stamps the command with the next seq (`ZelloChannel.java:269-270`). The server's `image_id` reply therefore carries a seq under which no image is filed.
- `connect` moves to CONNECTING before it builds the URI, so a bad URL leaves the channel in CONNECTING with no new socket.
- `disconnect` closes the audio engine every time.
  - `AudioEngine.close` destroys the encoder without remembering that it did, so a second `disconnect` destroys the encoder again (ghost `doubleDestroys`).
  - A later `sendVoiceData` uses the destroyed encoder (ghost `deadEncoderUses`).
- `startDecodingSession` for a stream id that already has a decoder overwrites the entry. The old decoder is leaked (`AudioEngine.Leaked`).
- `onMessage(ByteBuffer)` never looks at the type byte, so image frames also reach `onAudioPacket`.
- `stop()` on the bridge does not reset the gate state.
- `stop()` shuts the bridge's transmission executor down, and the executor is never replaced. A later `start()` sets the running flag and then fails when it submits the transmit loop (`RejectedExecutionException`), so the loop never runs again (`shutDown`).
- A negative `preRollFrameCount` makes the pre-roll loop remove from an empty list. That throws, and the model reports it as `failed`.
- `StopStreamCommand` declares only a no-argument constructor, while `stopVoiceStream` builds it from the stream id and the channel (`ZelloChannel.java:111`). The model follows the call site: the command carries both, serialized as `"stream_id"` and `"channel"`.

## Model

| member | source | states |
|---|---|---|
| Bytes.Wrap32 | src/main/java/io/github/ceakins/zello/ZelloChannel.java:269 | narrowing to `int` keeps the value modulo 2^32 and leaves values already in range unchanged |
| Bytes.Inc32 | src/main/java/io/github/ceakins/zello/ZelloChannel.java:269 | `getAndIncrement` adds one below `Integer.MAX_VALUE` and wraps to `Integer.MIN_VALUE` at it; the result always differs from the input |
| Bytes.ReadBigEndian32OfBigEndian32 | src/main/java/io/github/ceakins/zello/internal/ZelloWebSocketClient.java:69-73 | `getInt` in big-endian order reads back what `putInt` wrote |
| Bytes.BigEndian32OfReadBigEndian32 | src/main/java/io/github/ceakins/zello/ZelloChannel.java:298-306 | `putInt` of what `getInt` read reproduces the four bytes |
| AudioConstants.PcmBytes | src/main/java/io/github/ceakins/zello/internal/audio/AudioConstants.java:33 | a PCM buffer of n samples is 2·n·CHANNELS bytes, even and non-negative |
| AudioConstants.FrameArithmetic | src/main/java/io/github/ceakins/zello/internal/audio/AudioConstants.java:11-38 | 1000/20 = 50 frames per second, SAMPLES_PER_FRAME = 320, FRAME_SIZE_BYTES = 640, MAX_OPUS_PACKET_SIZE = 4000 |
| AudioConstants.FrameDivisionsAreExact | src/main/java/io/github/ceakins/zello/internal/audio/AudioConstants.java:11-27 | both integer divisions are exact, so SAMPLES_PER_FRAME·1000 = SAMPLE_RATE·FRAME_DURATION_MS |
| AudioConstants.MonoFrameBytes | src/main/java/io/github/ceakins/zello/internal/audio/AudioConstants.java:16-33 | CHANNELS = 1, so a frame's bytes are twice its samples |
| Packets.Frame | src/main/java/io/github/ceakins/zello/ZelloChannel.java:298-306 | a frame is 9 header bytes longer than its payload |
| Packets.AudioPacket | src/main/java/io/github/ceakins/zello/ZelloChannel.java:121-128 | the audio packet starts with type 0x01 and is 9 + \|opus\| bytes |
| Packets.ImagePacket | src/main/java/io/github/ceakins/zello/ZelloChannel.java:298-306 | the image packet starts with type 0x02 and is 9 + \|data\| bytes |
| Packets.FrameLayout | src/main/java/io/github/ceakins/zello/ZelloChannel.java:298-306 | byte 0 is the type, bytes 1..4 and 5..8 the two big-endian ints, bytes 9.. the payload |
| Base64.DecodeEncodeQuantum | src/main/java/io/github/ceakins/zello/model/commands/StartStreamCommand.java:28 | decoding the four characters of three bytes gives the three bytes back |
| Base64.DecodeEncodeOne | src/main/java/io/github/ceakins/zello/model/commands/StartStreamCommand.java:28 | one byte padded with "==" decodes to itself |
| Base64.DecodeEncodeTwo | src/main/java/io/github/ceakins/zello/model/commands/StartStreamCommand.java:28 | two bytes padded with "=" decode to themselves |
| Base64.DecodeEncode | src/main/java/io/github/ceakins/zello/model/commands/StartStreamCommand.java:23-28 | decoding the Base64 encoding of any byte string gives it back |
| Json.DigitsValueOfNatText | src/main/java/io/github/ceakins/zello/ZelloChannel.java:180 | reading a number's decimal digits gives the number |
| Json.ParseIntegerOfIntText | src/main/java/io/github/ceakins/zello/ZelloChannel.java:180 | reading the decimal text of any integer, sign included, gives the integer |
| Json.OptInt | src/main/java/io/github/ceakins/zello/ZelloChannel.java:180 | `optInt(key, default)` is the default when the key is missing or not a number, otherwise the number narrowed to an int |
| Json.GetInt | src/main/java/io/github/ceakins/zello/ZelloChannel.java:197-201 | `getInt` narrows a number to an int; a string goes through `Integer.parseInt`, so it must be decimal text of ASCII digits (a leading '+' allowed) within the int range; every other value, and a missing key, throws |
| Json.GetBoolean | src/main/java/io/github/ceakins/zello/ZelloChannel.java:188 | `getBoolean` fails on a missing key and on numbers, nulls and compound values, and returns a boolean value as it is |
| Json.OptString | src/main/java/io/github/ceakins/zello/ZelloChannel.java:190 | `optString(key, default)` is the default when the key is missing or null, and the string when it holds one |
| Json.GetIntOfNumericString | src/main/java/io/github/ceakins/zello/ZelloChannel.java:180 | a number sent as a JSON string reads as itself through `getInt` when it fits an int and throws otherwise, while `optInt` wraps it |
| Json.ParseJavaIntOfIntText | src/main/java/io/github/ceakins/zello/ZelloChannel.java:197-201 | `Integer.parseInt` of the decimal text of any integer gives that integer exactly when it lies in the int range |
| Json.ParseJavaIntAcceptsPlus | src/main/java/io/github/ceakins/zello/ZelloChannel.java:197-201 | `Integer.parseInt` accepts a leading '+' before the digits, within the int range |
| Commands.CommandNamesDistinct | src/main/java/io/github/ceakins/zello/model/commands/Command.java:15-24 | two commands share a name exactly when they are of the same kind |
| Commands.LogonCommand | src/main/java/io/github/ceakins/zello/model/commands/LogonCommand.java:22-28 | the logon command is named "logon" and copies the token, username, password and channel from the config |
| Commands.SendImageBuilder | src/main/java/io/github/ceakins/zello/model/commands/SendImageCommand.java:13-45 | the image command is named "send_image"; `source` is "library" unless the builder set it; the other fields are copied |
| Commands.Text | src/main/java/io/github/ceakins/zello/model/commands/SendTextMessageCommand.java:15-22 | a null string property is written as JSON null and only then |
| Commands.PutIfPresent | src/main/java/io/github/ceakins/zello/model/commands/LogonCommand.java:12 | under NON_NULL inclusion a null property is left out and a present one is written |
| Commands.Serialize | src/main/java/io/github/ceakins/zello/model/commands/Command.java:15-20 | every command object carries its name under "command" and its seq under "seq" |
| Commands.LogonSerialization | src/main/java/io/github/ceakins/zello/model/commands/LogonCommand.java:12-28 | the logon object has exactly the keys of the credentials that are set, the token under "auth_token", each with the config's value |
| Commands.LogonSendsEveryCredential | src/main/java/io/github/ceakins/zello/model/commands/LogonCommand.java:24-26 | with a token and a username/password all set, all three are sent; nothing chooses between them |
| Commands.StartStreamPayload | src/main/java/io/github/ceakins/zello/model/commands/StartStreamCommand.java:13-31 | the start_stream object has exactly its six keys: type "audio", codec "opus", packet_duration equal to FRAME_DURATION_MS, and the codec header |
| Commands.StartStreamDiffersOnlyInSeq | src/main/java/io/github/ceakins/zello/model/commands/StartStreamCommand.java:13-31 | two start_stream objects differ at most in "seq" |
| Commands.CodecHeaderDecodes | src/main/java/io/github/ceakins/zello/model/commands/StartStreamCommand.java:23-28 | "gD4BFA==" decodes to 0x80 0x3E 0x01 0x14: 16000 little-endian, 1 frame per packet, 20 ms |
| Commands.SendTextMessageSerialization | src/main/java/io/github/ceakins/zello/model/commands/SendTextMessageCommand.java:15-28 | the text message object is named "send_text_message" and has exactly "channel" and "text" with the given values |
| Commands.StopStreamSerialization | src/main/java/io/github/ceakins/zello/ZelloChannel.java:111 | the stop object is named "stop_stream" and has exactly "stream_id" and "channel" |
| Commands.SendImageSerialization | src/main/java/io/github/ceakins/zello/model/commands/SendImageCommand.java:15-45 | the image object has exactly its nine keys, type "jpeg", source "library" by default, and the sizes as given |
| Commands.Command.constructor | src/main/java/io/github/ceakins/zello/model/commands/Command.java:20-24 | a new command has the given name and fields and seq 0 |
| Commands.Command.SetSequence | src/main/java/io/github/ceakins/zello/model/commands/Command.java:26-28 | `setSequence` sets seq to its argument and changes nothing else, so the last value wins |
| Commands.Command.Message | src/main/java/io/github/ceakins/zello/model/commands/Command.java:15-20 | the value written to the socket is the command's fields and its current seq |
| Events.SubtypeTableIsOneToOne | src/main/java/io/github/ceakins/zello/model/events/ServerCommand.java:15-21 | the five registered names and the five event kinds correspond one to one |
| Events.UnregisteredEventNames | src/main/java/io/github/ceakins/zello/model/events/ServerCommand.java:15-21 | "on_error" and "on_image" resolve to no subtype |
| Events.IntProperty | src/main/java/io/github/ceakins/zello/model/events/ServerCommand.java:33 | an absent or null `int` property maps to 0; a number must fit in an int; a string is coerced as `IntFromText`; booleans and compound values fail the mapping |
| Events.Trim | src/main/java/io/github/ceakins/zello/internal/JsonUtils.java:14 | `String.trim()` gives a contiguous piece of the text that neither starts nor ends with a space or control character |
| Events.TrimStartRemovesBlanks | src/main/java/io/github/ceakins/zello/internal/JsonUtils.java:14 | `String.trim()` removes only spaces and control characters from the front |
| Events.TrimEndRemovesBlanks | src/main/java/io/github/ceakins/zello/internal/JsonUtils.java:14 | `String.trim()` removes only spaces and control characters from the back |
| Events.TrimOfPadded | src/main/java/io/github/ceakins/zello/internal/JsonUtils.java:14 | trimming text padded with spaces or control characters on both sides gives back the text |
| Events.IntFromText | src/main/java/io/github/ceakins/zello/internal/JsonUtils.java:14 | Jackson's `int` from a string: empty or "null" after trimming is 0; any other text maps exactly when `Integer.parseInt` reads the trimmed text, and then to that value, so unparsable text such as "abc" fails the mapping |
| Events.IntFromPaddedText | src/main/java/io/github/ceakins/zello/model/events/OnStreamStartEvent.java:21-22 | a decimal integer, padded or not and with or without a '+', maps to itself exactly when it fits in an int, so `"+7"` and `" 7 "` give 7 |
| Events.BoolFromText | src/main/java/io/github/ceakins/zello/internal/JsonUtils.java:14 | Jackson's `boolean` from a string, after trimming: true exactly for "true", "True" or "TRUE"; false exactly for "false", "False", "FALSE", empty text or "null"; any other text, such as "abc", fails the mapping |
| Events.BoolFromPaddedWord | src/main/java/io/github/ceakins/zello/model/events/LogonResultEvent.java:19 | each of the six accepted spellings of a boolean, padded or not, maps to its value |
| Events.DecodeFields | src/main/java/io/github/ceakins/zello/model/events/ServerCommand.java:14-33 | a decoded subtype carries the given discriminant and seq and is of the requested kind |
| Events.StringProperty | src/main/java/io/github/ceakins/zello/model/events/ServerCommand.java:28 | an absent or null `String` property maps to null; a JSON string maps to itself; a number or boolean maps to its text; a compound value fails the mapping |
| Events.BoolProperty | src/main/java/io/github/ceakins/zello/model/events/LogonResultEvent.java:19 | an absent or null `boolean` property maps to false; a boolean maps to itself; a number is true unless it is 0; a string is coerced as `BoolFromText`; a compound value fails the mapping |
| Events.DecodedEventKeepsDiscriminant | src/main/java/io/github/ceakins/zello/model/events/ServerCommand.java:14-28 | a decoded event keeps the "command" string, is the variant the table names for it, and is never an error or image event |
| Events.UnknownCommandIsRejected | src/main/java/io/github/ceakins/zello/model/events/ServerCommand.java:14-21 | a "command" that names no registered subtype is not mapped |
| Events.MissingSeqIsZero | src/main/java/io/github/ceakins/zello/model/events/ServerCommand.java:33 | an event without "seq" has seq 0 |
| Events.DecodeFieldsAgree | src/main/java/io/github/ceakins/zello/model/events/ServerCommand.java:13 | a subtype's fields depend only on the properties it declares |
| Events.UnknownPropertiesIgnored | src/main/java/io/github/ceakins/zello/model/events/ServerCommand.java:13 | adding or changing a property the subtype does not declare leaves the mapping's result unchanged |
| WebSocketClient.ParseBinary | src/main/java/io/github/ceakins/zello/internal/ZelloWebSocketClient.java:62-79 | a message is dropped exactly when it is shorter than 9 bytes; otherwise its payload is 9 bytes shorter than the message |
| WebSocketClient.AudioDelivery | src/main/java/io/github/ceakins/zello/internal/ZelloWebSocketClient.java:62-79 | the audio handler is called exactly when the message has at least 9 bytes |
| WebSocketClient.ParseBinaryOfFrame | src/main/java/io/github/ceakins/zello/internal/ZelloWebSocketClient.java:69-77 | parsing any frame the session engine builds recovers its type, both ints and its payload |
| WebSocketClient.FrameOfParseBinary | src/main/java/io/github/ceakins/zello/internal/ZelloWebSocketClient.java:69-77 | re-encoding a parsed message reproduces its bytes exactly |
| WebSocketClient.AudioPacketRoundTrip | src/main/java/io/github/ceakins/zello/internal/ZelloWebSocketClient.java:69-78 | the packet `sendVoiceData` writes reaches `onAudioPacket` with its stream id and opus bytes |
| WebSocketClient.ImagePacketReachesAudioHandler | src/main/java/io/github/ceakins/zello/internal/ZelloWebSocketClient.java:71-78 | an image frame is handed to `onAudioPacket` too, with the image id as stream id |
| WebSocketClient.RouteText | src/main/java/io/github/ceakins/zello/internal/ZelloWebSocketClient.java:46-59 | unparsable text goes to `onError`; an object with "command" goes to the event mapping (or to `onError` if that fails); one without it goes to `onServerResponse` |
| WebSocketClient.RoutedToResponseIff | src/main/java/io/github/ceakins/zello/internal/ZelloWebSocketClient.java:50-54 | a message reaches `onServerResponse` exactly when it parses and has no "command" property |
| WebSocketClient.RoutedToCommandOnlyWithCommandKey | src/main/java/io/github/ceakins/zello/internal/ZelloWebSocketClient.java:50-51 | a message becomes a typed event exactly when it parses, has "command" and maps to a subtype |
| Audio.DecodedPcm | src/main/java/io/github/ceakins/zello/internal/audio/AudioEngine.java:95-106 | decoding gives null exactly on a negative result, otherwise samples·CHANNELS·2 bytes (at most a frame) from the front of the codec's buffer |
| Audio.EncodedOpus | src/main/java/io/github/ceakins/zello/internal/audio/AudioEngine.java:125-134 | encoding gives null exactly on a negative result, otherwise exactly the encoded bytes, at most MAX_OPUS_PACKET_SIZE |
| Audio.AudioEngine.constructor | src/main/java/io/github/ceakins/zello/internal/audio/AudioEngine.java:29-40 | a new engine has an empty decoder table and only its encoder alive |
| Audio.AudioEngine.Destroy | src/main/java/io/github/ceakins/zello/internal/audio/AudioEngine.java:68 | destroying a handle logs it, ends its life, and counts it as a double destroy when it was not alive |
| Audio.AudioEngine.StartDecodingSession | src/main/java/io/github/ceakins/zello/internal/audio/AudioEngine.java:47-58 | on OPUS_OK a fresh decoder is filed under the stream id; on failure nothing changes; an existing decoder for that id is overwritten and leaked |
| Audio.AudioEngine.StopDecodingSession | src/main/java/io/github/ceakins/zello/internal/audio/AudioEngine.java:65-71 | a known stream's entry is removed and its decoder destroyed once; an unknown id changes nothing; no leak is added |
| Audio.AudioEngine.Decode | src/main/java/io/github/ceakins/zello/internal/audio/AudioEngine.java:80-108 | null when the stream has no decoder, otherwise the decoded PCM of the codec's answer |
| Audio.AudioEngine.Encode | src/main/java/io/github/ceakins/zello/internal/audio/AudioEngine.java:116-136 | the encoded packet of the codec's answer, at most MAX_OPUS_PACKET_SIZE bytes |
| Audio.AudioEngine.Close | src/main/java/io/github/ceakins/zello/internal/audio/AudioEngine.java:140-152 | the encoder is destroyed first, then every decoder once; the table ends empty; a second close destroys the encoder again |
| Audio.AudioEngine.DestroyEach | src/main/java/io/github/ceakins/zello/internal/audio/AudioEngine.java:147-149 | each handle of the set is destroyed exactly once, in some order |
| Audio.RemoveEntry | src/main/java/io/github/ceakins/zello/internal/audio/AudioEngine.java:66 | removing one entry of a table without shared handles removes exactly one key and its handle |
| Audio.ValuesOfInjective | src/main/java/io/github/ceakins/zello/internal/audio/AudioEngine.java:147-150 | a table without shared handles has as many handles as entries, so close destroys one handle per entry |
| Audio.EncodeDecodeLoopback | src/test/java/io/github/ceakins/zello/internal/audio/AudioEngineTest.java:37-57 | when the native decoder reports a full frame (`decodeReply.code == SAMPLES_PER_FRAME`), encoding a 640-byte zero frame and decoding it in a fresh session gives 640 bytes, and the session is gone afterwards |
| Channel.TextSequences | src/main/java/io/github/ceakins/zello/ZelloChannel.java:264-273 | the listed seqs are exactly the seqs of the commands written to the socket log |
| Channel.TextSequencesOfAppend | src/main/java/io/github/ceakins/zello/ZelloChannel.java:272-273 | writing a command adds its seq at the end; writing a binary frame adds none |
| Channel.IncreasingAfterIssue | src/main/java/io/github/ceakins/zello/ZelloChannel.java:269 | issuing the counter's value keeps the emitted seqs strictly increasing and below the counter |
| Channel.ClassifyReply | src/main/java/io/github/ceakins/zello/ZelloChannel.java:178-208 | a registered callback takes the reply exactly when its seq is present and registered; failure exactly on "error" or success=false; a stream id or image id exactly as present (the image id only with a seq) |
| Channel.FailureReturnsEarly | src/main/java/io/github/ceakins/zello/ZelloChannel.java:188-195 | a reply with "error" and no callback is a failure carrying its error text, whatever else it holds |
| Channel.StreamIdReplySetsStream | src/main/java/io/github/ceakins/zello/ZelloChannel.java:196-199 | a plain success reply with a numeric stream_id sets that outgoing stream |
| Channel.ImageIdNeedsSeq | src/main/java/io/github/ceakins/zello/ZelloChannel.java:180-207 | without a seq no callback runs and an image_id is ignored |
| Channel.ImageUpload | src/main/java/io/github/ceakins/zello/ZelloChannel.java:285-306 | the thumbnail frame (type 2) is written before the full image frame (type 1), both under the image id |
| Channel.ZelloChannel.Heard | src/main/java/io/github/ceakins/zello/ZelloChannel.java:46-57 | a listener call is recorded once when a listener is set and not at all otherwise |
| Channel.ZelloChannel.constructor | src/main/java/io/github/ceakins/zello/ZelloChannel.java:46-62 | a new channel is DISCONNECTED with seq counter 1, no outgoing stream, packet counter 0, empty tables and a fresh engine |
| Channel.ZelloChannel.SetListener | src/main/java/io/github/ceakins/zello/ZelloChannel.java:64-66 | sets whether a listener is present |
| Channel.ZelloChannel.Notify | src/main/java/io/github/ceakins/zello/ZelloChannel.java:46-57 | a listener call is recorded only when a listener is set |
| Channel.ZelloChannel.NextSequence | src/main/java/io/github/ceakins/zello/ZelloChannel.java:269 | returns the counter's value and moves it on by one, with int wrap-around |
| Channel.ZelloChannel.Connect | src/main/java/io/github/ceakins/zello/ZelloChannel.java:72-86 | outside DISCONNECTED it throws and changes nothing; otherwise CONNECTING, and a new socket only for a valid URI |
| Channel.ZelloChannel.Disconnect | src/main/java/io/github/ceakins/zello/ZelloChannel.java:88-94 | with a socket, DISCONNECTING and the socket closing; the audio engine is closed in every case |
| Channel.ZelloChannel.SendCommand | src/main/java/io/github/ceakins/zello/ZelloChannel.java:264-283 | with the socket closed nothing changes; otherwise the command is stamped with the counter, the counter rises by one, the callback is filed under that seq and the command is written |
| Channel.ZelloChannel.StartVoiceStream | src/main/java/io/github/ceakins/zello/ZelloChannel.java:96-104 | `VoiceStreamStarted`: only when CONNECTED, the packet counter restarts at 0 and start_stream goes out under the next seq while the socket is open; the stream id and callbacks are untouched |
| Channel.ZelloChannel.StopVoiceStream | src/main/java/io/github/ceakins/zello/ZelloChannel.java:106-113 | `VoiceStreamStopped`: only when CONNECTED with a stream, stop_stream for that stream goes out under the next seq while the socket is open and the stream id becomes -1; the packet counter and callbacks are untouched |
| Channel.ZelloChannel.SendVoiceData | src/main/java/io/github/ceakins/zello/ZelloChannel.java:115-132 | only when CONNECTED with a stream: when encoding gives bytes and the socket is open, exactly one audio packet is written and the packet counter rises by one |
| Channel.ZelloChannel.SendTextMessage | src/main/java/io/github/ceakins/zello/ZelloChannel.java:138-145 | only when CONNECTED: a send_text_message command with the configured channel and the text |
| Channel.ZelloChannel.SendImage | src/main/java/io/github/ceakins/zello/ZelloChannel.java:147-169 | only when CONNECTED: an unreadable image is reported; otherwise the image is filed under the seq taken here and the command goes out with the next one |
| Channel.ZelloChannel.OnOpen | src/main/java/io/github/ceakins/zello/ZelloChannel.java:171-176 | LOGGING_IN, and one logon command built from the config is sent |
| Channel.ZelloChannel.SendBinaryImageData | src/main/java/io/github/ceakins/zello/ZelloChannel.java:285-296 | with the socket open, the two image frames are written in order; otherwise nothing |
| Channel.ZelloChannel.WriteBinary | src/main/java/io/github/ceakins/zello/ZelloChannel.java:129 | `send(bytes)` adds exactly one binary frame to the log and no command seq |
| Channel.ZelloChannel.OnServerResponse | src/main/java/io/github/ceakins/zello/ZelloChannel.java:178-208 | acts as the reply classification says: the callback is removed and run once; a failure reports the error and drops the pending image; a success sets the stream and starts the upload |
| Channel.ZelloChannel.OnCommandSucceeded | src/main/java/io/github/ceakins/zello/ZelloChannel.java:196-207 | stream_id becomes the outgoing stream; image_id uploads and removes the image filed under the seq, if any |
| Channel.ZelloChannel.OnServerCommand | src/main/java/io/github/ceakins/zello/ZelloChannel.java:210-235 | "online" status connects and notifies; text, stream, error and image events go to the listener; a logon result or other status changes nothing; a stream start opens a decoding session and records the sender |
| Channel.ZelloChannel.OnAudioPacket | src/main/java/io/github/ceakins/zello/ZelloChannel.java:237-243 | the decoded PCM goes to the listener; nothing when there is no decoder or decoding fails |
| Channel.ZelloChannel.OnClose | src/main/java/io/github/ceakins/zello/ZelloChannel.java:245-251 | DISCONNECTED and the listener is told the reason; no table changes |
| Channel.ZelloChannel.OnError | src/main/java/io/github/ceakins/zello/ZelloChannel.java:253-258 | the message is passed to the listener |
| Channel.ZelloChannel.TransportOpened | src/main/java/io/github/ceakins/zello/internal/ZelloWebSocketClient.java:39-43 | the open socket triggers `onOpen`: LOGGING_IN and exactly one logon command with the current seq |
| Channel.ZelloChannel.TransportClosed | src/main/java/io/github/ceakins/zello/internal/ZelloWebSocketClient.java:81-86 | the reason is forwarded unchanged to `onClose` |
| Channel.ZelloChannel.TransportError | src/main/java/io/github/ceakins/zello/internal/ZelloWebSocketClient.java:88-92 | a transport error is reported to the listener |
| Channel.ZelloChannel.ReceiveBinary | src/main/java/io/github/ceakins/zello/internal/ZelloWebSocketClient.java:61-79 | under 9 bytes nothing happens; otherwise `onAudioPacket` runs with the frame's stream id and payload |
| Channel.ZelloChannel.ReceiveText | src/main/java/io/github/ceakins/zello/internal/ZelloWebSocketClient.java:45-59 | text that is not a JSON object, or a "command" object that does not decode as an event, only adds a parse-failure report; an object without "command" is a reply with exactly the effect `ReplyHandled` states, and a decoded event has exactly the effect `EventHandled` states |
| Channel.ZelloChannel.HandleResponse | src/main/java/io/github/ceakins/zello/internal/ZelloWebSocketClient.java:53-57 | `ReplyHandled`: a callback for the seq is removed and run with the reply; a failed reply is reported and its pending image dropped; a successful reply sets the outgoing stream and uploads the pending image; a malformed reply still sets a stream id read before the exception and is reported as a parse failure; the connection state, stream table and codecs are untouched |
| Channel.ZelloChannel.HandleCommand | src/main/java/io/github/ceakins/zello/internal/ZelloWebSocketClient.java:50-57 | `EventHandled`: "online" connects and notifies; text, error and image events are passed to the listener; a stream start records the sender, opens a decoder when the native create succeeds and notifies; a stream stop removes the stream and its decoder and notifies with the sender it had; a stream start without a sender only adds a parse-failure report; the socket log and reply tables are untouched |
| RadioBridge.BuildConfig | src/main/java/io/github/ceakins/zello/ZelloRadioBridgeConfig.java:9-41 | each field takes its default unless set, and nothing is checked |
| RadioBridge.DefaultConfig | src/main/java/io/github/ceakins/zello/ZelloRadioBridgeConfig.java:13-39 | defaults 0.05, 0.03, 10000 ms and 10 frames: close below open, 10 frames of 20 ms are 200 ms |
| RadioBridge.Sample | src/main/java/io/github/ceakins/zello/ZelloRadioBridge.java:162-164 | a sample is the signed 16-bit little-endian value of its two bytes |
| RadioBridge.SampleSquareBound | src/main/java/io/github/ceakins/zello/ZelloRadioBridge.java:165 | a sample squares to at most 32768² |
| RadioBridge.SquareSumBounds | src/main/java/io/github/ceakins/zello/ZelloRadioBridge.java:161-166 | the sum of squares is non-negative and at most n·32768², so the long accumulator cannot overflow |
| RadioBridge.SilenceSumsToZero | src/main/java/io/github/ceakins/zello/ZelloRadioBridge.java:161-166 | an all-zero frame sums to zero |
| RadioBridge.LoudnessOf | src/main/java/io/github/ceakins/zello/ZelloRadioBridge.java:163-167 | the loudness is NaN exactly when the frame holds no whole sample |
| RadioBridge.CalculateRms | src/main/java/io/github/ceakins/zello/ZelloRadioBridge.java:160-169 | the loop computes the frame's loudness, with the sum inside the full-scale bound |
| RadioBridge.OpenLevelHoldsGate | src/main/java/io/github/ceakins/zello/ZelloRadioBridgeConfig.java:20-24 | a frame loud enough to open the gate keeps it open when the close level is not above the open level |
| RadioBridge.SilenceNeverOpens | src/main/java/io/github/ceakins/zello/ZelloRadioBridge.java:105-106 | digital silence never exceeds a non-negative threshold |
| RadioBridge.Newest | src/main/java/io/github/ceakins/zello/ZelloRadioBridge.java:97-100 | the newest n frames, oldest first, are a suffix of length min(n, count) |
| RadioBridge.NewestOfAppend | src/main/java/io/github/ceakins/zello/ZelloRadioBridge.java:96-100 | trimming after each arrival equals trimming the whole history once |
| RadioBridge.ZelloRadioBridge.constructor | src/main/java/io/github/ceakins/zello/ZelloRadioBridge.java:31-54 | a new bridge is stopped and LISTENING with empty pre-roll and queue |
| RadioBridge.ZelloRadioBridge.Start | src/main/java/io/github/ceakins/zello/ZelloRadioBridge.java:59-68 | sets the running flag; when already running nothing changes; otherwise the submission is rejected exactly when `stop()` has shut the executor down |
| RadioBridge.ZelloRadioBridge.Stop | src/main/java/io/github/ceakins/zello/ZelloRadioBridge.java:73-82 | clears the running flag and shuts the executor down; the channel goes through `VoiceStreamStopped` when CONNECTED and TRANSMITTING and is otherwise untouched (`VoiceStreamKept`); the gate state is kept |
| RadioBridge.ZelloRadioBridge.KeepPreRoll | src/main/java/io/github/ceakins/zello/ZelloRadioBridge.java:96-100 | the pre-roll becomes the newest preRollFrameCount frames; a negative count empties it and throws |
| RadioBridge.ZelloRadioBridge.OpenGate | src/main/java/io/github/ceakins/zello/ZelloRadioBridge.java:109-117 | TRANSMITTING, the channel goes through `startVoiceStream` (`VoiceStreamStarted`), and the whole pre-roll moved to the queue in order |
| RadioBridge.ZelloRadioBridge.CloseGate | src/main/java/io/github/ceakins/zello/ZelloRadioBridge.java:129-131 | LISTENING, the channel goes through `stopVoiceStream` (`VoiceStreamStopped`), and the queue emptied |
| RadioBridge.ZelloRadioBridge.ApplyVox | src/main/java/io/github/ceakins/zello/ZelloRadioBridge.java:105-134 | `VoxApplied`: listening opens only above the open level; transmitting queues every frame, renews the time above the close level, and closes only when the silence is strictly longer than the hang time; the channel's stream starts on opening, stops on closing, and is otherwise untouched |
| RadioBridge.ZelloRadioBridge.ProcessIncomingAudio | src/main/java/io/github/ceakins/zello/ZelloRadioBridge.java:88-135 | nothing, on the bridge or the channel, while stopped; otherwise the pre-roll keeps the newest frames and the gate step `VoxApplied` runs from it on the frame's loudness, with the channel's stream started on opening and stopped on closing |
| RadioBridge.ZelloRadioBridge.TransmitStep | src/main/java/io/github/ceakins/zello/ZelloRadioBridge.java:141-154 | while running and before the executor is shut down, the oldest queued frame is taken; when CONNECTED it is encoded and, with a stream and an open socket, written as the next audio packet with the packet id advanced by one (wrapping), and a use of a destroyed encoder is counted; otherwise nothing is sent and the packet id stays |

## Left out

- Logging throughout, and the handshake logging of the WebSocket client.
- The WebSocket transport itself (handshake, framing, `WebSocketClientFactory`): the socket is a pair of flags and a log.
- Threads and memory visibility: `volatile` fields, the atomic counter, concurrent maps, the executor, and the blocking queue. Each callback is one atomic step, and `transmitLoop` is one turn per call (`TransmitStep`). A `take` on an empty queue blocks, which is modelled as a step that changes nothing.
- The native Opus library. Every create, encode and decode call is a `CodecReply` parameter. Memory-stack allocation and copying are not modelled.
- Audio.AudioEngine.constructor: does not model the `IllegalStateException` thrown when the encoder cannot be created.
- The clock: `System.currentTimeMillis()` is the `now` parameter.
- Jackson text serialization and parsing (`JsonUtils`). Commands become the JSON objects they are written as (`Commands.Serialize`). Incoming text is the already-parsed object (`parsed`). A serialization failure in `sendCommand` is not modelled.
- Channel.ZelloChannel.SendImage: ImageIO decoding and `createThumbnail` are the `facts` parameter; `None` stands for an `IOException` from either, which is the only exception the method catches and reports. A runtime exception that escapes instead (for example the `IllegalArgumentException` when the thumbnail height rounds to zero for a very wide image) is not modelled: it would leave the method without reaching the listener.
- Events.IntProperty: JSON numbers are integral here, so Jackson's truncation of a fractional number into an `int` (`ACCEPT_FLOAT_AS_INT`, on by default) is not modelled.
- Events.IntProperty: only ASCII digits are modelled. `Integer.parseInt` also reads the other Unicode decimal digits (through `Character.digit`), so a string such as "٧" maps to 7 in Java but fails here.
- Events.BoolProperty: the coercions are those of a default `ObjectMapper` of Jackson 2.12 or later; the Jackson version is not part of this model, and older releases accept fewer spellings (not "TRUE" or "FALSE").
- Json.OptInt: JSON numbers are integral here; org.json's narrowing of a fractional or exponent number (truncation through `intValue`) is not modelled.
- Json.GetInt: fractional and exponent numbers are not modelled, for the same reason; `Number.intValue` truncates them.
- Json.GetInt: only ASCII digits are modelled. `Integer.parseInt` also reads the other Unicode decimal digits, so a `stream_id` of "٧" reads as 7 in Java, while here it throws and the reply counts as malformed.
- Json.OptInt: only ASCII digits are modelled. org.json's `new BigInteger` also reads the other Unicode decimal digits, so "-٧" gives -7 in Java, while here it gives the default.
- Channel.ZelloChannel.Connect: URI syntax is the `uriValid` parameter.
- Channel.ZelloChannel.OnError: the `Throwable` argument is not modelled; only the message reaches the listener.
- Channel.ZelloChannel.OnServerCommand: `onImageEvent` is modelled as an `ImageReceived` notification on the listener.
- The `users` list of a channel status event (`ChannelUser`) is not decoded. The mapping still counts it as a declared property.
- RadioBridge.CalculateRms: stops before the floating-point division and square root. `Exceeds` compares the exact sum of squares with the threshold instead. The `double` rounding of the mean and of the root is not modelled. A frame without whole samples gives NaN, which exceeds nothing.
- RadioBridge.ZelloRadioBridge.ApplyVox: the `long` subtraction `now - lastSoundTime` is unbounded here; it cannot overflow for real clock values.
- RadioBridge.ZelloRadioBridge.ProcessIncomingAudio: the copy made with `pcmData.clone()` is implicit, because frames are values.
- The microphone capture (`AudioInputManager`), audio output, the example programs and the integration tests: device, console and network I/O.
- RadioBridge.ZelloRadioBridge.Start: starting and stopping the microphone is not modelled. Frames reach `ProcessIncomingAudio` only when its caller delivers them, so the model does not capture that no frames arrive after a rejected restart, even though the running flag is set.
- The unused `MAX_IMAGE_PACKET_SIZE` of `ZelloChannel`: nothing splits images into chunks.
