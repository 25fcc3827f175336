/**
 * The binary frames ZelloChannel writes to the socket: a type byte, two
 * big-endian ints and the payload (ZelloChannel.sendVoiceData and
 * ZelloChannel.createImagePacket).
 */
module Packets {
  import opened Bytes

  const HEADER_SIZE: int := 9
  /** Type byte of an audio packet: (streamId, packetId, opus bytes). */
  const AUDIO_PACKET: byte := 0x01
  /** Type byte of an image packet: (imageId, imageType, jpeg bytes). */
  const IMAGE_PACKET: byte := 0x02
  const IMAGE_TYPE_FULL: Int32 := 0x01
  const IMAGE_TYPE_THUMBNAIL: Int32 := 0x02

  /** A 9-byte header followed by the payload, as one ByteBuffer of 9 + |payload| bytes. */
  function Frame(kind: byte, id: Int32, field: Int32, payload: seq<byte>): (bs: seq<byte>)
    ensures |bs| == HEADER_SIZE + |payload|
  {
    [kind] + BigEndian32(id) + BigEndian32(field) + payload
  }

  /** The audio packet sendVoiceData writes: 0x01, stream id, packet id, encoded audio. */
  function AudioPacket(streamId: Int32, packetId: Int32, opus: seq<byte>): (bs: seq<byte>)
    ensures |bs| == HEADER_SIZE + |opus|
    ensures bs[0] == AUDIO_PACKET
  {
    Frame(AUDIO_PACKET, streamId, packetId, opus)
  }

  /** The image packet createImagePacket builds: 0x02, image id, image type, data. */
  function ImagePacket(imageId: Int32, imageType: Int32, data: seq<byte>): (bs: seq<byte>)
    ensures |bs| == HEADER_SIZE + |data|
    ensures bs[0] == IMAGE_PACKET
  {
    Frame(IMAGE_PACKET, imageId, imageType, data)
  }

  /** Byte by byte: the header fields sit at offsets 0, 1..4 and 5..8, the payload from 9 on. */
  lemma FrameLayout(kind: byte, id: Int32, field: Int32, payload: seq<byte>)
    ensures var bs := Frame(kind, id, field, payload);
      && bs[0] == kind
      && bs[1..5] == BigEndian32(id)
      && bs[5..9] == BigEndian32(field)
      && bs[9..] == payload
  {
    var bs := Frame(kind, id, field, payload);
    assert bs == [kind] + BigEndian32(id) + BigEndian32(field) + payload;
  }
}
