/**
 * The fixed audio parameters of the protocol: 16 kHz, mono, 16-bit PCM in
 * 20 ms frames, and the buffer size given to the Opus encoder.
 */
module AudioConstants {

  const SAMPLE_RATE: int := 16000
  const CHANNELS: int := 1
  const FRAME_DURATION_MS: int := 20
  /** Both divisions are Java int divisions of positive numbers, so truncation and Dafny's division agree. */
  const SAMPLES_PER_FRAME: int := SAMPLE_RATE / (1000 / FRAME_DURATION_MS)
  const FRAME_SIZE_BYTES: int := SAMPLES_PER_FRAME * CHANNELS * 2
  const MAX_OPUS_PACKET_SIZE: int := 4000

  /** Bytes of 16-bit PCM holding the given number of samples per channel. */
  function PcmBytes(samples: int): (n: int)
    ensures samples >= 0 ==> n >= 0 && n % 2 == 0
    ensures n == 2 * samples * CHANNELS
  {
    samples * CHANNELS * 2
  }

  /** One frame is 320 samples of 640 bytes, 1000 / 20 = 50 frames per second. */
  lemma FrameArithmetic()
    ensures 1000 / FRAME_DURATION_MS == 50
    ensures SAMPLES_PER_FRAME == 320
    ensures FRAME_SIZE_BYTES == 640
    ensures PcmBytes(SAMPLES_PER_FRAME) == FRAME_SIZE_BYTES
    ensures MAX_OPUS_PACKET_SIZE == 4000
  {
  }

  /** Neither integer division loses anything: a frame is exactly 20 ms of samples. */
  lemma FrameDivisionsAreExact()
    ensures 1000 % FRAME_DURATION_MS == 0
    ensures SAMPLE_RATE % (1000 / FRAME_DURATION_MS) == 0
    ensures SAMPLES_PER_FRAME * 1000 == SAMPLE_RATE * FRAME_DURATION_MS
  {
  }

  /** Mono audio: a frame's byte length is twice its sample count. */
  lemma MonoFrameBytes()
    ensures CHANNELS == 1
    ensures FRAME_SIZE_BYTES == 2 * SAMPLES_PER_FRAME
  {
  }
}
