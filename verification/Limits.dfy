/** Sizes the whole program agrees on. */
module Limits {
  import opened Bytes

  const MAX_PACKET := 4 * 1024 * 1024
  const MAX_PLAIN_PADDING := 256
  const MAX_PADDED_PACKET := MAX_PACKET + MAX_PLAIN_PADDING
  const MAX_LANE_REPLY_BYTES := 32 * 1024 * 1024
  const MAX_CHANNEL_REPLY_BYTES := 8 * 1024 * 1024
  const ZERO_KEY: seq<byte> := [0, 0, 0, 0, 0, 0, 0, 0]
}
