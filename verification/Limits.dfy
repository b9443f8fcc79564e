/** Sizes both ends of the socket agree on. */
module Limits {
  const MAX_FRAME_SIZE: nat := 4 * 1024 * 1024
  const CHUNK_JSON_BUDGET: nat := MAX_FRAME_SIZE - 64 * 1024
}
