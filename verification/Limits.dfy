/** The scheduler's fixed sizes. */
module Limits {
  const CHUNK_SIZE: nat := 32
  const MAILBOX_CAPACITY: nat := 65_536
  const LOCAL_QUEUE_CAPACITY: nat := 131_072
  const LOCAL_QUEUE_HIGH_WATERMARK: nat := LOCAL_QUEUE_CAPACITY - LOCAL_QUEUE_CAPACITY / 8
  const WAREHOUSE_CAPACITY: nat := 32_768
  /** u8::MAX, the hop count of a chunk that must not be deflected any more. */
  const HOPS_EXHAUSTED: nat := 255
}
