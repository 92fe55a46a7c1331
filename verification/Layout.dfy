/** Sizes that several parts of the allocator share. */
module Layout {
  /** The header in front of a payload. */
  const HEADER: nat := 16
  /** The metadata in front of the blocks of a span. */
  const METADATA: nat := 48
  const PAGE: nat := 4096
  /** The largest slab size; larger requests are big. */
  const SLAB_MAX: nat := 0x20_0000
  /** Words have 64 bits. */
  const WRAP: nat := 0x1_0000_0000_0000_0000
}
