/** The record kept for every big allocation, keyed by its payload address. */
module BigMeta {
  /** `BigAllocMeta` without its `next` field, which the source always leaves null. */
  datatype BigAllocMeta = BigAllocMeta(size: nat, order: nat, buddyRegion: nat, aligned: bool)
}
