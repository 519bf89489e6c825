/** Pages and remembered ids, as every source that polls with SOQL has them. */
module Windows {
  const PAGE_LIMIT: nat := 200
  const MAX_CARRIED_IDS: nat := 500

  /** The newest ids, up to the limit. */
  function Tail<T>(ids: seq<T>): seq<T> {
    if |ids| > MAX_CARRIED_IDS then ids[|ids| - MAX_CARRIED_IDS..] else ids
  }
}
