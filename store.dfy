/**
 * The snapshot store as the service uses it: one append-only list of
 * snapshots per (URL-encoded) key, appended to with `rpush` and read whole
 * with `lrange(key, 0, -1)`.
 */
module Store {
  import opened Har

  class Store {
    var lists: map<string, seq<Har>>

    constructor ()
      ensures lists == map[]
    {
      lists := map[];
    }

    /** `lrange(key, 0, -1)`: every snapshot appended under `key`, oldest first. */
    function LRange(key: string): seq<Har>
      reads this
    {
      if key in lists then lists[key] else []
    }

    /** `rpush(key, h)`: append `h` under `key`; no other list changes. */
    method RPush(key: string, h: Har)
      modifies this
      ensures LRange(key) == old(LRange(key)) + [h]
      ensures forall k :: k != key ==> LRange(k) == old(LRange(k))
      ensures forall k :: old(LRange(k)) <= LRange(k)
    {
      lists := lists[key := LRange(key) + [h]];
    }
  }
}
