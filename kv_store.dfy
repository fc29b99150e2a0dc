/**
 * The shared key-value store (Vercel KV) as seen by the two edge handlers.
 * Each key holds one kind of value, so the store is three maps: JSON arrays of
 * strings, numbers, and Redis sets. `expiry` records the `ex` (seconds) passed
 * with the last `set` of a key; expiry itself is not modelled.
 */
module KvStore {
  import opened Results

  class Kv {
    var lists: map<string, seq<string>>
    var numbers: map<string, int>
    var sets: map<string, set<string>>
    var expiry: map<string, nat>

    constructor ()
      ensures lists == map[] && numbers == map[] && sets == map[] && expiry == map[]
    {
      lists, numbers, sets, expiry := map[], map[], map[], map[];
    }

    /** The members of the set at `key`; a missing set is empty. */
    function Members(key: string): set<string>
      reads this
    {
      if key in sets then sets[key] else {}
    }

    /** `kv.get(key)` of an array: `null` when the key is missing. */
    method GetList(key: string) returns (v: Option<seq<string>>)
      ensures v == if key in lists then Some(lists[key]) else None
    {
      v := if key in lists then Some(lists[key]) else None;
    }

    /** `Number(await kv.get(key))`: a missing key reads as `null`, which converts to 0. */
    method GetNumber(key: string) returns (n: int)
      ensures n == if key in numbers then numbers[key] else 0
    {
      n := if key in numbers then numbers[key] else 0;
    }

    /** `kv.set(key, value, { ex })` of an array. */
    method SetList(key: string, value: seq<string>, ex: nat)
      modifies this
      ensures lists == old(lists)[key := value] && expiry == old(expiry)[key := ex]
      ensures numbers == old(numbers) && sets == old(sets)
    {
      lists := lists[key := value];
      expiry := expiry[key := ex];
    }

    /** `kv.set(key, value, { ex })` of a number. */
    method SetNumber(key: string, value: int, ex: nat)
      modifies this
      ensures numbers == old(numbers)[key := value] && expiry == old(expiry)[key := ex]
      ensures lists == old(lists) && sets == old(sets)
    {
      numbers := numbers[key := value];
      expiry := expiry[key := ex];
    }

    /** `kv.sismember(key, member)`. */
    method IsMember(key: string, member: string) returns (b: bool)
      ensures b == (member in Members(key))
    {
      b := member in Members(key);
    }

    /** `kv.sadd(key, member)`. */
    method Add(key: string, member: string)
      modifies this
      ensures sets == old(sets)[key := old(Members(key)) + {member}]
      ensures Members(key) == old(Members(key)) + {member}
      ensures lists == old(lists) && numbers == old(numbers) && expiry == old(expiry)
    {
      sets := sets[key := Members(key) + {member}];
    }
  }
}
