/**
 * The once-per-day random pick (dailyRandom.js): the first pick of a date is
 * kept in AsyncStorage under "randomTask:" followed by the date and returned
 * on every later call for that date.
 */
module DailyRandom {
  import opened Results
  import opened DeviceStorage

  const Prefix := "randomTask:"

  function PickKey(dateIso: string): string {
    Prefix + dateIso
  }

  /** `if (stored)`: a missing entry and the empty string both count as no pick yet. */
  function StoredPick(texts: map<string, string>, dateIso: string): Option<string> {
    if PickKey(dateIso) in texts && texts[PickKey(dateIso)] != "" then Some(texts[PickKey(dateIso)]) else None
  }

  lemma PickKeyInjective(d: string, e: string)
    ensures PickKey(d) == PickKey(e) ==> d == e
  {
    if PickKey(d) == PickKey(e) {
      assert d == PickKey(d)[|Prefix|..];
    }
  }

  /**
   * `fetchDailyRandomTask(tasks, dateIso)`. `Math.random` is a choice of an
   * index in range that the caller cannot control.
   */
  method FetchDailyRandomTask(store: AsyncStorage, tasks: Option<seq<string>>, dateIso: string) returns (r: Option<string>)
    modifies store
    ensures tasks.None? || tasks.value == [] ==> r.None? && unchanged(store)
    ensures tasks.Some? && tasks.value != [] && StoredPick(old(store.texts), dateIso).Some? ==>
              r == StoredPick(old(store.texts), dateIso) && unchanged(store)
    ensures tasks.Some? && tasks.value != [] && StoredPick(old(store.texts), dateIso).None? ==>
              && r.Some? && r.value in tasks.value
              && store.texts == old(store.texts)[PickKey(dateIso) := r.value]
              && store.records == old(store.records)
  {
    if tasks.None? || |tasks.value| == 0 {
      return None;
    }
    var key := PickKey(dateIso);
    var stored := store.GetItem(key);
    if stored.Some? && stored.value != "" {
      return stored;
    }
    var idx :| 0 <= idx < |tasks.value|;
    var choice := tasks.value[idx];
    store.SetItem(key, choice);
    r := Some(choice);
  }

  /**
   * Two calls for the same date give the same task, provided the pick is not
   * the empty string (which reads back as no pick); picks of other dates are
   * left alone.
   */
  method OncePerDay(store: AsyncStorage, tasks: seq<string>, dateIso: string) returns (first: Option<string>, second: Option<string>)
    modifies store
    requires tasks != []
    ensures first.Some? && (first == StoredPick(old(store.texts), dateIso) || first.value in tasks)
    ensures first.value != "" ==> second == first
    ensures forall d :: d != dateIso ==> StoredPick(store.texts, d) == StoredPick(old(store.texts), d)
  {
    first := FetchDailyRandomTask(store, Some(tasks), dateIso);
    second := FetchDailyRandomTask(store, Some(tasks), dateIso);
    forall d | d != dateIso
      ensures StoredPick(store.texts, d) == StoredPick(old(store.texts), d)
    {
      PickKeyInjective(d, dateIso);
    }
  }
}
