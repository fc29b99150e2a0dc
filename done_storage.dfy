/**
 * The per-user map of tasks done per date (src/utils/doneStorage.js), kept in
 * AsyncStorage under "doneTasksByDate:" followed by the username.
 */
module DoneStorage {
  import opened Results
  import opened Text
  import opened DeviceStorage

  const Prefix := "doneTasksByDate:"

  datatype StorageError = UsernameRequired

  /** `getKey`: rejects a missing or empty username (`!username`). */
  function GetKey(username: Option<string>): (r: Result<string, StorageError>)
    ensures r.Failure? <==> username.None? || username.value == ""
    ensures r.Success? ==> |r.value| == |Prefix| + |username.value| && r.value[..|Prefix|] == Prefix && r.value[|Prefix|..] == username.value
  {
    if username.None? || username.value == "" then Failure(UsernameRequired) else Success(Prefix + username.value)
  }

  /** Different users never share a storage key. */
  lemma GetKeyInjective(u: Option<string>, v: Option<string>)
    requires GetKey(u).Success? && GetKey(v).Success?
    ensures GetKey(u) == GetKey(v) ==> u == v
  {
    if GetKey(u) == GetKey(v) {
      assert u.value == GetKey(u).value[|Prefix|..];
    }
  }

  /** What `readMap` decodes from the records: an absent key is the empty map. */
  function StoredMap(records: map<string, DoneMap>, key: string): DoneMap {
    if key in records then records[key] else map[]
  }

  /** `map[day] || []`: a date without an entry has no tasks. */
  function Listed(m: DoneMap, day: string): seq<string> {
    if day in m then m[day] else []
  }

  /**
   * `Array.from(new Set(xs))`: each string once, at the place it first occurs.
   */
  function Dedup(xs: seq<string>): (r: seq<string>)
    ensures NoDups(r)
    ensures forall x :: x in r <==> x in xs
    decreases |xs|
  {
    if xs == [] then []
    else
      var d := Dedup(xs[..|xs| - 1]);
      if xs[|xs| - 1] in d then d else d + [xs[|xs| - 1]]
  }

  /** A list that is already duplicate-free is kept as it is. */
  lemma {:induction false} DedupOfNoDups(xs: seq<string>)
    requires NoDups(xs)
    ensures Dedup(xs) == xs
    decreases |xs|
  {
    if xs != [] {
      DedupOfNoDups(xs[..|xs| - 1]);
    }
  }

  /**
   * Adding a task to a duplicate-free list keeps the existing entries in order
   * and puts that task at the end unless it is already there.
   */
  lemma DedupSnoc(xs: seq<string>, task: string)
    requires NoDups(xs)
    ensures Dedup(xs + [task]) == if task in xs then xs else xs + [task]
  {
    assert (xs + [task])[..|xs|] == xs;
    DedupOfNoDups(xs);
  }

  /** Line 36: the new map after marking `task` done on `day`. */
  function WithDone(m: DoneMap, day: string, task: string): DoneMap {
    m[day := Dedup(Listed(m, day) + [task])]
  }

  /** That task is listed afterwards, the date's list has no duplicates, other dates are untouched. */
  lemma WithDoneListed(m: DoneMap, day: string, task: string)
    ensures task in Listed(WithDone(m, day, task), day)
    ensures NoDups(Listed(WithDone(m, day, task), day))
    ensures forall t :: t in Listed(WithDone(m, day, task), day) <==> t in Listed(m, day) || t == task
    ensures forall d :: d != day ==> Listed(WithDone(m, day, task), d) == Listed(m, d)
  {
  }

  /** Marking the same task done twice on the same date is the same as once. */
  lemma WithDoneIdempotent(m: DoneMap, day: string, task: string)
    ensures WithDone(WithDone(m, day, task), day, task) == WithDone(m, day, task)
  {
    var once := Listed(WithDone(m, day, task), day);
    WithDoneListed(m, day, task);
    DedupSnoc(once, task);
  }

  /** `readMap(username)`. */
  method ReadMap(store: AsyncStorage, username: Option<string>) returns (r: Result<DoneMap, StorageError>)
    ensures r.Failure? <==> GetKey(username).Failure?
    ensures r.Success? ==> r.value == StoredMap(store.records, GetKey(username).value)
  {
    var key := GetKey(username);
    if key.Failure? {
      return Failure(key.error);
    }
    var raw := store.GetRecord(key.value);
    r := Success(if raw.Some? then raw.value else map[]);
  }

  /** `writeMap(map, username)`. */
  method WriteMap(store: AsyncStorage, m: DoneMap, username: Option<string>) returns (r: Result<(), StorageError>)
    modifies store
    ensures r.Failure? <==> GetKey(username).Failure?
    ensures r.Failure? ==> unchanged(store)
    ensures r.Success? ==> store.records == old(store.records)[GetKey(username).value := m]
    ensures store.texts == old(store.texts)
  {
    var key := GetKey(username);
    if key.Failure? {
      return Failure(key.error);
    }
    store.SetRecord(key.value, m);
    r := Success(());
  }

  /** A map written for a user is what is read back for that user. */
  method WriteThenRead(store: AsyncStorage, m: DoneMap, username: Option<string>) returns (back: Result<DoneMap, StorageError>)
    modifies store
    ensures GetKey(username).Success? ==> back == Success(m)
    ensures GetKey(username).Failure? ==> back.Failure? && unchanged(store)
  {
    var written := WriteMap(store, m, username);
    back := ReadMap(store, username);
  }

  /**
   * `addDone(task, username, dateIso)`. `today` is the UTC date of the device
   * clock, used when `dateIso` is missing or empty.
   */
  method AddDone(store: AsyncStorage, task: string, username: Option<string>, dateIso: Option<string>, today: string)
    returns (r: Result<(), StorageError>)
    modifies store
    ensures r.Failure? <==> GetKey(username).Failure?
    ensures r.Failure? ==> unchanged(store)
    ensures r.Success? ==>
              var key := GetKey(username).value;
              var day := if dateIso.Some? && dateIso.value != "" then dateIso.value else today;
              store.records == old(store.records)[key := WithDone(StoredMap(old(store.records), key), day, task)]
    ensures store.texts == old(store.texts)
  {
    var read := ReadMap(store, username);
    if read.Failure? {
      return Failure(read.error);
    }
    var m := read.value;
    var day := if dateIso.Some? && dateIso.value != "" then dateIso.value else today;
    m := m[day := Dedup(Listed(m, day) + [task])];
    r := WriteMap(store, m, username);
  }

  /** `listDone(dateIso, username)`. */
  method ListDone(store: AsyncStorage, dateIso: string, username: Option<string>) returns (r: Result<seq<string>, StorageError>)
    ensures r.Failure? <==> GetKey(username).Failure?
    ensures r.Success? ==> r.value == Listed(StoredMap(store.records, GetKey(username).value), dateIso)
  {
    var read := ReadMap(store, username);
    if read.Failure? {
      return Failure(read.error);
    }
    r := Success(Listed(read.value, dateIso));
  }

  /** After `addDone(task, u, d)`, `listDone(d, u)` holds `task`, and other users' maps are as they were. */
  method AddThenList(store: AsyncStorage, task: string, username: Option<string>, day: string)
    returns (listed: Result<seq<string>, StorageError>)
    modifies store
    requires day != ""
    ensures listed.Success? <==> GetKey(username).Success?
    ensures listed.Success? ==> task in listed.value && NoDups(listed.value)
    ensures forall other :: GetKey(other).Success? && other != username ==>
              StoredMap(store.records, GetKey(other).value) == StoredMap(old(store.records), GetKey(other).value)
  {
    var added := AddDone(store, task, username, Some(day), day);
    listed := ListDone(store, day, username);
    if listed.Success? {
      WithDoneListed(StoredMap(old(store.records), GetKey(username).value), day, task);
    }
    forall other | GetKey(other).Success? && other != username
      ensures StoredMap(store.records, GetKey(other).value) == StoredMap(old(store.records), GetKey(other).value)
    {
      if GetKey(username).Success? {
        GetKeyInjective(other, username);
      }
    }
  }
}
