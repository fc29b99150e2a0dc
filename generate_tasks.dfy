/**
 * The master-list builder behind `POST /generate` (generate-tasks.js).
 *
 * The text provider is a `Generator` whose answers are a script consumed one
 * per request; any provider behaviour is some script. The shared store is a
 * `KvStore.Kv`. Clock readings are epoch-millisecond parameters.
 */
module GenerateTasks {
  import opened Results
  import opened Text
  import opened KvStore

  const MaxWords := 15
  const MaxAttempts := 3
  const MaxRounds := 5
  /** At most `MaxRounds` rounds of at most `MaxAttempts` requests each. */
  const MaxRequests := 15
  const DefaultCount := 50
  const MaxCount := 50
  const SixDaysSeconds := 6 * 24 * 60 * 60
  const FiveDaysMs := 5 * 24 * 60 * 60 * 1000
  const HistoryKey := "task-history"

  // ---------------------------------------------------------------- canon

  /** `canon`: the identity of a task for every uniqueness check. */
  function Canon(s: string): string {
    Lower(Trim(s))
  }

  /** A canonical form has no surrounding whitespace and no upper-case letter, and is no longer than its input. */
  lemma CanonShape(s: string)
    ensures Trimmed(Canon(s)) && NoUpper(Canon(s)) && |Canon(s)| <= |s|
  {
    TrimShape(s);
    TrimLower(s);
  }

  lemma CanonIdempotent(s: string)
    ensures Canon(Canon(s)) == Canon(s)
  {
    TrimShape(s);
    TrimLower(Trim(s));
    TrimOfTrimmed(Trim(s));
    LowerIdempotent(Trim(s));
  }

  /** The canonical forms of a list of tasks. */
  function CanonSet(ts: seq<string>): set<string> {
    set t | t in ts :: Canon(t)
  }

  predicate CanonDistinct(ts: seq<string>) {
    forall i, j :: 0 <= i < j < |ts| ==> Canon(ts[i]) != Canon(ts[j])
  }

  // ------------------------------------------------------- validateTasks

  /** An element of the parsed `tasks` value: a string or some other JSON value. */
  datatype Item = Str(text: string) | NotText

  /** The parsed `tasks` value: an array, or anything else (including a missing key). */
  datatype Reply = Array(items: seq<Item>) | NotArray

  datatype SchemaError =
    | NotAnArray
    | WrongLength(expected: nat, got: nat)
    | NotAString(at: nat)
    | TooManyWords(at: nat)
    | Duplicate(at: nat)

  /** `t.split(/\s+/).length`. */
  function WordCount(s: string): nat {
    |Pieces(s)|
  }

  /**
   * `split(/\s+/)` counts pieces, not words: fifteen words behind a leading
   * space make sixteen pieces, so such an item is rejected as too long.
   */
  lemma IndentedWordsCountOneMore(words: seq<string>)
    requires |words| >= 1
    requires forall i :: 0 <= i < |words| ==> words[i] != [] && NoSpace(words[i])
    ensures WordCount(JoinWords(words)) == |words|
    ensures WordCount(" " + JoinWords(words)) == |words| + 1
  {
    PiecesOfJoin(words);
    PiecesOfIndentedJoin(words);
  }

  function TextOf(v: Item): string {
    if v.Str? then v.text else ""
  }

  predicate ItemOk(v: Item) {
    v.Str? && WordCount(v.text) <= MaxWords
  }

  /** The first `n` items are strings of at most 15 words, and no two of them share a canonical form. */
  predicate CleanUpTo(items: seq<Item>, n: nat)
    requires n <= |items|
  {
    && (forall i :: 0 <= i < n ==> ItemOk(items[i]))
    && (forall i, j :: 0 <= i < j < n ==> Canon(TextOf(items[i])) != Canon(TextOf(items[j])))
  }

  predicate Clean(items: seq<Item>) {
    CleanUpTo(items, |items|)
  }

  /** What `validateTasks(arr, expected)` accepts. */
  predicate Acceptable(arr: Reply, expected: Option<nat>) {
    arr.Array? && (expected.None? || |arr.items| == expected.value) && Clean(arr.items)
  }

  /** The error `validateTasks` throws at the first item `k` that breaks `Clean`. */
  function Fault(items: seq<Item>, k: nat): SchemaError
    requires k < |items|
  {
    if !items[k].Str? then NotAString(k)
    else if WordCount(items[k].text) > MaxWords then TooManyWords(k)
    else Duplicate(k)
  }

  function Texts(items: seq<Item>): (ts: seq<string>)
    ensures |ts| == |items| && forall i :: 0 <= i < |items| ==> ts[i] == TextOf(items[i])
  {
    seq(|items|, i requires 0 <= i < |items| => TextOf(items[i]))
  }

  /** `validateTasks`: the checks in source order, returning the array unchanged on success. */
  method ValidateTasks(arr: Reply, expected: Option<nat>) returns (r: Result<seq<string>, SchemaError>)
    ensures r.Success? <==> Acceptable(arr, expected)
    ensures r.Success? ==> |r.value| == |arr.items| && forall i :: 0 <= i < |arr.items| ==> arr.items[i] == Str(r.value[i])
    ensures r.Success? ==> CanonDistinct(r.value) && forall i :: 0 <= i < |r.value| ==> WordCount(r.value[i]) <= MaxWords
    ensures !arr.Array? ==> r == Failure(NotAnArray)
    ensures arr.Array? && expected.Some? && |arr.items| != expected.value ==>
              r == Failure(WrongLength(expected.value, |arr.items|))
    ensures r.Failure? && arr.Array? && (expected.None? || |arr.items| == expected.value) ==>
              exists k :: 0 <= k < |arr.items| && CleanUpTo(arr.items, k) && !CleanUpTo(arr.items, k + 1)
                          && r.error == Fault(arr.items, k)
  {
    if !arr.Array? {
      return Failure(NotAnArray);
    }
    var items := arr.items;
    if expected.Some? && |items| != expected.value {
      return Failure(WrongLength(expected.value, |items|));
    }
    var seen: set<string> := {};
    for i := 0 to |items|
      invariant CleanUpTo(items, i)
      invariant seen == set j | 0 <= j < i :: Canon(TextOf(items[j]))
    {
      var t := items[i];
      if !t.Str? {
        assert !ItemOk(items[i]) && Fault(items, i) == NotAString(i);
        assert CleanUpTo(items, i) && !CleanUpTo(items, i + 1);
        return Failure(NotAString(i));
      }
      if WordCount(t.text) > MaxWords {
        assert !ItemOk(items[i]) && Fault(items, i) == TooManyWords(i);
        assert CleanUpTo(items, i) && !CleanUpTo(items, i + 1);
        return Failure(TooManyWords(i));
      }
      var c := Canon(t.text);
      if c in seen {
        var j :| 0 <= j < i && Canon(TextOf(items[j])) == c;
        assert ItemOk(items[i]) && Fault(items, i) == Duplicate(i);
        assert !CleanUpTo(items, i + 1) by {
          assert Canon(TextOf(items[j])) == Canon(TextOf(items[i]));
        }
        return Failure(Duplicate(i));
      }
      seen := seen + {c};
    }
    CleanTexts(items);
    r := Success(Texts(items));
  }

  /** The texts of a clean array: short enough, and distinct in canonical form. */
  lemma CleanTexts(items: seq<Item>)
    requires Clean(items)
    ensures forall i :: 0 <= i < |items| ==> items[i] == Str(Texts(items)[i])
    ensures CanonDistinct(Texts(items)) && forall i :: 0 <= i < |items| ==> WordCount(Texts(items)[i]) <= MaxWords
  {
    var ts := Texts(items);
    forall i, j | 0 <= i < j < |ts|
      ensures Canon(ts[i]) != Canon(ts[j])
    {
      assert Canon(TextOf(items[i])) != Canon(TextOf(items[j]));
    }
  }

  // ----------------------------------------------------- fetchCandidates

  /** One answer of the text provider: a parsed `tasks` value, or a failure (network error, or a reply `JSON.parse` rejects). */
  datatype Answer = Replied(reply: Reply) | Unreachable

  /** The text provider. `script` holds the answers it will give, in order; once it is used up, every request fails. */
  class Generator {
    var script: seq<Answer>
    var requests: seq<nat>

    constructor (script: seq<Answer>)
      ensures this.script == script && requests == []
    {
      this.script := script;
      requests := [];
    }

    /** One chat-completion request for `n` tasks. */
    method Request(n: nat) returns (a: Answer)
      modifies this
      ensures requests == old(requests) + [n]
      ensures a == AnswerAt(old(script), 0) && script == Drop(old(script), 1)
    {
      requests := requests + [n];
      a := AnswerAt(script, 0);
      script := Drop(script, 1);
    }
  }

  function AnswerAt(script: seq<Answer>, i: nat): Answer {
    if i < |script| then script[i] else Unreachable
  }

  /** The answers left after `k` are consumed, one at a time. */
  function Drop(script: seq<Answer>, k: nat): seq<Answer> {
    if k == 0 || script == [] then script else Drop(script[1..], k - 1)
  }

  lemma {:induction false} DropDrop(script: seq<Answer>, k: nat)
    ensures Drop(Drop(script, k), 1) == Drop(script, k + 1)
    ensures AnswerAt(Drop(script, k), 0) == AnswerAt(script, k)
    decreases k
  {
    if k > 0 && script != [] {
      DropDrop(script[1..], k - 1);
    }
  }

  lemma {:induction false} DropAfterDrop(script: seq<Answer>, k: nat, m: nat)
    ensures Drop(Drop(script, k), m) == Drop(script, k + m)
    ensures forall i: nat :: AnswerAt(Drop(script, k), i) == AnswerAt(script, k + i)
    decreases k
  {
    if k == 0 {
    } else if script == [] {
      EmptyDrop(m);
      EmptyDrop(k + m);
      EmptyDrop(k);
    } else {
      DropAfterDrop(script[1..], k - 1, m);
    }
  }

  lemma {:induction false} AnswerAfterDrop(script: seq<Answer>, k: nat, i: nat, j: nat)
    requires j == k + i
    ensures AnswerAt(Drop(script, k), i) == AnswerAt(script, j)
    decreases k
  {
    if k > 0 && script != [] {
      AnswerAfterDrop(script[1..], k - 1, i, j - 1);
    }
  }

  lemma {:induction false} EmptyDrop(k: nat)
    ensures Drop([], k) == []
  {
  }

  predicate Accepted(a: Answer) {
    a.Replied? && Acceptable(a.reply, None)
  }

  datatype FetchError = ProviderFailed | Invalid(error: SchemaError)

  /**
   * `fetchCandidates(n)`: at most three attempts; after a failed first or
   * second attempt it waits 500 * 2^attempt ms (the waits are returned in
   * `delays`), and the third failure is rethrown without a wait.
   */
  method FetchCandidates(gen: Generator, n: nat) returns (r: Result<seq<string>, FetchError>, delays: seq<nat>)
    modifies gen
    ensures Fetched(n, old(gen.requests), old(gen.script), gen.requests, gen.script, delays, r)
  {
    delays := [];
    var attempt := 0;
    while true
      invariant 0 <= attempt < MaxAttempts && attempt == |delays|
      invariant delays == [500, 1000][..attempt]
      invariant gen.requests == old(gen.requests) + seq(attempt, _ => n)
      invariant gen.script == Drop(old(gen.script), attempt)
      invariant forall j :: 0 <= j < attempt ==> !Accepted(AnswerAt(old(gen.script), j))
      decreases MaxAttempts - attempt
    {
      DropDrop(old(gen.script), attempt);
      var a := Attempt(gen, n);
      assert gen.requests == old(gen.requests) + seq(attempt + 1, _ => n);
      if a.Success? {
        OneAccepted(old(gen.script), attempt + 1);
        return a, delays;
      }
      if attempt == MaxAttempts - 1 {
        return a, delays;
      }
      delays := delays + [500 * Pow2(attempt)];
      attempt := attempt + 1;
    }
  }

  /**
   * What `fetchCandidates(n)` did, from requests `r0` and answers `s0` to `r`
   * and `s`: it made one request for `n` per attempt and consumed one answer
   * each; it waited 500 ms after a failed first attempt and 1000 ms after a
   * failed second one. It returns the strings of the first accepted answer,
   * the one its last attempt consumed (then exactly one accepted answer was
   * consumed); it fails when the third answer is not accepted either, with
   * `ProviderFailed` exactly when that answer never arrived.
   */
  ghost predicate Fetched(n: nat, r0: seq<nat>, s0: seq<Answer>, r: seq<nat>, s: seq<Answer>,
                          delays: seq<nat>, result: Result<seq<string>, FetchError>)
  {
    && |delays| < MaxAttempts && delays == [500, 1000][..|delays|]
    && r == r0 + seq(|delays| + 1, _ => n)
    && s == Drop(s0, |delays| + 1)
    && (forall j :: 0 <= j < |delays| ==> !Accepted(AnswerAt(s0, j)))
    && (result.Success? <==> Accepted(AnswerAt(s0, |delays|)))
    && (result.Success? ==>
          && result.value == Texts(AnswerAt(s0, |delays|).reply.items)
          && CanonDistinct(result.value)
          && (forall i :: 0 <= i < |result.value| ==> WordCount(result.value[i]) <= MaxWords)
          && AcceptedAmong(s0, |delays| + 1) == 1)
    && (result.Failure? ==>
          && |delays| == MaxAttempts - 1
          && (forall j :: 0 <= j < MaxAttempts ==> !Accepted(AnswerAt(s0, j)))
          && (result.error == ProviderFailed <==> AnswerAt(s0, |delays|).Unreachable?))
  }

  /** One pass of the `try` block (lines 36-66): a request, then `validateTasks` on a reply. */
  method Attempt(gen: Generator, n: nat) returns (r: Result<seq<string>, FetchError>)
    modifies gen
    ensures gen.requests == old(gen.requests) + [n] && gen.script == Drop(old(gen.script), 1)
    ensures r.Success? <==> Accepted(AnswerAt(old(gen.script), 0))
    ensures r.Success? ==> r.value == Texts(AnswerAt(old(gen.script), 0).reply.items)
    ensures r.Success? ==> CanonDistinct(r.value) && forall i :: 0 <= i < |r.value| ==> WordCount(r.value[i]) <= MaxWords
    ensures r.Failure? ==> (r.error == ProviderFailed <==> AnswerAt(old(gen.script), 0).Unreachable?)
  {
    var a := gen.Request(n);
    if a.Unreachable? {
      return Failure(ProviderFailed);
    }
    var v := ValidateTasks(a.reply, None);
    if v.Failure? {
      return Failure(Invalid(v.error));
    }
    assert v.value == Texts(a.reply.items);
    r := Success(v.value);
  }

  function Pow2(k: nat): nat {
    if k == 0 then 1 else 2 * Pow2(k - 1)
  }

  // ------------------------------------------------------------- handler

  /** The `count` field of the request body after `Number(...)`: missing, an integer, or `NaN`. */
  datatype CountField = Missing | Numeric(value: int) | NotANumber

  /** The request body: JSON that `req.json()` rejects, or a parsed value. */
  datatype Body = Malformed | Parsed(count: CountField)

  /** `Math.min(Math.max(Number(body?.count) || 50, 1), 50)`, with 50 kept when the body is malformed. */
  function RequestedCount(body: Body): (c: nat)
    ensures 1 <= c <= MaxCount
    ensures body.Parsed? && body.count.Numeric? && 1 <= body.count.value <= MaxCount ==> c == body.count.value
    ensures body.Parsed? && body.count.Numeric? && body.count.value < 0 ==> c == 1
    ensures body.Parsed? && body.count.Numeric? && body.count.value > MaxCount ==> c == MaxCount
    ensures !(body.Parsed? && body.count.Numeric? && body.count.value != 0) ==> c == DefaultCount
  {
    var n := if body.Parsed? && body.count.Numeric? && body.count.value != 0 then body.count.value else DefaultCount;
    if n < 1 then 1 else if n > MaxCount then MaxCount else n
  }

  function MasterKey(count: nat): string {
    "tasks:" + Decimal(count)
  }

  function CreatedKey(count: nat): string {
    MasterKey(count) + ":created"
  }

  /** Line 97: rebuild when the master is missing, the timestamp is 0 (or was not a number), or it is at least five days old. */
  predicate NeedsRebuild(master: Option<seq<string>>, created: int, now: int) {
    master.None? || created == 0 || now - created >= FiveDaysMs
  }

  /** Once a stored list is due for a rebuild, it stays due as time advances. */
  lemma RebuildStaysDue(master: Option<seq<string>>, created: int, now: int, later: int)
    requires now <= later && NeedsRebuild(master, created, now)
    ensures NeedsRebuild(master, created, later)
  {
  }

  /** `Math.ceil(k * 1.4)`, the oversampled request size. */
  function Oversample(k: nat): (r: nat)
    ensures 10 * r >= 14 * k && 10 * r < 14 * k + 10
  {
    (14 * k + 9) / 10
  }

  /** The first element of `master` whose canonical form is `c` (`master.find`). */
  function FindByCanon(master: seq<string>, c: string): (r: Option<string>)
    ensures r.Some? ==> exists i :: 0 <= i < |master| && master[i] == r.value && Canon(r.value) == c
                          && forall j :: 0 <= j < i ==> Canon(master[j]) != c
    ensures r.None? ==> forall t :: t in master ==> Canon(t) != c
  {
    if master == [] then None
    else if Canon(master[0]) == c then Some(master[0])
    else
      var rest := FindByCanon(master[1..], c);
      if rest.Some? then
        var i :| 0 <= i < |master[1..]| && master[1..][i] == rest.value && Canon(rest.value) == c
                 && forall j :: 0 <= j < i ==> Canon(master[1..][j]) != c;
        assert master[i + 1] == rest.value;
        rest
      else rest
  }

  /**
   * One pass of the inner `for` loop (lines 108-113): the candidate is skipped
   * when `master.find` returns a truthy match or the history set already holds
   * its canonical form; otherwise it is appended and its canonical form added
   * to the history.
   */
  method Consider(kv: Kv, next: seq<string>, candidate: string) returns (appended: bool)
    requires CanonDistinct(next) && CanonSet(next) <= kv.Members(HistoryKey)
    modifies kv
    ensures appended <==> Canon(candidate) !in old(kv.Members(HistoryKey))
    ensures appended ==> CanonDistinct(next + [candidate])
    ensures kv.Members(HistoryKey) == old(kv.Members(HistoryKey)) + {Canon(candidate)}
    ensures !appended ==> kv.Members(HistoryKey) == old(kv.Members(HistoryKey))
    ensures kv.lists == old(kv.lists) && kv.numbers == old(kv.numbers) && kv.expiry == old(kv.expiry)
    ensures OtherSetsKept(old(kv.sets), kv.sets)
  {
    var c := Canon(candidate);
    var found := FindByCanon(next, c);
    if found.Some? && found.value != "" {
      assert Canon(found.value) in CanonSet(next);
      return false;
    }
    var seen := kv.IsMember(HistoryKey, c);
    if seen {
      return false;
    }
    forall t | t in next
      ensures Canon(t) != c
    {
      assert Canon(t) in CanonSet(next);
    }
    CanonDistinctSnoc(next, candidate);
    kv.Add(HistoryKey, c);
    appended := true;
  }

  /**
   * The candidates from position `i` on that one round keeps, in order: each
   * whose canonical form is not in `h` is taken and its form added to `h`,
   * until `room` are taken. While the accumulator's forms are all in the
   * history (as `Absorb` requires), the `master.find` test of line 110 never
   * skips a candidate the history test of line 111 would keep, so the history
   * alone decides.
   */
  function Kept(raw: seq<string>, i: nat, room: nat, h: set<string>): seq<string>
    requires i <= |raw|
    decreases |raw| - i
  {
    if i == |raw| || room == 0 then []
    else if Canon(raw[i]) in h then Kept(raw, i + 1, room, h)
    else [raw[i]] + Kept(raw, i + 1, room - 1, h + {Canon(raw[i])})
  }

  /** What `Kept` takes: at most `room` candidates of `raw`, each new to `h`, pairwise distinct in form. */
  lemma {:induction false} KeptFresh(raw: seq<string>, i: nat, room: nat, h: set<string>)
    requires i <= |raw|
    ensures |Kept(raw, i, room, h)| <= room
    ensures forall t :: t in Kept(raw, i, room, h) ==> t in raw && Canon(t) !in h
    ensures CanonDistinct(Kept(raw, i, room, h))
    decreases |raw| - i
  {
    if i < |raw| && room > 0 {
      var c := Canon(raw[i]);
      if c in h {
        KeptFresh(raw, i + 1, room, h);
      } else {
        var rest := Kept(raw, i + 1, room - 1, h + {c});
        KeptFresh(raw, i + 1, room - 1, h + {c});
        forall a, b | 0 <= a < b < |[raw[i]] + rest|
          ensures Canon(([raw[i]] + rest)[a]) != Canon(([raw[i]] + rest)[b])
        {
          assert rest[b - 1] in rest;
        }
      }
    }
  }

  /**
   * While `Kept` has room left, every candidate it passed over has its form in
   * `h` or among the forms it took.
   */
  lemma {:induction false} KeptSkipsOnlySeen(raw: seq<string>, i: nat, room: nat, h: set<string>)
    requires i <= |raw|
    ensures |Kept(raw, i, room, h)| < room ==>
              forall j :: i <= j < |raw| ==> Canon(raw[j]) in h + CanonSet(Kept(raw, i, room, h))
    decreases |raw| - i
  {
    if i < |raw| && room > 0 {
      var c := Canon(raw[i]);
      if c in h {
        KeptSkipsOnlySeen(raw, i + 1, room, h);
      } else {
        var rest := Kept(raw, i + 1, room - 1, h + {c});
        assert Kept(raw, i, room, h) == [raw[i]] + rest;
        KeptSkipsOnlySeen(raw, i + 1, room - 1, h + {c});
        CanonSetCons(raw[i], rest);
      }
    }
  }

  /**
   * When the next `room` candidates are all new to `h` and pairwise distinct
   * in form, `Kept` takes every one of them.
   */
  lemma {:induction false} KeptAllFresh(raw: seq<string>, i: nat, room: nat, h: set<string>)
    requires i + room <= |raw|
    requires forall j :: i <= j < i + room ==> Canon(raw[j]) !in h
    requires forall j, k :: i <= j < k < i + room ==> Canon(raw[j]) != Canon(raw[k])
    ensures Kept(raw, i, room, h) == raw[i..i + room]
    decreases room
  {
    if room > 0 {
      KeptAllFresh(raw, i + 1, room - 1, h + {Canon(raw[i])});
    }
  }

  /**
   * The inner `for` loop of one round (lines 107-114): the candidates are
   * considered in order until `count` is reached, and what is appended is
   * exactly what `Kept` takes.
   */
  method KeepFresh(kv: Kv, count: nat, master: seq<string>, raw: seq<string>) returns (next: seq<string>)
    requires |master| <= count && CanonDistinct(master)
    requires CanonSet(master) <= kv.Members(HistoryKey)
    modifies kv
    ensures |master| <= |next| && next[..|master|] == master
    ensures next[|master|..] == Kept(raw, 0, count - |master|, old(kv.Members(HistoryKey)))
    ensures CanonDistinct(next)
    ensures kv.Members(HistoryKey) == old(kv.Members(HistoryKey)) + CanonSet(next[|master|..])
    ensures kv.lists == old(kv.lists) && kv.numbers == old(kv.numbers) && kv.expiry == old(kv.expiry)
    ensures OtherSetsKept(old(kv.sets), kv.sets)
  {
    next := master;
    ghost var added: seq<string> := [];
    ghost var h0 := kv.Members(HistoryKey);
    ghost var h := h0;
    ghost var room: nat := count - |master|;
    ghost var kept := Kept(raw, 0, room, h0);
    for i := 0 to |raw|
      invariant next == master + added && h == kv.Members(HistoryKey)
      invariant Keeping(count, master, added, raw, i, room, h0, h, kept)
      invariant kv.lists == old(kv.lists) && kv.numbers == old(kv.numbers) && kv.expiry == old(kv.expiry)
      invariant OtherSetsKept(old(kv.sets), kv.sets)
    {
      if |next| == count {
        break;
      }
      ghost var sBefore := kv.sets;
      var appended := Consider(kv, next, raw[i]);
      OtherSetsKeptTrans(old(kv.sets), sBefore, kv.sets);
      KeepingStep(count, master, added, raw, i, room, h0, h, kept, appended);
      if appended {
        next := next + [raw[i]];
        added := added + [raw[i]];
        room := room - 1;
      }
      h := kv.Members(HistoryKey);
    }
    assert next[..|master|] == master && next[|master|..] == added;
  }

  /**
   * The invariant of `KeepFresh` after the candidates before `i`: `added`
   * was appended to `master`, leaving `room` places; the history went from
   * `h0` to `h` by exactly the forms of `added`; and `added` followed by what
   * `Kept` takes from `i` on is what `Kept` takes from the start.
   */
  ghost predicate Keeping(count: nat, master: seq<string>, added: seq<string>, raw: seq<string>, i: nat,
                          room: nat, h0: set<string>, h: set<string>, kept: seq<string>)
  {
    && i <= |raw| && |master| + |added| <= count && room == count - |master| - |added|
    && h == h0 + CanonSet(added) && CanonSet(master + added) <= h
    && added + Kept(raw, i, room, h) == kept
    && CanonDistinct(master + added)
  }

  /** Considering candidate `i` keeps `Keeping`. */
  lemma KeepingStep(count: nat, master: seq<string>, added: seq<string>, raw: seq<string>, i: nat,
                    room: nat, h0: set<string>, h: set<string>, kept: seq<string>, appended: bool)
    requires Keeping(count, master, added, raw, i, room, h0, h, kept) && i < |raw| && room > 0
    requires appended <==> Canon(raw[i]) !in h
    requires appended ==> CanonDistinct(master + added + [raw[i]])
    ensures appended ==> Keeping(count, master, added + [raw[i]], raw, i + 1, room - 1, h0, h + {Canon(raw[i])}, kept)
    ensures !appended ==> h + {Canon(raw[i])} == h && Keeping(count, master, added, raw, i + 1, room, h0, h, kept)
  {
    KeptStep(added, raw, i, room, h, appended);
    if appended {
      CanonSetSnoc(added, raw[i]);
      CanonSetSnoc(master + added, raw[i]);
      assert master + added + [raw[i]] == master + (added + [raw[i]]);
    }
  }

  /** One step of `Kept`, stated on the accumulated prefix. */
  lemma KeptStep(added: seq<string>, raw: seq<string>, i: nat, room: nat, h: set<string>, appended: bool)
    requires i < |raw| && room > 0
    requires appended <==> Canon(raw[i]) !in h
    ensures appended ==>
              added + Kept(raw, i, room, h) == (added + [raw[i]]) + Kept(raw, i + 1, room - 1, h + {Canon(raw[i])})
    ensures !appended ==> Kept(raw, i, room, h) == Kept(raw, i + 1, room, h)
  {
    if appended {
      var rest := Kept(raw, i + 1, room - 1, h + {Canon(raw[i])});
      assert (added + [raw[i]]) + rest == added + ([raw[i]] + rest);
    }
  }

  /**
   * One round's absorption of the candidates (lines 107-114): what is
   * appended is exactly what `Kept` takes, so it is new to the history and
   * pairwise distinct in form; a round that falls short had every
   * candidate's form put in the history; and a batch whose first
   * `count - |master|` candidates are all new fills the list.
   */
  method Absorb(kv: Kv, count: nat, master: seq<string>, raw: seq<string>) returns (next: seq<string>)
    requires |master| <= count && CanonDistinct(master)
    requires CanonSet(master) <= kv.Members(HistoryKey)
    modifies kv
    ensures Absorption(count, master, raw, old(kv.Members(HistoryKey)), kv.Members(HistoryKey), next)
    ensures next[|master|..] == Kept(raw, 0, count - |master|, old(kv.Members(HistoryKey)))
    ensures kv.lists == old(kv.lists) && kv.numbers == old(kv.numbers) && kv.expiry == old(kv.expiry)
    ensures OtherSetsKept(old(kv.sets), kv.sets)
  {
    ghost var h0 := kv.Members(HistoryKey);
    next := KeepFresh(kv, count, master, raw);
    KeptAbsorption(count, master, raw, h0, kv.Members(HistoryKey), next);
  }

  /** What `Kept` takes, appended to `master`, is an `Absorption`. */
  lemma KeptAbsorption(count: nat, master: seq<string>, raw: seq<string>, h0: set<string>, h: set<string>,
                       next: seq<string>)
    requires |master| <= count && |master| <= |next| && next[..|master|] == master
    requires next[|master|..] == Kept(raw, 0, count - |master|, h0)
    requires CanonDistinct(next) && h == h0 + CanonSet(next[|master|..])
    ensures Absorption(count, master, raw, h0, h, next)
  {
    var room := count - |master|;
    KeptFresh(raw, 0, room, h0);
    KeptSkipsOnlySeen(raw, 0, room, h0);
    if CanonDistinct(raw) && |raw| >= room && forall t :: t in raw ==> Canon(t) !in h0 {
      KeptAllFresh(raw, 0, room, h0);
    }
  }

  /**
   * One round's absorption of the candidates `raw` into `master`, taking the
   * history from `h0` to `h`: what is appended is new to the history and
   * pairwise distinct in form, and the history gains exactly its forms; a
   * round that falls short had every candidate's form put in the history;
   * and a batch of at least `count - |master|` candidates, all new and
   * pairwise distinct in form, fills the list.
   */
  ghost predicate Absorption(count: nat, master: seq<string>, raw: seq<string>, h0: set<string>, h: set<string>,
                             next: seq<string>)
  {
    && |master| <= |next| <= count && next[..|master|] == master
    && CanonDistinct(next)
    && h == h0 + CanonSet(next[|master|..])
    && (forall t :: t in next[|master|..] ==> t in raw && Canon(t) !in h0)
    && (|next| < count ==> forall t :: t in raw ==> Canon(t) in h)
    && (CanonDistinct(raw) && |raw| >= count - |master| && (forall t :: t in raw ==> Canon(t) !in h0) ==>
          |next| == count)
  }

  lemma OtherSetsKeptTrans(a: map<string, set<string>>, b: map<string, set<string>>, c: map<string, set<string>>)
    requires OtherSetsKept(a, b) && OtherSetsKept(b, c)
    ensures OtherSetsKept(a, c)
  {
  }

  /** Every set other than the history reads as before (Redis treats a missing set as empty). */
  ghost predicate OtherSetsKept(before: map<string, set<string>>, after: map<string, set<string>>) {
    forall k :: k != HistoryKey ==> (if k in after then after[k] else {}) == (if k in before then before[k] else {})
  }

  lemma CanonDistinctSnoc(ts: seq<string>, t: string)
    requires CanonDistinct(ts)
    requires forall u :: u in ts ==> Canon(u) != Canon(t)
    ensures CanonDistinct(ts + [t])
  {
    forall i, j | 0 <= i < j < |ts| + 1
      ensures Canon((ts + [t])[i]) != Canon((ts + [t])[j])
    {
      if j == |ts| {
        assert (ts + [t])[i] in ts;
      }
    }
  }

  lemma CanonSetCons(t: string, ts: seq<string>)
    ensures CanonSet([t] + ts) == {Canon(t)} + CanonSet(ts)
  {
    assert forall x :: x in [t] + ts <==> x == t || x in ts;
  }

  lemma CanonSetSnoc(ts: seq<string>, t: string)
    ensures CanonSet(ts + [t]) == CanonSet(ts) + {Canon(t)}
  {
    assert forall x :: x in ts + [t] <==> x in ts || x == t;
  }

  /**
   * One round of the rebuild loop (lines 103-114): request
   * `ceil((count - |master|) * 1.4)` candidates and absorb them. A provider
   * failure that survives the retries escapes before any history change.
   */
  method Round(kv: Kv, gen: Generator, count: nat, master: seq<string>) returns (r: Result<seq<string>, FetchError>)
    requires |master| < count <= MaxCount && CanonDistinct(master)
    requires CanonSet(master) <= kv.Members(HistoryKey)
    modifies kv, gen
    ensures RoundOutcome(count, master, old(gen.requests), old(gen.script), old(kv.Members(HistoryKey)),
                         gen.requests, gen.script, kv.Members(HistoryKey), r)
    ensures kv.lists == old(kv.lists) && kv.numbers == old(kv.numbers) && kv.expiry == old(kv.expiry)
    ensures OtherSetsKept(old(kv.sets), kv.sets)
  {
    var pull := Oversample(count - |master|);
    ghost var r0, s0, h0 := gen.requests, gen.script, kv.Members(HistoryKey);
    var raw, delays := FetchCandidates(gen, pull);
    if raw.Failure? {
      FetchFailedRound(count, master, pull, r0, s0, h0, gen.requests, gen.script, delays, raw);
      return raw;
    }
    var next := Absorb(kv, count, master, raw.value);
    AbsorbedRound(count, master, pull, r0, s0, h0, gen.requests, gen.script, kv.Members(HistoryKey),
                  delays, raw.value, next);
    r := Success(next);
  }

  /** A fetch that failed ends the round as `RoundOutcome` describes. */
  lemma FetchFailedRound(count: nat, master: seq<string>, n: nat, r0: seq<nat>, s0: seq<Answer>, h0: set<string>,
                         r: seq<nat>, s: seq<Answer>, delays: seq<nat>, result: Result<seq<string>, FetchError>)
    requires |master| < count <= MaxCount && n == Oversample(count - |master|)
    requires Fetched(n, r0, s0, r, s, delays, result) && result.Failure?
    ensures RoundOutcome(count, master, r0, s0, h0, r, s, h0, result)
  {
    assert r[..|r0|] == r0;
  }

  /** A fetch that returned candidates, absorbed into `master`, ends the round as `RoundOutcome` describes. */
  lemma AbsorbedRound(count: nat, master: seq<string>, n: nat, r0: seq<nat>, s0: seq<Answer>, h0: set<string>,
                      r: seq<nat>, s: seq<Answer>, h: set<string>, delays: seq<nat>, raw: seq<string>,
                      next: seq<string>)
    requires |master| < count <= MaxCount && n == Oversample(count - |master|)
    requires Fetched(n, r0, s0, r, s, delays, Success(raw))
    requires Absorption(count, master, raw, h0, h, next)
    ensures RoundOutcome(count, master, r0, s0, h0, r, s, h, Success(next))
  {
    assert r[..|r0|] == r0;
    FromAnswersOf(s0, |delays|, |delays| + 1, raw);
    if |next| < count {
      AbsorbedLast(s0, |delays|, h);
    }
  }

  /**
   * What one round does, from requests `rb`, answers `sb` and history `hb` to
   * `r`, `s` and `h`, given the accumulator `master`. It makes one to three
   * requests, each for `ceil((count - |master|) * 1.4)` candidates. A failure
   * made three, none of whose answers was accepted, and left the history
   * alone. A list extends `master` by strings of the one
   * accepted answer, the last one consumed: each is short enough, new to the
   * history and distinct in form from the others, and the history gains
   * exactly their forms; a list still short had every string of that answer
   * put in the history. An accepted first answer with enough strings new to
   * the history fills the list.
   */
  ghost predicate RoundOutcome(count: nat, master: seq<string>, rb: seq<nat>, sb: seq<Answer>, hb: set<string>,
                               r: seq<nat>, s: seq<Answer>, h: set<string>, result: Result<seq<string>, FetchError>)
    requires |master| < count
  {
    && |rb| < |r| <= |rb| + MaxAttempts
    && Asked(rb, sb, r, s)
    && (forall i :: |rb| <= i < |r| ==> r[i] == Oversample(count - |master|))
    && (result.Failure? ==>
          && h == hb && |r| == |rb| + MaxAttempts
          && forall j :: 0 <= j < MaxAttempts ==> !Accepted(AnswerAt(sb, j)))
    && (result.Success? ==>
          && |master| <= |result.value| <= count && result.value[..|master|] == master
          && CanonDistinct(result.value)
          && h == hb + CanonSet(result.value[|master|..])
          && (forall t :: t in result.value[|master|..] ==>
                WordCount(t) <= MaxWords && Canon(t) !in hb && FromAnswers(sb, |r| - |rb|, t))
          && (|result.value| < count ==> Absorbed(sb, |r| - |rb|, h))
          && AcceptedAmong(sb, |r| - |rb|) == 1 && Accepted(AnswerAt(sb, |r| - |rb| - 1)))
    && (FreshAnswer(sb, count - |master|, hb) ==> result.Success? && |result.value| == count && |r| == |rb| + 1)
  }

  /** Every accepted answer among the first `k` had the canonical forms of all its strings put in the history `h`. */
  ghost predicate Absorbed(script: seq<Answer>, k: nat, h: set<string>) {
    forall j, t :: 0 <= j < k && Accepted(AnswerAt(script, j)) && t in Texts(AnswerAt(script, j).reply.items) ==> Canon(t) in h
  }

  /** The provider's next answer is accepted and holds at least `need` strings, none with a canonical form in `h`. */
  ghost predicate FreshAnswer(script: seq<Answer>, need: nat, h: set<string>) {
    && Accepted(AnswerAt(script, 0))
    && |AnswerAt(script, 0).reply.items| >= need
    && forall t :: t in Texts(AnswerAt(script, 0).reply.items) ==> Canon(t) !in h
  }

  /** How many of the provider's first `k` answers were accepted: one per completed round. */
  ghost function AcceptedAmong(script: seq<Answer>, k: nat): nat {
    if k == 0 then 0
    else AcceptedAmong(script, k - 1) + (if Accepted(AnswerAt(script, k - 1)) then 1 else 0)
  }

  lemma {:induction false} AcceptedAmongNone(script: seq<Answer>, k: nat)
    requires forall j :: 0 <= j < k ==> !Accepted(AnswerAt(script, j))
    ensures AcceptedAmong(script, k) == 0
    decreases k
  {
    if k > 0 {
      AcceptedAmongNone(script, k - 1);
    }
  }

  /** Unaccepted answers up to an accepted one: exactly one accepted answer among them. */
  lemma OneAccepted(script: seq<Answer>, n: nat)
    requires n >= 1
    requires forall j :: 0 <= j < n - 1 ==> !Accepted(AnswerAt(script, j))
    requires Accepted(AnswerAt(script, n - 1))
    ensures AcceptedAmong(script, n) == 1
  {
    AcceptedAmongNone(script, n - 1);
  }

  /** Counting accepted answers splits where a round starts. */
  lemma {:induction false} AcceptedAmongSplit(script: seq<Answer>, used: nat, k: nat, n: nat)
    requires n == used + k
    ensures AcceptedAmong(script, n) == AcceptedAmong(script, used) + AcceptedAmong(Drop(script, used), k)
    decreases k
  {
    if k > 0 {
      AcceptedAmongSplit(script, used, k - 1, n - 1);
      AnswerAfterDrop(script, used, k - 1, n - 1);
    }
  }

  /**
   * How a rebuild loop that escaped with the provider's failure ended: its
   * last round consumed three answers, none accepted; fewer than five rounds
   * had completed, and the history holds every string of every accepted answer.
   */
  ghost predicate GaveUp(script: seq<Answer>, n: nat, h: set<string>) {
    && n >= MaxAttempts
    && (forall j :: n - MaxAttempts <= j < n ==> !Accepted(AnswerAt(script, j)))
    && AcceptedAmong(script, n) < MaxRounds
    && Absorbed(script, n, h)
  }

  /**
   * How a rebuild loop that stopped short ended: all five rounds completed
   * (five accepted answers), and the history holds every string of every
   * accepted answer, so the short list is not the loop's doing.
   */
  ghost predicate RanOut(script: seq<Answer>, n: nat, h: set<string>) {
    && AcceptedAmong(script, n) == MaxRounds
    && Absorbed(script, n, h)
  }

  lemma AbsorbedLast(script: seq<Answer>, d: nat, h: set<string>)
    requires forall j :: 0 <= j < d ==> !Accepted(AnswerAt(script, j))
    requires Accepted(AnswerAt(script, d)) ==> forall t :: t in Texts(AnswerAt(script, d).reply.items) ==> Canon(t) in h
    ensures Absorbed(script, d + 1, h)
  {
  }

  lemma AbsorbedStep(script: seq<Answer>, used: nat, rest: seq<Answer>, k: nat, n: nat, hb: set<string>, h: set<string>)
    requires n == used + k && rest == Drop(script, used) && hb <= h
    requires forall i: nat :: AnswerAt(rest, i) == AnswerAt(script, used + i)
    requires Absorbed(script, used, hb) && Absorbed(rest, k, h)
    ensures Absorbed(script, n, h)
  {
    forall j, t | 0 <= j < n && Accepted(AnswerAt(script, j)) && t in Texts(AnswerAt(script, j).reply.items)
      ensures Canon(t) in h
    {
      if j >= used {
        assert AnswerAt(rest, j - used) == AnswerAt(script, j);
      }
    }
  }

  /**
   * The rebuild loop (lines 98-115): while the list is short, up to five
   * rounds. A provider failure that survives the retries escapes the loop;
   * the history additions made so far stay.
   */
  method Collect(kv: Kv, gen: Generator, count: nat) returns (r: Result<seq<string>, FetchError>)
    requires 1 <= count <= MaxCount
    modifies kv, gen
    ensures Collected(count, old(gen.requests), old(gen.script), old(kv.Members(HistoryKey)),
                      gen.requests, gen.script, kv.Members(HistoryKey), r)
    ensures kv.lists == old(kv.lists) && kv.numbers == old(kv.numbers) && kv.expiry == old(kv.expiry)
    ensures OtherSetsKept(old(kv.sets), kv.sets)
  {
    var master: seq<string> := [];
    var safety := 0;
    while |master| < count && safety < MaxRounds
      invariant Progress(count, safety, master, old(gen.requests), old(gen.script), old(kv.Members(HistoryKey)),
                         gen.requests, gen.script, kv.Members(HistoryKey))
      invariant kv.lists == old(kv.lists) && kv.numbers == old(kv.numbers) && kv.expiry == old(kv.expiry)
      invariant OtherSetsKept(old(kv.sets), kv.sets)
      decreases MaxRounds - safety
    {
      ghost var asked := gen.requests;
      ghost var script := gen.script;
      ghost var sets := kv.sets;
      ghost var history := kv.Members(HistoryKey);
      var next := Round(kv, gen, count, master);
      OtherSetsKeptTrans(old(kv.sets), sets, kv.sets);
      if next.Failure? {
        RoundFailed(count, safety, master, old(gen.requests), old(gen.script), old(kv.Members(HistoryKey)),
                    asked, script, history, gen.requests, gen.script, kv.Members(HistoryKey), next.error);
        return Failure(next.error);
      }
      RoundCompleted(count, safety, master, next.value, old(gen.requests), old(gen.script), old(kv.Members(HistoryKey)),
                     asked, script, history, gen.requests, gen.script, kv.Members(HistoryKey));
      master := next.value;
      safety := safety + 1;
    }
    LoopDone(count, safety, master, old(gen.requests), old(gen.script), old(kv.Members(HistoryKey)),
             gen.requests, gen.script, kv.Members(HistoryKey));
    r := Success(master);
  }

  /**
   * What the rebuild loop leaves behind, from requests `r0`, answers `s0` and
   * history `h0` to `r`, `s` and `h`: one to fifteen requests of 2 to 70
   * candidates, at most five accepted answers, and a history that only grew.
   * A list is `Gathered` from the accepted answers and holds at most `count`
   * tasks; a short one comes only after five completed rounds (`RanOut`), and
   * a failure only after three unaccepted answers in a row (`GaveUp`). A
   * first answer that is accepted and holds `count` strings new to `h0` fills
   * the list with that one request.
   */
  ghost predicate Collected(count: nat, r0: seq<nat>, s0: seq<Answer>, h0: set<string>,
                            r: seq<nat>, s: seq<Answer>, h: set<string>, result: Result<seq<string>, FetchError>)
  {
    && |r0| < |r| <= |r0| + MaxRequests
    && Asked(r0, s0, r, s)
    && h0 <= h
    && AcceptedAmong(s0, |r| - |r0|) <= MaxRounds
    && (result.Success? ==> |result.value| <= count && Gathered(result.value, h0, h, s0, |r| - |r0|))
    && (result.Success? && |result.value| < count ==> |r| >= |r0| + MaxRounds && RanOut(s0, |r| - |r0|, h))
    && (result.Failure? ==> GaveUp(s0, |r| - |r0|, h))
    && (FreshAnswer(s0, count, h0) ==> result.Success? && |result.value| == count && |r| == |r0| + 1)
  }

  /** The loop ends with a list: full, or short after five rounds. */
  lemma LoopDone(count: nat, rounds: nat, master: seq<string>,
                 r0: seq<nat>, s0: seq<Answer>, h0: set<string>,
                 r: seq<nat>, s: seq<Answer>, h: set<string>)
    requires 1 <= count && Progress(count, rounds, master, r0, s0, h0, r, s, h)
    requires |master| >= count || rounds >= MaxRounds
    ensures Collected(count, r0, s0, h0, r, s, h, Success(master))
  {
  }

  /**
   * The rebuild loop's invariant after `rounds` completed rounds of a loop
   * that started from requests `r0`, answers `s0` and history `h0`: one
   * accepted answer per round, the accumulator `Gathered` from them, and
   * while it is short, every string of every accepted answer in the history.
   */
  ghost predicate Progress(count: nat, rounds: nat, master: seq<string>,
                           r0: seq<nat>, s0: seq<Answer>, h0: set<string>,
                           r: seq<nat>, s: seq<Answer>, h: set<string>)
  {
    && rounds <= MaxRounds && |master| <= count
    && (rounds == 0 ==> master == [])
    && |r0| + rounds <= |r| <= |r0| + 3 * rounds
    && Asked(r0, s0, r, s)
    && Gathered(master, h0, h, s0, |r| - |r0|)
    && AcceptedAmong(s0, |r| - |r0|) == rounds
    && (|master| < count ==> Absorbed(s0, |r| - |r0|, h))
    && (FreshAnswer(s0, count, h0) && rounds > 0 ==> |master| == count && |r| == |r0| + 1)
  }

  /**
   * A round that returned `master`, after `rounds` completed rounds that left
   * the accumulator at `before` (requests, answers and history went from
   * `rb`, `sb`, `hb` to `r`, `s`, `h`).
   */
  ghost predicate CompletedRound(count: nat, rounds: nat, before: seq<string>, master: seq<string>,
                       r0: seq<nat>, s0: seq<Answer>, h0: set<string>,
                       rb: seq<nat>, sb: seq<Answer>, hb: set<string>,
                       r: seq<nat>, s: seq<Answer>, h: set<string>)
  {
    && Progress(count, rounds, before, r0, s0, h0, rb, sb, hb) && |before| < count && rounds < MaxRounds
    && RoundOutcome(count, before, rb, sb, hb, r, s, h, Success(master))
  }

  /** A round that returned a list keeps `Progress`. */
  lemma RoundCompleted(count: nat, rounds: nat, before: seq<string>, master: seq<string>,
                       r0: seq<nat>, s0: seq<Answer>, h0: set<string>,
                       rb: seq<nat>, sb: seq<Answer>, hb: set<string>,
                       r: seq<nat>, s: seq<Answer>, h: set<string>)
    requires CompletedRound(count, rounds, before, master, r0, s0, h0, rb, sb, hb, r, s, h)
    ensures Progress(count, rounds + 1, master, r0, s0, h0, r, s, h)
  {
    CompletedRoundAsked(count, rounds, before, master, r0, s0, h0, rb, sb, hb, r, s, h);
    CompletedRoundGathered(count, rounds, before, master, r0, s0, h0, rb, sb, hb, r, s, h);
    CompletedRoundFresh(count, rounds, before, master, r0, s0, h0, rb, sb, hb, r, s, h);
  }

  lemma CompletedRoundAsked(count: nat, rounds: nat, before: seq<string>, master: seq<string>,
                       r0: seq<nat>, s0: seq<Answer>, h0: set<string>,
                       rb: seq<nat>, sb: seq<Answer>, hb: set<string>,
                       r: seq<nat>, s: seq<Answer>, h: set<string>)
    requires CompletedRound(count, rounds, before, master, r0, s0, h0, rb, sb, hb, r, s, h)
    ensures Asked(r0, s0, r, s) && |r0| + rounds + 1 <= |r| <= |r0| + 3 * (rounds + 1)
    ensures AcceptedAmong(s0, |r| - |r0|) == rounds + 1
  {
    AskedTrans(r0, s0, rb, sb, r, s);
    AcceptedAfter(s0, |rb| - |r0|, sb, |r| - |rb|, |r| - |r0|, rounds);
  }

  lemma CompletedRoundGathered(count: nat, rounds: nat, before: seq<string>, master: seq<string>,
                       r0: seq<nat>, s0: seq<Answer>, h0: set<string>,
                       rb: seq<nat>, sb: seq<Answer>, hb: set<string>,
                       r: seq<nat>, s: seq<Answer>, h: set<string>)
    requires CompletedRound(count, rounds, before, master, r0, s0, h0, rb, sb, hb, r, s, h)
    ensures Gathered(master, h0, h, s0, |r| - |r0|)
    ensures |master| < count ==> Absorbed(s0, |r| - |r0|, h)
  {
    var used := |rb| - |r0|;
    var n := |r| - |r0|;
    GatheredStep(before, master, h0, hb, h, s0, used, sb, |r| - |rb|, n);
    if |master| < count {
      DropAfterDrop(s0, used, 0);
      AbsorbedStep(s0, used, sb, |r| - |rb|, n, hb, h);
    }
  }

  lemma CompletedRoundFresh(count: nat, rounds: nat, before: seq<string>, master: seq<string>,
                       r0: seq<nat>, s0: seq<Answer>, h0: set<string>,
                       rb: seq<nat>, sb: seq<Answer>, hb: set<string>,
                       r: seq<nat>, s: seq<Answer>, h: set<string>)
    requires CompletedRound(count, rounds, before, master, r0, s0, h0, rb, sb, hb, r, s, h)
    ensures FreshAnswer(s0, count, h0) ==> |master| == count && |r| == |r0| + 1
  {
    if rounds == 0 {
      assert r0 == rb && s0 == sb && h0 == hb;
    }
  }

  /** One more accepted answer after the first `used`. */
  lemma AcceptedAfter(script: seq<Answer>, used: nat, rest: seq<Answer>, k: nat, n: nat, rounds: nat)
    requires n == used + k && rest == Drop(script, used)
    requires AcceptedAmong(script, used) == rounds && AcceptedAmong(rest, k) == 1
    ensures AcceptedAmong(script, n) == rounds + 1
  {
    AcceptedAmongSplit(script, used, k, n);
  }

  /** A round that failed ends the loop as `Collected` describes. */
  lemma RoundFailed(count: nat, rounds: nat, master: seq<string>, r0: seq<nat>, s0: seq<Answer>, h0: set<string>,
                    rb: seq<nat>, sb: seq<Answer>, hb: set<string>, r: seq<nat>, s: seq<Answer>, h: set<string>,
                    e: FetchError)
    requires Progress(count, rounds, master, r0, s0, h0, rb, sb, hb) && |master| < count && rounds < MaxRounds
    requires RoundOutcome(count, master, rb, sb, hb, r, s, h, Failure(e))
    ensures Collected(count, r0, s0, h0, r, s, h, Failure(e))
  {
    FailedRoundGaveUp(count, rounds, master, r0, s0, h0, rb, sb, hb, r, s, h, e);
    FailedRoundNotFresh(count, rounds, master, r0, s0, h0, rb, sb, hb, r, s, h, e);
  }

  lemma FailedRoundGaveUp(count: nat, rounds: nat, master: seq<string>, r0: seq<nat>, s0: seq<Answer>, h0: set<string>,
                          rb: seq<nat>, sb: seq<Answer>, hb: set<string>, r: seq<nat>, s: seq<Answer>, h: set<string>,
                          e: FetchError)
    requires Progress(count, rounds, master, r0, s0, h0, rb, sb, hb) && |master| < count && rounds < MaxRounds
    requires RoundOutcome(count, master, rb, sb, hb, r, s, h, Failure(e))
    ensures Asked(r0, s0, r, s) && GaveUp(s0, |r| - |r0|, h)
  {
    AskedTrans(r0, s0, rb, sb, r, s);
    GaveUpAfter(s0, |rb| - |r0|, sb, rounds, h, |r| - |r0|);
  }

  lemma FailedRoundNotFresh(count: nat, rounds: nat, master: seq<string>, r0: seq<nat>, s0: seq<Answer>, h0: set<string>,
                            rb: seq<nat>, sb: seq<Answer>, hb: set<string>, r: seq<nat>, s: seq<Answer>, h: set<string>,
                            e: FetchError)
    requires Progress(count, rounds, master, r0, s0, h0, rb, sb, hb) && |master| < count && rounds < MaxRounds
    requires RoundOutcome(count, master, rb, sb, hb, r, s, h, Failure(e))
    ensures !FreshAnswer(s0, count, h0)
  {
    if rounds == 0 {
      assert sb == s0;
    }
  }

  /** Three unaccepted answers after `used` end the loop as `GaveUp` describes. */
  lemma GaveUpAfter(script: seq<Answer>, used: nat, rest: seq<Answer>, rounds: nat, h: set<string>, n: nat)
    requires n == used + MaxAttempts && rest == Drop(script, used)
    requires AcceptedAmong(script, used) == rounds < MaxRounds && Absorbed(script, used, h)
    requires forall j :: 0 <= j < MaxAttempts ==> !Accepted(AnswerAt(rest, j))
    ensures GaveUp(script, n, h)
  {
    DropAfterDrop(script, used, 0);
    assert AcceptedAmong(script, n) < MaxRounds by {
      AcceptedAmongSplit(script, used, MaxAttempts, n);
      AcceptedAmongNone(rest, MaxAttempts);
    }
    AbsorbedStep(script, used, rest, MaxAttempts, n, h, h);
    forall j | n - MaxAttempts <= j < n
      ensures !Accepted(AnswerAt(script, j))
    {
      assert AnswerAt(rest, j - used) == AnswerAt(script, j);
    }
  }

  /** The requests after `r0` each ask for 2 to 70 candidates, and each consumed one answer of `s0`. */
  ghost predicate Asked(r0: seq<nat>, s0: seq<Answer>, r: seq<nat>, s: seq<Answer>) {
    && |r0| <= |r| && r[..|r0|] == r0
    && s == Drop(s0, |r| - |r0|)
    && forall i :: |r0| <= i < |r| ==> 2 <= r[i] <= Oversample(MaxCount)
  }

  lemma AskedTrans(r0: seq<nat>, s0: seq<Answer>, r1: seq<nat>, s1: seq<Answer>, r2: seq<nat>, s2: seq<Answer>)
    requires Asked(r0, s0, r1, s1) && Asked(r1, s1, r2, s2)
    ensures Asked(r0, s0, r2, s2)
  {
    RequestsAppend(r0, r1, r2);
    DropAfterDrop(s0, |r1| - |r0|, |r2| - |r1|);
  }

  /**
   * The accumulator of the rebuild loop: canonically distinct tasks of at most
   * 15 pieces, new to the history `h0` it started from, each a string of an
   * accepted answer among the first `k`, with their forms added to the history.
   */
  ghost predicate Gathered(master: seq<string>, h0: set<string>, h: set<string>, script: seq<Answer>, k: nat) {
    && CanonDistinct(master)
    && (forall t :: t in master ==> WordCount(t) <= MaxWords && Canon(t) !in h0 && FromAnswers(script, k, t))
    && h == h0 + CanonSet(master)
  }

  lemma GatheredStep(before: seq<string>, master: seq<string>, h0: set<string>, hb: set<string>, h: set<string>,
                     script: seq<Answer>, used: nat, rest: seq<Answer>, k: nat, n: nat)
    requires n == used + k && Gathered(before, h0, hb, script, used) && rest == Drop(script, used)
    requires |before| <= |master| && master[..|before|] == before && CanonDistinct(master)
    requires h == hb + CanonSet(master[|before|..])
    requires forall t :: t in master[|before|..] ==>
               WordCount(t) <= MaxWords && Canon(t) !in hb && FromAnswers(rest, k, t)
    ensures Gathered(master, h0, h, script, n)
  {
    assert master == before + master[|before|..];
    assert CanonSet(master) == CanonSet(before) + CanonSet(master[|before|..]);
    DropAfterDrop(script, used, 0);
    FromAnswersGrow(script, used, n, before);
    FromAnswersShift(script, used, k, master[|before|..]);
  }

  lemma RequestsAppend(r0: seq<nat>, r1: seq<nat>, r2: seq<nat>)
    requires |r0| <= |r1| <= |r2| && r1[..|r0|] == r0 && r2[..|r1|] == r1
    ensures r2[..|r0|] == r0
    ensures forall i :: |r0| <= i < |r1| ==> r2[i] == r1[i]
  {
    assert r2[..|r0|] == r2[..|r1|][..|r0|];
  }

  /** `t` is one of the strings of an accepted answer among the first `k` the provider gave. */
  ghost predicate FromAnswers(script: seq<Answer>, k: nat, t: string) {
    exists j :: 0 <= j < k && Accepted(AnswerAt(script, j)) && t in Texts(AnswerAt(script, j).reply.items)
  }

  lemma FromAnswersGrow(script: seq<Answer>, k: nat, k': nat, ts: seq<string>)
    requires k <= k' && forall t :: t in ts ==> FromAnswers(script, k, t)
    ensures forall t :: t in ts ==> FromAnswers(script, k', t)
  {
    forall t | t in ts
      ensures FromAnswers(script, k', t)
    {
      var j :| 0 <= j < k && Accepted(AnswerAt(script, j)) && t in Texts(AnswerAt(script, j).reply.items);
    }
  }

  lemma FromAnswersShift(script: seq<Answer>, used: nat, k: nat, ts: seq<string>)
    requires forall i: nat :: AnswerAt(Drop(script, used), i) == AnswerAt(script, used + i)
    requires forall t :: t in ts ==> FromAnswers(Drop(script, used), k, t)
    ensures forall t :: t in ts ==> FromAnswers(script, used + k, t)
  {
    forall t | t in ts
      ensures FromAnswers(script, used + k, t)
    {
      var j :| 0 <= j < k && Accepted(AnswerAt(Drop(script, used), j)) && t in Texts(AnswerAt(Drop(script, used), j).reply.items);
      assert AnswerAt(Drop(script, used), j) == AnswerAt(script, used + j);
    }
  }

  lemma FromAnswersOf(script: seq<Answer>, j: nat, k: nat, ts: seq<string>)
    requires j < k && Accepted(AnswerAt(script, j)) && ts == Texts(AnswerAt(script, j).reply.items)
    ensures forall t :: t in ts ==> FromAnswers(script, k, t)
  {
  }

  /** Items as the array `validateTasks` receives. */
  function AsReply(ts: seq<string>): (r: Reply)
    ensures r.Array? && |r.items| == |ts| && forall i :: 0 <= i < |ts| ==> r.items[i] == Str(ts[i])
  {
    Array(seq(|ts|, i requires 0 <= i < |ts| => Str(ts[i])))
  }

  /** What the handler answers: a JSON body with a status, or a rejected promise. */
  datatype Payload = Tasks(items: seq<string>) | Message(text: string)
  datatype Response = Json(status: nat, body: Payload) | Threw(cause: Thrown)

  /** Why a handler's promise rejects: the provider failed three times, or `.slice` was called on an error body. */
  datatype Thrown = GenerationFailed(error: FetchError) | SliceOfNonArray

  /**
   * What a rebuild (lines 98-125) leaves behind: the history only grows, at
   * most five rounds complete, a 500 comes only after five completed rounds
   * and a rethrow only after three unaccepted answers in a row, neither writes
   * a master, and a 200 carries `count` new distinct tasks from the provider's
   * answers, stored with the timestamp `finished` and a six-day expiry.
   */
  twostate predicate Rebuilt(kv: Kv, gen: Generator, count: nat, finished: int, res: Response)
    reads kv, gen
  {
    && old(kv.Members(HistoryKey)) <= kv.Members(HistoryKey)
    && OtherSetsKept(old(kv.sets), kv.sets)
    && |old(gen.requests)| < |gen.requests| <= |old(gen.requests)| + MaxRequests
    && (res.Json? ==> res.status == 200 || res == Json(500, Message("Could not generate enough unique tasks")))
    && (res == Json(500, Message("Could not generate enough unique tasks")) || res.Threw? ==>
          kv.lists == old(kv.lists) && kv.numbers == old(kv.numbers) && kv.expiry == old(kv.expiry))
    && AcceptedAmong(old(gen.script), |gen.requests| - |old(gen.requests)|) <= MaxRounds
    && (res == Json(500, Message("Could not generate enough unique tasks")) ==>
          && |gen.requests| >= |old(gen.requests)| + MaxRounds
          && RanOut(old(gen.script), |gen.requests| - |old(gen.requests)|, kv.Members(HistoryKey)))
    && (res.Threw? ==>
          && res.cause.GenerationFailed?
          && GaveUp(old(gen.script), |gen.requests| - |old(gen.requests)|, kv.Members(HistoryKey)))
    && (FreshAnswer(old(gen.script), count, old(kv.Members(HistoryKey))) ==>
          res.Json? && res.status == 200 && |gen.requests| == |old(gen.requests)| + 1)
    && (res.Json? && res.status == 200 ==> res.body.Tasks? && Stored(kv, gen, count, finished, res.body.items))
  }

  /**
   * What a 200 of a rebuild leaves behind: `count` canonically distinct tasks,
   * none in the prior history and each from an accepted provider answer, with
   * their forms added to the history, written as the master with the timestamp
   * `finished` and a six-day expiry.
   */
  twostate predicate Stored(kv: Kv, gen: Generator, count: nat, finished: int, master: seq<string>)
    reads kv, gen
  {
    && |master| == count && |old(gen.requests)| <= |gen.requests|
    && CanonDistinct(master)
    && (forall t :: t in master ==> Canon(t) !in old(kv.Members(HistoryKey)))
    && (forall t :: t in master ==> FromAnswers(old(gen.script), |gen.requests| - |old(gen.requests)|, t))
    && kv.Members(HistoryKey) == old(kv.Members(HistoryKey)) + CanonSet(master)
    && kv.lists == old(kv.lists)[MasterKey(count) := master]
    && kv.numbers == old(kv.numbers)[CreatedKey(count) := finished]
    && kv.expiry == old(kv.expiry)[MasterKey(count) := SixDaysSeconds][CreatedKey(count) := SixDaysSeconds]
  }

  /** The accumulated tasks pass `validateTasks`, so the final check of line 120 never throws. */
  lemma AccumulatorAcceptable(master: seq<string>)
    requires CanonDistinct(master) && forall t :: t in master ==> WordCount(t) <= MaxWords
    ensures Acceptable(AsReply(master), Some(|master|))
  {
    var items := AsReply(master).items;
    forall i | 0 <= i < |items|
      ensures ItemOk(items[i]) && TextOf(items[i]) == master[i]
    {
      assert master[i] in master;
    }
  }

  /** Lines 98-125: the rebuild branch of the handler. */
  method Rebuild(kv: Kv, gen: Generator, count: nat, finished: int) returns (res: Response)
    requires 1 <= count <= MaxCount
    modifies kv, gen
    ensures Rebuilt(kv, gen, count, finished, res)
  {
    var collected := Collect(kv, gen, count);
    if collected.Failure? {
      return Threw(GenerationFailed(collected.error));
    }
    var master := collected.value;
    if |master| < count {
      return Json(500, Message("Could not generate enough unique tasks"));
    }
    AccumulatorAcceptable(master);
    var check := ValidateTasks(AsReply(master), Some(count));
    assert check.Success?;
    kv.SetList(MasterKey(count), master, SixDaysSeconds);
    kv.SetNumber(CreatedKey(count), finished, SixDaysSeconds);
    res := Json(200, Tasks(master));
  }

  /**
   * `handler` of generate-tasks.js. `now` is the clock reading of line 97 and
   * `finished` the one of line 124.
   */
  method Generate(kv: Kv, gen: Generator, httpMethod: string, body: Body, now: int, finished: int) returns (res: Response)
    modifies kv, gen
    ensures httpMethod != "POST" ==>
              res == Json(405, Message("Only POST requests are supported")) && unchanged(kv) && unchanged(gen)
    ensures httpMethod == "POST" ==>
              var count := RequestedCount(body);
              var stored := if MasterKey(count) in old(kv.lists) then Some(old(kv.lists)[MasterKey(count)]) else None;
              var created := if CreatedKey(count) in old(kv.numbers) then old(kv.numbers)[CreatedKey(count)] else 0;
              if !NeedsRebuild(stored, created, now) then
                res == Json(200, Tasks(stored.value)) && unchanged(kv) && unchanged(gen)
              else
                Rebuilt(kv, gen, count, finished, res)
  {
    if httpMethod != "POST" {
      return Json(405, Message("Only POST requests are supported"));
    }
    var count := RequestedCount(body);
    var stored := kv.GetList(MasterKey(count));
    var created := kv.GetNumber(CreatedKey(count));
    if !NeedsRebuild(stored, created, now) {
      return Json(200, Tasks(stored.value));
    }
    res := Rebuild(kv, gen, count, finished);
  }

  /**
   * A list rebuilt by a request at `finished` (a non-zero clock reading) is
   * served unchanged, without generation, by a request at `later` exactly
   * while `later` is less than five days after `finished`.
   */
  method RebuildThenReuse(kv: Kv, gen: Generator, body: Body, now: int, finished: int, later: int)
    returns (first: Response, second: Response)
    requires finished != 0
    requires MasterKey(RequestedCount(body)) !in kv.lists
    modifies kv, gen
    ensures first.Json? && first.status == 200 ==>
              (second == first <==> later - finished < FiveDaysMs)
  {
    first := Generate(kv, gen, "POST", body, now, finished);
    if first.Json? && first.status == 200 {
      // the first task's form is now in the history, so a rebuild cannot return it again
      assert Canon(first.body.items[0]) in CanonSet(first.body.items);
    }
    second := Generate(kv, gen, "POST", body, later, finished);
  }
}
