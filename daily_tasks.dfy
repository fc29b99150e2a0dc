/**
 * `GET /daily` (daily-tasks.js): today's ten-item window of the 50-item master
 * list, cached under the UTC date until the next UTC midnight.
 */
module DailyTasks {
  import opened Results
  import opened Text
  import opened KvStore
  import G = GenerateTasks

  const DayMs := 86_400_000
  const SliceLength := 10
  const LastDay := 4

  /**
   * Lines 31-34: whole days elapsed since creation (floor division), clamped
   * to 0..4. Day 0 also covers instants before creation, day 4 everything from
   * four days on.
   */
  function DayIndex(now: int, createdMs: int): (d: nat)
    ensures d <= LastDay
    ensures d == 0 <==> now < createdMs + DayMs
    ensures d == LastDay <==> now >= createdMs + LastDay * DayMs
    ensures 0 < d < LastDay ==> createdMs + d * DayMs <= now < createdMs + (d + 1) * DayMs
  {
    var elapsed := (now - createdMs) / DayMs;
    if elapsed < 0 then 0 else if elapsed > LastDay then LastDay else elapsed
  }

  lemma DayIndexMonotone(now: int, later: int, createdMs: int)
    requires now <= later
    ensures DayIndex(now, createdMs) <= DayIndex(later, createdMs)
  {
  }

  /** Line 31: `Number(kv.get(createdKey)) || Date.now()`, so a missing or zero timestamp counts as now. */
  function CreatedOrNow(stored: int, now: int): int {
    if stored == 0 then now else stored
  }

  lemma MissingTimestampIsDayZero(now: int)
    ensures DayIndex(now, CreatedOrNow(0, now)) == 0
  {
  }

  /** `list.slice(from, to)` for `0 <= from <= to`: both ends are clamped to the length of the list. */
  function SliceOf(list: seq<string>, from: nat, to: nat): (r: seq<string>)
    requires from <= to
    ensures |r| == (if to <= |list| then to - from else if from <= |list| then |list| - from else 0)
    ensures forall i :: 0 <= i < |r| ==> r[i] == list[from + i]
  {
    if from >= |list| then [] else list[from..if to <= |list| then to else |list|]
  }

  /** Lines 37-38: the window `[10 * day, 10 * day + 10)`. */
  function TodaySlice(list: seq<string>, day: nat): seq<string> {
    SliceOf(list, SliceLength * day, SliceLength * day + SliceLength)
  }

  /** The five windows of a 50-item list each hold ten items and, in order, make up the list. */
  lemma SlicesPartition(list: seq<string>)
    requires |list| == 50
    ensures forall d :: 0 <= d <= LastDay ==> |TodaySlice(list, d)| == SliceLength
    ensures TodaySlice(list, 0) + TodaySlice(list, 1) + TodaySlice(list, 2) + TodaySlice(list, 3) + TodaySlice(list, 4) == list
  {
    assert list == list[0..10] + list[10..20] + list[20..30] + list[30..40] + list[40..50];
  }

  /** The instant of the next UTC midnight (`Date.UTC(y, m, d + 1)`). */
  function NextMidnight(now: nat): (m: nat)
    ensures m % DayMs == 0
    ensures now < m <= now + DayMs
  {
    (now / DayMs + 1) * DayMs
  }

  /** Line 47: whole seconds until the next UTC midnight. */
  function TtlSeconds(now: nat): (t: nat)
    ensures t <= DayMs / 1000
    ensures t * 1000 <= NextMidnight(now) - now < t * 1000 + 1000
  {
    (NextMidnight(now) - now) / 1000
  }

  /** The proleptic Gregorian (year, month, day) of a day number counted from 1970-01-01. */
  function CivilFromDays(days: nat): (int, int, int) {
    var z := days + 719468;
    var era := z / 146097;
    var doe := z - era * 146097;
    var yoe := (doe - doe / 1460 + doe / 36524 - doe / 146096) / 365;
    var doy := doe - (365 * yoe + yoe / 4 - yoe / 100);
    var mp := (5 * doy + 2) / 153;
    var d := doy - (153 * mp + 2) / 5 + 1;
    var m := if mp < 10 then mp + 3 else mp - 9;
    (yoe + era * 400 + (if m <= 2 then 1 else 0), m, d)
  }

  function Padded(n: int, width: nat): string {
    var digits := Decimal(if n < 0 then 0 else n);
    if |digits| < width then seq(width - |digits|, _ => '0') + digits else digits
  }

  /** `now.toISOString().slice(0, 10)`: "YYYY-MM-DD" of the UTC day of `now`. */
  function UtcDate(now: nat): string {
    var (y, m, d) := CivilFromDays(now / DayMs);
    Padded(y, 4) + "-" + Padded(m, 2) + "-" + Padded(d, 2)
  }

  lemma CivilEpoch()
    ensures CivilFromDays(0) == (1970, 1, 1)
  {
    assert 719468 / 146097 == 4;
    assert 719468 - 4 * 146097 == 135080;
    assert (135080 - 135080 / 1460 + 135080 / 36524 - 135080 / 146096) / 365 == 369;
    assert 135080 - (365 * 369 + 369 / 4 - 369 / 100) == 306;
    assert (5 * 306 + 2) / 153 == 10;
    assert 306 - (153 * 10 + 2) / 5 + 1 == 1;
  }

  lemma CivilLeapDay()
    ensures CivilFromDays(11016) == (2000, 2, 29)
  {
    assert 730484 / 146097 == 4;
    assert 730484 - 4 * 146097 == 146096;
    assert (146096 - 146096 / 1460 + 146096 / 36524 - 146096 / 146096) / 365 == 399;
    assert 146096 - (365 * 399 + 399 / 4 - 399 / 100) == 365;
    assert (5 * 365 + 2) / 153 == 11;
    assert 365 - (153 * 11 + 2) / 5 + 1 == 29;
  }

  lemma DecimalYears()
    ensures Decimal(1970) == "1970" && Decimal(2000) == "2000"
  {
    assert Decimal(19) == "19";
    assert Decimal(197) == "197";
    assert Decimal(20) == "20";
    assert Decimal(200) == "200";
  }

  lemma PaddedFields()
    ensures Padded(1970, 4) == "1970" && Padded(2000, 4) == "2000"
    ensures Padded(1, 2) == "01" && Padded(2, 2) == "02" && Padded(29, 2) == "29"
  {
    DecimalYears();
    assert Decimal(1) == "1" && Decimal(2) == "2";
    assert Decimal(29) == "29";
  }

  /** The date rendering on two known days: the epoch and a Gregorian leap day. */
  lemma KnownDates()
    ensures UtcDate(0) == "1970-01-01"
    ensures UtcDate(DayMs * 11016) == "2000-02-29"
  {
    CivilEpoch();
    CivilLeapDay();
    PaddedFields();
    assert DayMs * 11016 / DayMs == 11016;
  }

  /** Two days and a tenth after creation the third window, items 20 to 29, is served. */
  lemma ThirdDayWindow(list: seq<string>, createdMs: int)
    requires |list| == 50
    ensures TodaySlice(list, DayIndex(createdMs + 2 * DayMs + DayMs / 10, createdMs)) == list[20..30]
  {
  }

  /** Line 49: the cache key of the slice. */
  function DailyKey(now: nat): (k: string)
    ensures |k| >= 6 && k[..6] == "daily:"
  {
    "daily:" + UtcDate(now)
  }

  /**
   * Every request until the next UTC midnight uses the same date key, so the
   * slice cached with `TtlSeconds(now)` is the one those requests find.
   */
  lemma SameKeyUntilMidnight(now: nat, later: nat)
    requires now <= later < NextMidnight(now)
    ensures DailyKey(later) == DailyKey(now)
  {
    assert later / DayMs == now / DayMs by {
      var q := now / DayMs;
      assert q * DayMs <= now && later < (q + 1) * DayMs;
    }
  }

  lemma MasterKeyFifty()
    ensures G.MasterKey(50) == "tasks:50" && G.CreatedKey(50) == "tasks:50:created"
  {
    assert Decimal(50) == Decimal(5) + [DigitChar(0)];
  }

  function StampOf(numbers: map<string, int>): int {
    if "tasks:50:created" in numbers then numbers["tasks:50:created"] else 0
  }

  /** Lines 31-53 once the master list is in hand: pick today's window and cache it until midnight. */
  method ServeSlice(kv: Kv, fifty: seq<string>, now: nat) returns (slice: seq<string>)
    modifies kv
    ensures slice == TodaySlice(fifty, DayIndex(now, CreatedOrNow(StampOf(old(kv.numbers)), now)))
    ensures kv.lists == old(kv.lists)[DailyKey(now) := slice]
    ensures kv.expiry == old(kv.expiry)[DailyKey(now) := TtlSeconds(now)]
    ensures kv.numbers == old(kv.numbers) && kv.sets == old(kv.sets)
  {
    var createdMs := kv.GetNumber("tasks:50:created");
    if createdMs == 0 {
      createdMs := now;
    }
    slice := TodaySlice(fifty, DayIndex(now, createdMs));
    kv.SetList(DailyKey(now), slice, TtlSeconds(now));
  }

  /**
   * How the nested generation of lines 22-27 ended, for a provider `script`,
   * the `n` requests it made, the history `h0` before and `h` after, and what
   * the handler ends up throwing (`None` when it serves): at most five
   * accepted answers; `.slice` on the 500 body only as `RanOut` describes, a
   * generation failure only as `GaveUp` describes, and a fresh first answer
   * always served after one request.
   */
  ghost predicate Generated(script: seq<G.Answer>, n: nat, h0: set<string>, h: set<string>, thrown: Option<G.Thrown>) {
    && 0 < n <= G.MaxRequests
    && h0 <= h
    && G.AcceptedAmong(script, n) <= G.MaxRounds
    && (thrown == Some(G.SliceOfNonArray) ==> n >= G.MaxRounds && G.RanOut(script, n, h))
    && (thrown.Some? && thrown.value.GenerationFailed? ==> G.GaveUp(script, n, h))
    && (G.FreshAnswer(script, 50, h0) ==> thrown.None? && n == 1)
  }

  function ThrownBy(res: G.Response): Option<G.Thrown> {
    if res.Threw? then Some(res.cause) else None
  }

  function ThrownFrom(fifty: Result<seq<string>, G.Thrown>): Option<G.Thrown> {
    if fifty.Failure? then Some(fifty.error) else None
  }

  /**
   * What the handler leaves behind when the master list is missing (lines
   * 19-53): the nested generation ends as `Generated` says, and its history
   * additions stay; a rejection (the generation's own, or `.slice` on its
   * 500 body) writes no list; and a 200 stores 50 new distinct tasks, each
   * from an accepted answer, stamped `finished`, and serves and caches
   * today's window of them.
   */
  twostate predicate Refilled(kv: Kv, gen: G.Generator, now: nat, finished: int, res: G.Response)
    reads kv, gen
  {
    && |old(gen.requests)| <= |gen.requests|
    && Generated(old(gen.script), |gen.requests| - |old(gen.requests)|, old(kv.Members(G.HistoryKey)), kv.Members(G.HistoryKey), ThrownBy(res))
    && G.OtherSetsKept(old(kv.sets), kv.sets)
    && (res.Threw? ==> kv.lists == old(kv.lists) && kv.numbers == old(kv.numbers) && kv.expiry == old(kv.expiry))
    && (res.Json? ==>
          && "tasks:50" in kv.lists
          && var fifty := kv.lists["tasks:50"];
          && |fifty| == 50
          && G.CanonDistinct(fifty)
          && (forall t :: t in fifty ==> G.Canon(t) !in old(kv.Members(G.HistoryKey)))
          && (forall t :: t in fifty ==> G.FromAnswers(old(gen.script), |gen.requests| - |old(gen.requests)|, t))
          && kv.Members(G.HistoryKey) == old(kv.Members(G.HistoryKey)) + G.CanonSet(fifty)
          && var slice := TodaySlice(fifty, DayIndex(now, CreatedOrNow(finished, now)));
          && res == G.Json(200, G.Tasks(slice))
          && |slice| == SliceLength
          && kv.lists == old(kv.lists)["tasks:50" := fifty][DailyKey(now) := slice]
          && kv.numbers == old(kv.numbers)["tasks:50:created" := finished]
          && kv.expiry == old(kv.expiry)["tasks:50" := G.SixDaysSeconds]["tasks:50:created" := G.SixDaysSeconds][DailyKey(now) := TtlSeconds(now)])
  }

  /**
   * Lines 22-27: the generation handler called with a POST for 50 tasks (a
   * rebuild, as the master list is missing), and the body it answers with:
   * the tasks, or the error the handler throws, its own or that of `.slice`
   * on line 38 when the body is the 500 message rather than an array.
   */
  method GenerateFifty(kv: Kv, gen: G.Generator, now: nat, finished: int) returns (fifty: Result<seq<string>, G.Thrown>)
    requires "tasks:50" !in kv.lists
    modifies kv, gen
    ensures |old(gen.requests)| < |gen.requests|
    ensures Generated(old(gen.script), |gen.requests| - |old(gen.requests)|, old(kv.Members(G.HistoryKey)), kv.Members(G.HistoryKey), ThrownFrom(fifty))
    ensures G.OtherSetsKept(old(kv.sets), kv.sets)
    ensures fifty.Failure? ==> kv.lists == old(kv.lists) && kv.numbers == old(kv.numbers) && kv.expiry == old(kv.expiry)
    ensures fifty.Success? ==> G.Stored(kv, gen, 50, finished, fifty.value)
  {
    MasterKeyFifty();
    assert G.RequestedCount(G.Parsed(G.Numeric(50))) == 50;
    assert G.NeedsRebuild(None, StampOf(kv.numbers), now);
    var res := G.Generate(kv, gen, "POST", G.Parsed(G.Numeric(50)), now, finished);
    if res.Threw? {
      fifty := Failure(res.cause);
    } else if !res.body.Tasks? {
      fifty := Failure(G.SliceOfNonArray);
    } else {
      fifty := Success(res.body.items);
    }
  }

  /** Lines 19-53 when `kv.get(masterKey)` finds nothing: the nested generation, then today's window. */
  method Refill(kv: Kv, gen: G.Generator, now: nat, finished: int) returns (res: G.Response)
    requires "tasks:50" !in kv.lists
    modifies kv, gen
    ensures Refilled(kv, gen, now, finished, res)
  {
    MasterKeyFifty();
    var fifty := GenerateFifty(kv, gen, now, finished);
    if fifty.Failure? {
      return G.Threw(fifty.error);
    }
    SlicesPartition(fifty.value);
    assert StampOf(kv.numbers) == finished;
    assert DailyKey(now) != "tasks:50" by {
      assert DailyKey(now)[0] == 'd';
    }
    var slice := ServeSlice(kv, fifty.value, now);
    res := G.Json(200, G.Tasks(slice));
  }

  /**
   * `handler` of daily-tasks.js. `now` stands for the handler's own clock
   * readings (lines 31, 32 and 41); `finished` is the timestamp the nested
   * generation writes when the master list is missing.
   */
  method Daily(kv: Kv, gen: G.Generator, httpMethod: string, now: nat, finished: int) returns (res: G.Response)
    modifies kv, gen
    ensures httpMethod != "GET" ==>
              res == G.Json(405, G.Message("Only GET supported")) && unchanged(kv) && unchanged(gen)
    ensures httpMethod == "GET" && "tasks:50" in old(kv.lists) ==>
              var slice := TodaySlice(old(kv.lists)["tasks:50"], DayIndex(now, CreatedOrNow(StampOf(old(kv.numbers)), now)));
              && res == G.Json(200, G.Tasks(slice))
              && unchanged(gen)
              && kv.lists == old(kv.lists)[DailyKey(now) := slice]
              && kv.expiry == old(kv.expiry)[DailyKey(now) := TtlSeconds(now)]
              && kv.numbers == old(kv.numbers) && kv.sets == old(kv.sets)
    ensures httpMethod == "GET" && "tasks:50" !in old(kv.lists) ==> Refilled(kv, gen, now, finished, res)
  {
    if httpMethod != "GET" {
      return G.Json(405, G.Message("Only GET supported"));
    }
    MasterKeyFifty();
    var stored := kv.GetList("tasks:50");
    if stored.Some? {
      var slice := ServeSlice(kv, stored.value, now);
      return G.Json(200, G.Tasks(slice));
    }
    res := Refill(kv, gen, now, finished);
  }
}
