/**
 * The computations behind ProfileScreen.js: weekly badges from the done-task
 * map, the XP and level shown, the next badge's name, and the leaderboard
 * order.
 */
module ProfileScreen {
  import opened Users

  /** One `[dateStr, tasks]` pair of `Object.entries(doneTasksMap)`. */
  type Entry = (string, seq<string>)

  const BadgeThreshold := 10

  function Get(m: map<string, nat>, k: string): nat {
    if k in m then m[k] else 0
  }

  /**
   * Lines 24-30: `weeklyCounts` after the entries, in order; `weekOf` is the
   * week-date key (`${getISOWeekYear}-W${getISOWeek}`) of a date string.
   */
  function Totals(entries: seq<Entry>, weekOf: string -> string): map<string, nat>
    decreases |entries|
  {
    if entries == [] then map[]
    else
      var t := Totals(entries[..|entries| - 1], weekOf);
      var last := entries[|entries| - 1];
      t[weekOf(last.0) := Get(t, weekOf(last.0)) + |last.1|]
  }

  /** The number of tasks done on the dates that fall in week `w`. */
  function WeekTotal(entries: seq<Entry>, weekOf: string -> string, w: string): nat
    decreases |entries|
  {
    if entries == [] then 0
    else
      var last := entries[|entries| - 1];
      WeekTotal(entries[..|entries| - 1], weekOf, w) + if weekOf(last.0) == w then |last.1| else 0
  }

  /** `weeklyCounts` has a key exactly for the weeks that occur, holding that week's task count. */
  lemma {:induction false} TotalsPerWeek(entries: seq<Entry>, weekOf: string -> string, w: string)
    ensures Get(Totals(entries, weekOf), w) == WeekTotal(entries, weekOf, w)
    ensures w in Totals(entries, weekOf) <==> exists i :: 0 <= i < |entries| && weekOf(entries[i].0) == w
    decreases |entries|
  {
    if entries != [] {
      var init := entries[..|entries| - 1];
      TotalsPerWeek(init, weekOf, w);
      if w in Totals(entries, weekOf) && weekOf(entries[|entries| - 1].0) != w {
        var i :| 0 <= i < |init| && weekOf(init[i].0) == w;
        assert entries[i] == init[i];
      }
      if exists i :: 0 <= i < |entries| && weekOf(entries[i].0) == w {
        var i :| 0 <= i < |entries| && weekOf(entries[i].0) == w;
        if i < |init| {
          assert init[i] == entries[i];
        }
      }
    }
  }

  /** The weeks of `ks` with at least ten tasks. */
  function HeavyIn(t: map<string, nat>, ks: set<string>): set<string>
    requires ks <= t.Keys
  {
    set w | w in ks && t[w] >= BadgeThreshold
  }

  /** Lines 33-36: one badge per week with at least ten tasks. */
  function Badges(t: map<string, nat>): nat {
    |HeavyIn(t, t.Keys)|
  }

  /** Lines 21-30: the first loop of `countBadgesByWeek`, building `weeklyCounts`. */
  method WeeklyCounts(entries: seq<Entry>, weekOf: string -> string) returns (weeklyCounts: map<string, nat>)
    ensures weeklyCounts == Totals(entries, weekOf)
  {
    weeklyCounts := map[];
    for i := 0 to |entries|
      invariant weeklyCounts == Totals(entries[..i], weekOf)
    {
      var (dateStr, tasks) := entries[i];
      var key := weekOf(dateStr);
      weeklyCounts := weeklyCounts[key := Get(weeklyCounts, key) + |tasks|];
      assert entries[..i + 1][..i] == entries[..i];
    }
    assert entries[..|entries|] == entries;
  }

  /** Lines 33-36: the second loop, counting the weeks with at least ten tasks. */
  method CountHeavyWeeks(weeklyCounts: map<string, nat>) returns (badgeCount: nat)
    ensures badgeCount == Badges(weeklyCounts)
  {
    badgeCount := 0;
    var pending := weeklyCounts.Keys;
    ghost var counted: set<string> := {};
    while pending != {}
      invariant pending + counted == weeklyCounts.Keys && pending !! counted
      invariant badgeCount == |HeavyIn(weeklyCounts, counted)|
      decreases |pending|
    {
      var w :| w in pending;
      if weeklyCounts[w] >= BadgeThreshold {
        badgeCount := badgeCount + 1;
        assert HeavyIn(weeklyCounts, counted + {w}) == HeavyIn(weeklyCounts, counted) + {w};
      } else {
        assert HeavyIn(weeklyCounts, counted + {w}) == HeavyIn(weeklyCounts, counted);
      }
      pending := pending - {w};
      counted := counted + {w};
    }
  }

  /** `countBadgesByWeek(doneTasksMap)`, over the entries of the map. */
  method CountBadgesByWeek(entries: seq<Entry>, weekOf: string -> string) returns (badgeCount: nat)
    ensures badgeCount == Badges(Totals(entries, weekOf))
  {
    var weeklyCounts := WeeklyCounts(entries, weekOf);
    badgeCount := CountHeavyWeeks(weeklyCounts);
  }

  /** `Object.values(map).flat()`: every task done, date after date. */
  function AllDone(entries: seq<Entry>): seq<string>
    decreases |entries|
  {
    if entries == [] then [] else AllDone(entries[..|entries| - 1]) + entries[|entries| - 1].1
  }

  ghost function Pick(s: set<string>): string
    requires s != {}
  {
    var x :| x in s; x
  }

  /** The sum of `t` over the keys `ks`. */
  ghost function SumOver(t: map<string, nat>, ks: set<string>): nat
    requires ks <= t.Keys
    decreases ks
  {
    if ks == {} then 0 else var k := Pick(ks); t[k] + SumOver(t, ks - {k})
  }

  lemma {:induction false} SumOverRemove(t: map<string, nat>, ks: set<string>, k: string)
    requires ks <= t.Keys && k in ks
    ensures SumOver(t, ks) == t[k] + SumOver(t, ks - {k})
    decreases ks
  {
    var p := Pick(ks);
    if p != k {
      SumOverRemove(t, ks - {p}, k);
      SumOverRemove(t, ks - {k}, p);
      assert ks - {p} - {k} == ks - {k} - {p};
    }
  }

  lemma {:induction false} SumOverAgree(t: map<string, nat>, u: map<string, nat>, ks: set<string>)
    requires ks <= t.Keys && ks <= u.Keys
    requires forall k :: k in ks ==> t[k] == u[k]
    ensures SumOver(t, ks) == SumOver(u, ks)
    decreases ks
  {
    if ks != {} {
      SumOverAgree(t, u, ks - {Pick(ks)});
    }
  }

  /** The week totals add up to the number of tasks done. */
  lemma {:induction false} TotalsSum(entries: seq<Entry>, weekOf: string -> string)
    ensures SumOver(Totals(entries, weekOf), Totals(entries, weekOf).Keys) == |AllDone(entries)|
    decreases |entries|
  {
    if entries != [] {
      var init := entries[..|entries| - 1];
      var last := entries[|entries| - 1];
      var t := Totals(init, weekOf);
      var k := weekOf(last.0);
      var t' := Totals(entries, weekOf);
      TotalsSum(init, weekOf);
      if k in t {
        assert t'.Keys == t.Keys;
        SumOverRemove(t', t'.Keys, k);
        SumOverAgree(t', t, t.Keys - {k});
        SumOverRemove(t, t.Keys, k);
      } else {
        assert t'.Keys - {k} == t.Keys;
        SumOverRemove(t', t'.Keys, k);
        SumOverAgree(t', t, t.Keys);
      }
    }
  }

  lemma {:induction false} HeavyBound(t: map<string, nat>, ks: set<string>)
    requires ks <= t.Keys
    ensures BadgeThreshold * |HeavyIn(t, ks)| <= SumOver(t, ks)
    decreases ks
  {
    if ks == {} {
      assert HeavyIn(t, ks) == {};
    } else {
      var k := Pick(ks);
      HeavyBound(t, ks - {k});
      if t[k] >= BadgeThreshold {
        assert HeavyIn(t, ks) == HeavyIn(t, ks - {k}) + {k};
      } else {
        assert HeavyIn(t, ks) == HeavyIn(t, ks - {k});
      }
    }
  }

  /** There are never more badges than a tenth of the tasks done. */
  lemma BadgeBound(entries: seq<Entry>, weekOf: string -> string)
    ensures BadgeThreshold * Badges(Totals(entries, weekOf)) <= |AllDone(entries)|
  {
    TotalsSum(entries, weekOf);
    var t := Totals(entries, weekOf);
    HeavyBound(t, t.Keys);
  }

  /** Line 83. */
  function TotalXp(doneCount: nat): nat {
    doneCount * XpPerTask
  }

  /** Line 84: `Math.floor(totalXP / xpPerLevel) + 1`. */
  function Level(doneCount: nat): nat {
    TotalXp(doneCount) / XpPerLevel + 1
  }

  /** Line 85. */
  function XpInCurrent(doneCount: nat): nat {
    TotalXp(doneCount) % XpPerLevel
  }

  /** Every ten tasks make a level; the XP bar shows 250 per task beyond the last full level. */
  lemma XpBreakdown(doneCount: nat)
    ensures TotalXp(doneCount) == (Level(doneCount) - 1) * XpPerLevel + XpInCurrent(doneCount)
    ensures 0 <= XpInCurrent(doneCount) < XpPerLevel
    ensures Level(doneCount) == doneCount / 10 + 1
    ensures XpInCurrent(doneCount) == XpPerTask * (doneCount % 10)
  {
    var q, r := doneCount / 10, doneCount % 10;
    assert TotalXp(doneCount) == q * XpPerLevel + XpPerTask * r;
    assert TotalXp(doneCount) / XpPerLevel == q;
  }

  /** A `User` that completed `n` tasks shows the same XP and level as this screen does for `n` done tasks. */
  lemma UserAgreesWithProfile(doneCount: nat)
    ensures AfterTasks(doneCount) == (TotalXp(doneCount), Level(doneCount))
  {
    AfterTasksClosedForm(doneCount);
  }

  const Tiers := ["Bronze", "Silver", "Gold", "Platin"]

  /** Lines 119-132: `getNextBadgeName(badgeCount)`. */
  function NextBadgeName(badgeCount: int): (r: string)
    ensures 0 <= badgeCount < |Tiers| ==> r == "Next: " + Tiers[badgeCount] + " Deed"
    ensures badgeCount < 0 ==> r == "Next: " + Tiers[0] + " Deed"
    ensures badgeCount >= |Tiers| <==> r == "Max Level!"
  {
    if badgeCount < 1 then "Next: Bronze Deed"
    else if badgeCount < 2 then "Next: Silver Deed"
    else if badgeCount < 3 then "Next: Gold Deed"
    else if badgeCount < 4 then "Next: Platin Deed"
    else "Max Level!"
  }

  /** Line 200: `Math.max(0, 10 - doneTasks.length)`. */
  function RemainingDeeds(doneCount: nat): (r: nat)
    ensures doneCount < BadgeThreshold ==> doneCount + r == BadgeThreshold
    ensures doneCount >= BadgeThreshold ==> r == 0
  {
    if BadgeThreshold - doneCount > 0 then BadgeThreshold - doneCount else 0
  }

  /** One leaderboard row. */
  datatype Standing = Standing(name: string, deeds: int)

  predicate ByDeeds(s: seq<Standing>) {
    forall i, j :: 0 <= i < j < |s| ==> s[i].deeds >= s[j].deeds
  }

  method Swap(a: array<Standing>, i: nat, j: nat)
    requires i < j < a.Length
    modifies a
    ensures a[..] == old(a[..])[i := old(a[j])][j := old(a[i])]
    ensures multiset(a[..]) == old(multiset(a[..]))
  {
    a[i], a[j] := a[j], a[i];
  }

  /** Line 100: `users.sort((a, b) => b.Deeds - a.Deeds)`, in place. */
  method SortByDeeds(a: array<Standing>)
    modifies a
    ensures ByDeeds(a[..])
    ensures multiset(a[..]) == old(multiset(a[..]))
  {
    for i := 0 to a.Length
      invariant ByDeeds(a[..i])
      invariant multiset(a[..]) == old(multiset(a[..]))
    {
      SinkLeft(a, i);
    }
  }

  /** One insertion step: `a[i]` moves left past every row with fewer deeds. */
  method SinkLeft(a: array<Standing>, i: nat)
    requires i < a.Length && ByDeeds(a[..i])
    modifies a
    ensures ByDeeds(a[..i + 1])
    ensures multiset(a[..]) == old(multiset(a[..]))
  {
    var j := i;
    while j > 0 && a[j - 1].deeds < a[j].deeds
      invariant 0 <= j <= i
      invariant forall p, q :: 0 <= p < q <= i && p != j && q != j ==> a[p].deeds >= a[q].deeds
      invariant forall q :: j < q <= i ==> a[j].deeds > a[q].deeds
      invariant multiset(a[..]) == old(multiset(a[..]))
    {
      Swap(a, j - 1, j);
      j := j - 1;
    }
  }

  /** Lines 93-98: the three fixed rows and the viewer's own. */
  function Rows(doneCount: nat): seq<Standing> {
    [Standing("EmmaB03", 31), Standing("Antonino69", 63), Standing("Alexx01", 7), Standing("You", doneCount)]
  }

  /** Lines 93-100: the leaderboard shown. */
  method Leaderboard(doneCount: nat) returns (board: array<Standing>)
    ensures fresh(board)
    ensures ByDeeds(board[..]) && multiset(board[..]) == multiset(Rows(doneCount))
  {
    var rows := Rows(doneCount);
    board := new Standing[4](i requires 0 <= i < 4 => rows[i]);
    assert board[..] == rows;
    SortByDeeds(board);
  }
}
