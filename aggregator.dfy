/** The ranking aggregator (`updateRankings`): folds a user's comparison log
    into win and loss tallies, orders the compared items by win percentage,
    and writes each item's position back onto the user's watched list. */
module Aggregator {
  import opened Wrappers
  import opened Domain
  import StableSort

  // ---------------------------------------------------------------------
  // Specification of the tallies

  datatype Side = AsWinner | AsLoser

  function Party(c: Comparison, side: Side): MediaId
  {
    match side
    case AsWinner => c.winner
    case AsLoser => c.loser
  }

  /** How many comparisons of `log` have `id` on the given side. */
  function Count(log: seq<Comparison>, id: MediaId, side: Side): nat
  {
    if |log| == 0 then 0
    else Count(log[..|log| - 1], id, side) + (if Party(log[|log| - 1], side) == id then 1 else 0)
  }

  function Wins(log: seq<Comparison>, id: MediaId): nat { Count(log, id, AsWinner) }

  function Losses(log: seq<Comparison>, id: MediaId): nat { Count(log, id, AsLoser) }

  /** The ids of `log` in order of first appearance, the winner of each
      comparison before its loser: the iteration order of the source's
      insertion-ordered `mediaSet`. */
  function Seen(log: seq<Comparison>): seq<MediaId>
  {
    if |log| == 0 then []
    else
      var c := log[|log| - 1];
      AddNew(AddNew(Seen(log[..|log| - 1]), c.winner), c.loser)
  }

  /** wins / (wins + losses), and 0 when the item was never compared. */
  function WinPercentage(wins: nat, losses: nat): real
  {
    if wins + losses > 0 then wins as real / (wins + losses) as real else 0.0
  }

  /** One element of the returned ranking. */
  datatype Standing = Standing(mediaId: MediaId, winPercentage: real)

  function StandingOf(log: seq<Comparison>, id: MediaId): Standing
  {
    Standing(id, WinPercentage(Wins(log, id), Losses(log, id)))
  }

  /** The unsorted `rankings` array: one standing per seen id, in `Seen` order. */
  function Standings(log: seq<Comparison>): seq<Standing>
  {
    var ids := Seen(log);
    seq(|ids|, k requires 0 <= k < |ids| => StandingOf(log, ids[k]))
  }

  /** The sort key that makes the ascending stable sort order by win
      percentage, descending, as the comparator `b.winPercentage -
      a.winPercentage` does. */
  function DescendingKey(s: Standing): real { -s.winPercentage }

  /** The ranking `updateRankings` computes and returns. */
  function RankingOf(log: seq<Comparison>): seq<Standing>
  {
    StableSort.SortBy(Standings(log), DescendingKey)
  }

  function MediaIds(ranking: seq<Standing>): seq<MediaId>
  {
    seq(|ranking|, k requires 0 <= k < |ranking| => ranking[k].mediaId)
  }

  // ---------------------------------------------------------------------
  // Specification of the write-back

  /** `Array.prototype.findIndex` on the stored entries, by media id. */
  function FindIndex(entries: seq<WatchedEntry>, id: MediaId): (r: Option<nat>)
    ensures r.Some? ==> r.value < |entries| && entries[r.value].mediaId == id
    ensures r.Some? ==> forall k :: 0 <= k < r.value ==> entries[k].mediaId != id
    ensures r.None? ==> forall k :: 0 <= k < |entries| ==> entries[k].mediaId != id
  {
    if |entries| == 0 then None
    else if entries[0].mediaId == id then Some(0)
    else match FindIndex(entries[1..], id)
      case None => None
      case Some(k) => Some(k + 1)
  }

  /** Sets the rank of the first entry for `id`, if there is one. */
  function SetRank(entries: seq<WatchedEntry>, id: MediaId, rank: int): seq<WatchedEntry>
  {
    match FindIndex(entries, id)
    case None => entries
    case Some(k) => entries[k := entries[k].(rank := rank)]
  }

  /** The stored list after positions 0 .. |ranking|-1 have been written. */
  function WriteBack(entries: seq<WatchedEntry>, ranking: seq<Standing>): seq<WatchedEntry>
  {
    if |ranking| == 0 then entries
    else SetRank(WriteBack(entries, ranking[..|ranking| - 1]), ranking[|ranking| - 1].mediaId, |ranking|)
  }

  /** Entry `k` is the first one that carries its media id. */
  predicate IsFirstFor(entries: seq<WatchedEntry>, k: nat)
    requires k < |entries|
  {
    FindIndex(entries, entries[k].mediaId) == Some(k)
  }

  // ---------------------------------------------------------------------
  // The operations

  /** The `comparisons.forEach` loop: fills the `wins` and `losses` maps and
      the insertion-ordered set of seen ids. */
  method Tally(log: seq<Comparison>) returns (wins: map<MediaId, nat>, losses: map<MediaId, nat>, seen: seq<MediaId>)
    ensures seen == Seen(log)
    ensures forall id :: id in wins <==> id in seen
    ensures forall id :: id in losses <==> id in seen
    ensures forall id :: id in wins ==> wins[id] == Wins(log, id)
    ensures forall id :: id in losses ==> losses[id] == Losses(log, id)
  {
    wins, losses, seen := map[], map[], [];
    var i := 0;
    while i < |log|
      invariant 0 <= i <= |log|
      invariant TallyState(log[..i], wins, losses, seen)
    {
      var c := log[i];
      TallyStep(log, i, wins, losses, seen);
      // mediaSet.add(winnerId); mediaSet.add(loserId)
      seen := AddNew(AddNew(seen, c.winner), c.loser);
      // wins[winnerId]++ and losses[loserId]++, missing tallies starting at 0
      wins := Record(wins, c, AsWinner);
      losses := Record(losses, c, AsLoser);
      i := i + 1;
    }
    assert log[..|log|] == log;
    assert TallyState(log, wins, losses, seen);
  }

  /** `if (!m[id]) m[id] = 0`. */
  function StartAtZero(m: map<MediaId, nat>, id: MediaId): map<MediaId, nat>
  {
    if id in m then m else m[id := 0]
  }

  /** One iteration's update of one map: both parties' tallies start at 0 if
      missing (`if (!wins[id]) wins[id] = 0`, likewise for `losses`), then the
      party on `side` gains one (`wins[winnerId]++` or `losses[loserId]++`). */
  function Record(m: map<MediaId, nat>, c: Comparison, side: Side): map<MediaId, nat>
  {
    var m1 := StartAtZero(StartAtZero(m, c.winner), c.loser);
    m1[Party(c, side) := m1[Party(c, side)] + 1]
  }

  /** `m` holds, for exactly the ids of `seen`, their counts on `side` in `log`,
      and ids outside `seen` have count 0. */
  ghost predicate Tallied(m: map<MediaId, nat>, log: seq<Comparison>, side: Side, seen: seq<MediaId>)
  {
    && (forall id :: id in m <==> id in seen)
    && (forall id :: id in m ==> m[id] == Count(log, id, side))
    && (forall id :: id !in seen ==> Count(log, id, side) == 0)
  }

  /** The loop invariant of `Tally` after processing the comparisons `done`. */
  ghost predicate TallyState(done: seq<Comparison>, wins: map<MediaId, nat>, losses: map<MediaId, nat>, seen: seq<MediaId>)
  {
    seen == Seen(done) && Tallied(wins, done, AsWinner, seen) && Tallied(losses, done, AsLoser, seen)
  }

  lemma TallyStep(log: seq<Comparison>, i: nat, wins: map<MediaId, nat>, losses: map<MediaId, nat>, seen: seq<MediaId>)
    requires i < |log|
    requires TallyState(log[..i], wins, losses, seen)
    ensures TallyState(log[..i + 1], Record(wins, log[i], AsWinner), Record(losses, log[i], AsLoser),
                       AddNew(AddNew(seen, log[i].winner), log[i].loser))
  {
    assert log[..i + 1] == log[..i] + [log[i]];
    TalliedStep(wins, log[..i], log[i], AsWinner, seen);
    TalliedStep(losses, log[..i], log[i], AsLoser, seen);
  }

  /** Recording one more comparison keeps `Tallied`. */
  lemma TalliedStep(m: map<MediaId, nat>, done: seq<Comparison>, c: Comparison, side: Side, seen: seq<MediaId>)
    requires Tallied(m, done, side, seen)
    ensures Tallied(Record(m, c, side), done + [c], side, AddNew(AddNew(seen, c.winner), c.loser))
  {
    var log := done + [c];
    assert log[..|log| - 1] == done;
    var m2 := Record(m, c, side);
    var seen' := AddNew(AddNew(seen, c.winner), c.loser);
    forall id ensures Count(log, id, side) == Count(done, id, side) + (if Party(c, side) == id then 1 else 0) {
    }
    forall id ensures id in m2 <==> id in seen' {
    }
    forall id | id in m2 ensures m2[id] == Count(log, id, side) {
      if id != Party(c, side) && id in m {
        assert m2[id] == m[id];
      }
    }
  }

  /** Tallies the log and sorts the seen ids by win percentage. */
  method ComputeRanking(log: seq<Comparison>) returns (ranking: seq<Standing>)
    ensures ranking == RankingOf(log)
  {
    var wins, losses, seen := Tally(log);
    var standings := seq(|seen|, k requires 0 <= k < |seen| =>
      Standing(seen[k], WinPercentage(wins[seen[k]], losses[seen[k]])));
    assert standings == Standings(log);
    ranking := StableSort.SortBy(standings, DescendingKey);
  }

  /** `updateRankings`: recomputes the ranking from the whole log and sets
      `rank = i + 1` on the first stored entry of the i-th ranked id. */
  method UpdateRankings(user: User, log: seq<Comparison>) returns (ranking: seq<Standing>)
    modifies user
    ensures ranking == RankingOf(log)
    ensures user.rankings == WriteBack(old(user.rankings), ranking)
    ensures user.subscriptions == old(user.subscriptions)
  {
    ranking := ComputeRanking(log);
    var i := 0;
    while i < |ranking|
      invariant 0 <= i <= |ranking|
      invariant user.rankings == WriteBack(old(user.rankings), ranking[..i])
      invariant user.subscriptions == old(user.subscriptions)
    {
      assert ranking[..i + 1][..i] == ranking[..i];
      ghost var next := SetRank(user.rankings, ranking[i].mediaId, i + 1);
      assert WriteBack(old(user.rankings), ranking[..i + 1]) == next;
      var index := FindIndex(user.rankings, ranking[i].mediaId);
      if index.Some? {
        user.rankings := user.rankings[index.value := user.rankings[index.value].(rank := i + 1)];
      }
      assert user.rankings == next;
      i := i + 1;
    }
    assert ranking[..|ranking|] == ranking;
  }

  // ---------------------------------------------------------------------
  // Properties of the tallies

  /** An id is seen exactly when some comparison names it. */
  lemma {:induction false} SeenMembership(log: seq<Comparison>, id: MediaId)
    ensures id in Seen(log) <==> Wins(log, id) + Losses(log, id) >= 1
  {
    if |log| > 0 {
      SeenMembership(log[..|log| - 1], id);
    }
  }

  lemma {:induction false} SeenHasNoDuplicates(log: seq<Comparison>)
    ensures StableSort.NoDuplicates(Seen(log))
  {
    if |log| > 0 {
      SeenHasNoDuplicates(log[..|log| - 1]);
    }
  }

  /** Sum of one side's counts over a list of ids. */
  function Total(log: seq<Comparison>, ids: seq<MediaId>, side: Side): nat
  {
    if |ids| == 0 then 0 else Total(log, ids[..|ids| - 1], side) + Count(log, ids[|ids| - 1], side)
  }

  /** Adding one comparison adds one to the total over any duplicate-free list
      that contains its party, and nothing otherwise. */
  lemma {:induction false} TotalStep(log: seq<Comparison>, c: Comparison, ids: seq<MediaId>, side: Side)
    requires StableSort.NoDuplicates(ids)
    ensures Total(log + [c], ids, side) == Total(log, ids, side) + (if Party(c, side) in ids then 1 else 0)
  {
    if |ids| > 0 {
      var init := ids[..|ids| - 1];
      assert (log + [c])[..|log + [c]| - 1] == log;
      TotalStep(log, c, init, side);
      assert ids == init + [ids[|ids| - 1]];
      assert Party(c, side) in ids <==> Party(c, side) in init || Party(c, side) == ids[|ids| - 1];
      assert Party(c, side) == ids[|ids| - 1] ==> Party(c, side) !in init;
    }
  }

  /** Appending an id that never occurs in the log leaves the total unchanged. */
  lemma TotalAddNew(log: seq<Comparison>, ids: seq<MediaId>, x: MediaId, side: Side)
    requires x !in Seen(log)
    ensures Total(log, AddNew(ids, x), side) == Total(log, ids, side)
  {
    SeenMembership(log, x);
    if x !in ids {
      assert (ids + [x])[..|ids + [x]| - 1] == ids;
    }
  }

  /** Total wins and total losses over the seen ids both equal the number of
      comparisons. */
  lemma {:induction false} TalliesSumToLogLength(log: seq<Comparison>, side: Side)
    ensures Total(log, Seen(log), side) == |log|
  {
    if |log| > 0 {
      var init := log[..|log| - 1];
      var c := log[|log| - 1];
      assert log == init + [c];
      TalliesSumToLogLength(init, side);
      var s0 := Seen(init);
      var s1 := AddNew(s0, c.winner);
      var s2 := AddNew(s1, c.loser);
      // In the shorter log every new id has count 0.
      if c.winner !in s0 { TotalAddNew(init, s0, c.winner, side); }
      if c.loser !in s1 {
        assert c.loser !in s0;
        TotalAddNew(init, s1, c.loser, side);
      }
      assert Total(init, s2, side) == |init|;
      SeenHasNoDuplicates(log);
      TotalStep(init, c, s2, side);
      assert Party(c, side) in s2;
    }
  }

  /** Both sides' totals: wins and losses each sum to the log length. */
  lemma WinsAndLossesSumToLogLength(log: seq<Comparison>)
    ensures Total(log, Seen(log), AsWinner) == |log|
    ensures Total(log, Seen(log), AsLoser) == |log|
  {
    TalliesSumToLogLength(log, AsWinner);
    TalliesSumToLogLength(log, AsLoser);
  }

  /** The win percentage of a compared item lies in [0, 1]; it is 1 exactly
      when the item never lost and 0 exactly when it never won. */
  lemma WinPercentageBounds(wins: nat, losses: nat)
    requires wins + losses >= 1
    ensures 0.0 <= WinPercentage(wins, losses) <= 1.0
    ensures WinPercentage(wins, losses) == 1.0 <==> losses == 0
    ensures WinPercentage(wins, losses) == 0.0 <==> wins == 0
  {
    var t := (wins + losses) as real;
    var w := wins as real;
    var p := w / t;
    assert t > 0.0;
    assert p * t == w;
    assert w <= t;
    assert (1.0 - p) * t == t - w;
    if p == 1.0 {
      assert w == t;
    }
    if losses == 0 {
      assert w == t;
      assert p == 1.0;
    }
    if p == 0.0 {
      assert w == 0.0;
    }
    if wins == 0 {
      assert p == 0.0;
    }
  }

  // ---------------------------------------------------------------------
  // Properties of the ranking

  lemma StandingsFacts(log: seq<Comparison>)
    ensures |Standings(log)| == |Seen(log)|
    ensures MediaIds(Standings(log)) == Seen(log)
    ensures StableSort.NoDuplicates(Standings(log))
  {
    SeenHasNoDuplicates(log);
    var s := Standings(log);
    assert MediaIds(s) == Seen(log);
  }

  /** The ranking lists every compared id exactly once, with its own win
      percentage, in non-increasing order of win percentage. */
  lemma RankingIsSortedPermutationOfSeen(log: seq<Comparison>)
    ensures |RankingOf(log)| == |Seen(log)|
    ensures forall id :: id in MediaIds(RankingOf(log)) <==> id in Seen(log)
    ensures StableSort.NoDuplicates(MediaIds(RankingOf(log)))
    ensures forall k :: 0 <= k < |RankingOf(log)| ==> RankingOf(log)[k] == StandingOf(log, RankingOf(log)[k].mediaId)
    ensures forall i, j :: 0 <= i < j < |RankingOf(log)| ==>
      RankingOf(log)[i].winPercentage >= RankingOf(log)[j].winPercentage
  {
    RankingIsSorted(log);
    RankingHoldsSeen(log);
  }

  /** Each place holds its id's own standing, best first. */
  lemma RankingIsSorted(log: seq<Comparison>)
    ensures |RankingOf(log)| == |Seen(log)|
    ensures forall k :: 0 <= k < |RankingOf(log)| ==> RankingOf(log)[k] == StandingOf(log, RankingOf(log)[k].mediaId)
    ensures forall i, j :: 0 <= i < j < |RankingOf(log)| ==>
      RankingOf(log)[i].winPercentage >= RankingOf(log)[j].winPercentage
  {
    var s := Standings(log);
    var r := RankingOf(log);
    StandingsFacts(log);
    StableSort.SortByIsSortedPermutation(s, DescendingKey);
    StableSort.SortByMembership(s, DescendingKey);
    forall i, j | 0 <= i < j < |r| ensures r[i].winPercentage >= r[j].winPercentage {
      assert DescendingKey(r[i]) <= DescendingKey(r[j]);
    }
    forall k | 0 <= k < |r| ensures r[k] == StandingOf(log, r[k].mediaId) {
      assert r[k] in s;
    }
  }

  /** The ranked ids are the seen ids, each once. */
  lemma RankingHoldsSeen(log: seq<Comparison>)
    ensures forall id :: id in MediaIds(RankingOf(log)) <==> id in Seen(log)
    ensures StableSort.NoDuplicates(MediaIds(RankingOf(log)))
  {
    RankingIdsAreSeen(log);
    RankingIdsAreDistinct(log);
  }

  lemma RankingIdsAreSeen(log: seq<Comparison>)
    ensures forall id :: id in MediaIds(RankingOf(log)) <==> id in Seen(log)
  {
    var s := Standings(log);
    var r := RankingOf(log);
    StandingsFacts(log);
    StableSort.SortByMembership(s, DescendingKey);
    forall id | id in MediaIds(r) ensures id in Seen(log) {
      var k :| 0 <= k < |r| && MediaIds(r)[k] == id;
      assert r[k] in s;
      var m :| 0 <= m < |s| && s[m] == r[k];
      assert Seen(log)[m] == id;
    }
    forall id | id in Seen(log) ensures id in MediaIds(r) {
      var m :| 0 <= m < |s| && Seen(log)[m] == id;
      assert s[m] in r;
      var k :| 0 <= k < |r| && r[k] == s[m];
      assert MediaIds(r)[k] == id;
    }
  }

  lemma RankingIdsAreDistinct(log: seq<Comparison>)
    ensures StableSort.NoDuplicates(MediaIds(RankingOf(log)))
  {
    var s := Standings(log);
    var r := RankingOf(log);
    StandingsFacts(log);
    RankingIsSorted(log);
    StableSort.SortByIsSortedPermutation(s, DescendingKey);
    forall i, j | 0 <= i < j < |r| ensures MediaIds(r)[i] != MediaIds(r)[j] {
      PermutationKeepsDistinct(s, r, i, j);
      assert r[i] == StandingOf(log, MediaIds(r)[i]) && r[j] == StandingOf(log, MediaIds(r)[j]);
    }
  }

  /** A permutation of a duplicate-free sequence is duplicate-free. */
  lemma PermutationKeepsDistinct(s: seq<Standing>, r: seq<Standing>, i: nat, j: nat)
    requires StableSort.NoDuplicates(s) && multiset(r) == multiset(s)
    requires i < j < |r|
    ensures r[i] != r[j]
  {
    var x := r[i];
    CountAtMostOne(s, x);
    assert r == r[..j] + [r[j]] + r[j + 1..];
    assert x in r[..j];
    assert multiset(r)[x] == multiset(r[..j])[x] + multiset([r[j]])[x] + multiset(r[j + 1..])[x];
  }

  lemma {:induction false} CountAtMostOne(s: seq<Standing>, x: Standing)
    requires StableSort.NoDuplicates(s)
    ensures multiset(s)[x] <= 1
  {
    if |s| > 0 {
      StableSort.TailOfNoDuplicates(s);
      CountAtMostOne(s[1..], x);
      assert s == [s[0]] + s[1..];
      if s[0] == x {
        assert x !in multiset(s[1..]);
      }
    }
  }

  /** Ties keep first-appearance order: of two ids with equal win percentage,
      the one that appears first in the log is ranked first. */
  lemma RankingTiesKeepFirstAppearance(log: seq<Comparison>, i: nat, j: nat)
    requires i < j < |RankingOf(log)|
    requires RankingOf(log)[i].winPercentage == RankingOf(log)[j].winPercentage
    ensures RankingOf(log)[i].mediaId in Seen(log) && RankingOf(log)[j].mediaId in Seen(log)
    ensures StableSort.IndexOf(Seen(log), RankingOf(log)[i].mediaId)
          < StableSort.IndexOf(Seen(log), RankingOf(log)[j].mediaId)
  {
    var s := Standings(log);
    var r := RankingOf(log);
    StandingsFacts(log);
    StableSort.SortByIsStable(s, DescendingKey, i, j);
    StandingIndex(log, r[i]);
    StandingIndex(log, r[j]);
  }

  /** In the unsorted array, a standing sits at the position of its id in `Seen`. */
  lemma StandingIndex(log: seq<Comparison>, x: Standing)
    requires x in Standings(log)
    ensures x.mediaId in Seen(log)
    ensures StableSort.IndexOf(Standings(log), x) == StableSort.IndexOf(Seen(log), x.mediaId)
  {
    var s := Standings(log);
    StandingsFacts(log);
    var m := StableSort.IndexOf(s, x);
    assert Seen(log)[m] == x.mediaId;
    var n := StableSort.IndexOf(Seen(log), x.mediaId);
    assert s[n] == StandingOf(log, x.mediaId) == x;
  }

  /** The worked example: A beats B, A beats C, C beats B. */
  const ExampleLog := [Comparison("A", "B"), Comparison("A", "C"), Comparison("C", "B")]

  lemma ExampleTallies()
    ensures Seen(ExampleLog) == ["A", "B", "C"]
    ensures Wins(ExampleLog, "A") == 2 && Losses(ExampleLog, "A") == 0
    ensures Wins(ExampleLog, "B") == 0 && Losses(ExampleLog, "B") == 2
    ensures Wins(ExampleLog, "C") == 1 && Losses(ExampleLog, "C") == 1
  {
    var log1 := [Comparison("A", "B")];
    var log2 := log1 + [Comparison("A", "C")];
    var log := ExampleLog;
    assert log[..2] == log2 && log2[..1] == log1 && log1[..0] == [];
    assert Seen(log1) == ["A", "B"];
    assert Seen(log2) == ["A", "B", "C"];
    assert Count(log1, "A", AsWinner) == 1 && Count(log1, "B", AsLoser) == 1;
    assert Count(log1, "A", AsLoser) == 0 && Count(log1, "B", AsWinner) == 0;
    assert Count(log1, "C", AsLoser) == 0 && Count(log1, "C", AsWinner) == 0;
    assert Count(log2, "A", AsWinner) == 2 && Count(log2, "A", AsLoser) == 0;
    assert Count(log2, "B", AsWinner) == 0 && Count(log2, "B", AsLoser) == 1;
    assert Count(log2, "C", AsWinner) == 0 && Count(log2, "C", AsLoser) == 1;
  }

  lemma ExampleStandingOf()
    ensures StandingOf(ExampleLog, "A") == Standing("A", 1.0)
    ensures StandingOf(ExampleLog, "B") == Standing("B", 0.0)
    ensures StandingOf(ExampleLog, "C") == Standing("C", 0.5)
  {
    ExampleTallies();
    assert WinPercentage(1, 1) == 1.0 / 2.0;
  }

  lemma ExampleStandings()
    ensures Standings(ExampleLog) == [Standing("A", 1.0), Standing("B", 0.0), Standing("C", 0.5)]
  {
    ExampleTallies();
    ExampleStandingOf();
    var ids := Seen(ExampleLog);
    var s := Standings(ExampleLog);
    assert |s| == 3;
    assert s[0] == StandingOf(ExampleLog, ids[0]);
    assert s[1] == StandingOf(ExampleLog, ids[1]);
    assert s[2] == StandingOf(ExampleLog, ids[2]);
  }

  lemma ExampleSort()
    ensures StableSort.SortBy([Standing("A", 1.0), Standing("B", 0.0), Standing("C", 0.5)], DescendingKey)
      == [Standing("A", 1.0), Standing("C", 0.5), Standing("B", 0.0)]
  {
    var s := [Standing("A", 1.0), Standing("B", 0.0), Standing("C", 0.5)];
    assert s[1..][0] == s[1] && s[1..][1..] == s[2..] && s[2..][1..] == [];
    assert StableSort.SortBy(s[2..], DescendingKey) == [Standing("C", 0.5)];
    var c := [Standing("C", 0.5)];
    assert c[1..] == [];
    assert StableSort.Insert(Standing("B", 0.0), c[1..], DescendingKey) == [Standing("B", 0.0)];
    assert StableSort.Insert(Standing("B", 0.0), c, DescendingKey) == [Standing("C", 0.5), Standing("B", 0.0)];
    assert StableSort.SortBy(s[1..], DescendingKey) == [Standing("C", 0.5), Standing("B", 0.0)];
  }

  /** The example ranks A (1.0) first, C (0.5) second and B (0.0) third. */
  lemma ExampleRanking()
    ensures MediaIds(RankingOf(ExampleLog)) == ["A", "C", "B"]
  {
    ExampleStandings();
    ExampleSort();
  }

  // ---------------------------------------------------------------------
  // Properties of the write-back

  /** `SetRank` touches only the rank of the first entry for `id`. */
  lemma SetRankEffect(entries: seq<WatchedEntry>, id: MediaId, rank: int)
    ensures |SetRank(entries, id, rank)| == |entries|
    ensures forall k :: 0 <= k < |entries| ==>
      SetRank(entries, id, rank)[k].mediaId == entries[k].mediaId &&
      SetRank(entries, id, rank)[k].watchedOn == entries[k].watchedOn &&
      SetRank(entries, id, rank)[k].rank ==
        (if FindIndex(entries, id) == Some(k) then rank else entries[k].rank)
  {
  }

  /** `FindIndex` only looks at media ids. */
  lemma {:induction false} FindIndexOnIds(a: seq<WatchedEntry>, b: seq<WatchedEntry>, id: MediaId)
    requires |a| == |b|
    requires forall k :: 0 <= k < |a| ==> a[k].mediaId == b[k].mediaId
    ensures FindIndex(a, id) == FindIndex(b, id)
  {
    if |a| > 0 && a[0].mediaId != id {
      FindIndexOnIds(a[1..], b[1..], id);
    }
  }

  /** What the write-back does, entry by entry: length, order, media ids and
      platforms are kept; the first entry of the id at ranking position i gets
      rank i + 1; every other entry keeps its rank. */
  lemma {:induction false} WriteBackEffect(entries: seq<WatchedEntry>, ranking: seq<Standing>)
    requires StableSort.NoDuplicates(MediaIds(ranking))
    ensures |WriteBack(entries, ranking)| == |entries|
    ensures forall k :: 0 <= k < |entries| ==>
      WriteBack(entries, ranking)[k].mediaId == entries[k].mediaId &&
      WriteBack(entries, ranking)[k].watchedOn == entries[k].watchedOn &&
      WriteBack(entries, ranking)[k].rank == RankAfter(entries, MediaIds(ranking), k)
  {
    if |ranking| > 0 {
      var n := |ranking|;
      var init := ranking[..n - 1];
      var id := ranking[n - 1].mediaId;
      assert MediaIds(ranking) == MediaIds(init) + [id];
      assert forall a :: 0 <= a < n - 1 ==> MediaIds(init)[a] == MediaIds(ranking)[a];
      assert StableSort.NoDuplicates(MediaIds(init));
      assert id !in MediaIds(init) by {
        assert forall a :: 0 <= a < n - 1 ==> MediaIds(ranking)[a] != MediaIds(ranking)[n - 1];
      }
      WriteBackEffect(entries, init);
      var mid := WriteBack(entries, init);
      SetRankEffect(mid, id, n);
      FindIndexOnIds(mid, entries, id);
      forall k | 0 <= k < |entries|
        ensures WriteBack(entries, ranking)[k].rank == RankAfter(entries, MediaIds(ranking), k)
      {
        WriteBackStep(entries, MediaIds(init), id, k, mid[k].rank, WriteBack(entries, ranking)[k].rank);
      }
    }
  }

  /** The rank entry `k` ends up with when the ids of `ids` are written back. */
  function RankAfter(entries: seq<WatchedEntry>, ids: seq<MediaId>, k: nat): int
    requires k < |entries|
  {
    if IsFirstFor(entries, k) && entries[k].mediaId in ids
    then StableSort.IndexOf(ids, entries[k].mediaId) + 1
    else entries[k].rank
  }

  /** One step of `WriteBackEffect`: writing id `id` at position |ids|. */
  lemma WriteBackStep(entries: seq<WatchedEntry>, ids: seq<MediaId>, id: MediaId, k: nat, before: int, after: int)
    requires k < |entries|
    requires id !in ids
    requires before == RankAfter(entries, ids, k)
    requires after == if FindIndex(entries, id) == Some(k) then |ids| + 1 else before
    ensures after == RankAfter(entries, ids + [id], k)
  {
    if FindIndex(entries, id) == Some(k) {
      IndexOfLast(ids, id);
    } else if entries[k].mediaId in ids {
      IndexOfPrefix(ids, id, entries[k].mediaId);
    }
  }

  lemma IndexOfLast(s: seq<MediaId>, x: MediaId)
    requires x !in s
    ensures StableSort.IndexOf(s + [x], x) == |s|
  {
    assert forall m :: 0 <= m < |s| ==> (s + [x])[m] == s[m] != x;
    assert (s + [x])[|s|] == x;
  }

  lemma IndexOfPrefix(s: seq<MediaId>, x: MediaId, y: MediaId)
    requires y in s
    ensures StableSort.IndexOf(s + [x], y) == StableSort.IndexOf(s, y)
  {
    var b := StableSort.IndexOf(s, y);
    assert forall m :: 0 <= m < b ==> (s + [x])[m] == s[m] != y;
    assert (s + [x])[b] == y;
  }

  /** Running the aggregator twice on the same log assigns the same ranks as
      running it once. */
  lemma UpdateIsIdempotent(entries: seq<WatchedEntry>, log: seq<Comparison>)
    ensures WriteBack(WriteBack(entries, RankingOf(log)), RankingOf(log)) == WriteBack(entries, RankingOf(log))
  {
    var r := RankingOf(log);
    RankingIsSortedPermutationOfSeen(log);
    var once := WriteBack(entries, r);
    WriteBackEffect(entries, r);
    WriteBackEffect(once, r);
    var twice := WriteBack(once, r);
    forall k | 0 <= k < |entries| ensures twice[k] == once[k] {
      FindIndexOnIds(once, entries, entries[k].mediaId);
    }
  }

  /** An empty comparison log leaves every stored entry as it was. */
  lemma EmptyLogChangesNothing(entries: seq<WatchedEntry>)
    ensures RankingOf([]) == []
    ensures WriteBack(entries, RankingOf([])) == entries
  {
  }
}
