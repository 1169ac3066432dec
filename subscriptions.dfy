/** The subscription recommender (`generateSubscriptionRecommendations`):
    counts the watched media on each streaming platform, picks platforms
    greedily by how many not-yet-covered media each adds, and reports the
    coverage of the user's current subscriptions and of the picks. */
module SubscriptionOptimizer {
  import opened Wrappers
  import opened Domain

  // ---------------------------------------------------------------------
  // Counting media per platform

  /** The platforms of an entry; an entry whose media document is missing
      contributes none. */
  function PlatformsOf(e: PopulatedEntry): seq<string>
  {
    if e.media.Some? then e.media.value.platforms else []
  }

  /** `Object.keys(platformCounts)`: platforms in order of first appearance. */
  function PlatformOrder(entries: seq<PopulatedEntry>): seq<string>
  {
    if |entries| == 0 then []
    else AddAll(PlatformOrder(entries[..|entries| - 1]), PlatformsOf(entries[|entries| - 1]))
  }

  /** `platformCounts[p]`: every listing of `p` counts, so a media listing a
      platform twice, or watched twice, counts twice. */
  function PlatformCount(entries: seq<PopulatedEntry>, p: string): nat
  {
    if |entries| == 0 then 0
    else PlatformCount(entries[..|entries| - 1], p) + Occurrences(PlatformsOf(entries[|entries| - 1]), p)
  }

  /** `platformMediaIds[p]`: the distinct media available on `p`. */
  function MediaOn(entries: seq<PopulatedEntry>, p: string): set<MediaId>
  {
    if |entries| == 0 then {}
    else
      var e := entries[|entries| - 1];
      MediaOn(entries[..|entries| - 1], p)
        + (if e.media.Some? && p in e.media.value.platforms then {e.media.value.id} else {})
  }

  function CountMap(entries: seq<PopulatedEntry>): map<string, nat>
  {
    map p | p in PlatformOrder(entries) :: PlatformCount(entries, p)
  }

  function MediaMap(entries: seq<PopulatedEntry>): map<string, set<MediaId>>
  {
    map p | p in PlatformOrder(entries) :: MediaOn(entries, p)
  }

  /** The maps after the entries `done`. */
  ghost predicate Counted(counts: map<string, nat>, ids: map<string, set<MediaId>>, order: seq<string>,
                          done: seq<PopulatedEntry>)
  {
    && order == PlatformOrder(done)
    && (forall p :: p in counts <==> p in order)
    && (forall p :: p in ids <==> p in order)
    && (forall p :: p in counts ==> counts[p] == PlatformCount(done, p))
    && (forall p :: p in ids ==> ids[p] == MediaOn(done, p))
  }

  /** The maps while the entry after `done`, with media id `id`, is being
      counted: `ps` are its platforms walked so far. */
  ghost predicate Counting(counts: map<string, nat>, ids: map<string, set<MediaId>>, order: seq<string>,
                           done: seq<PopulatedEntry>, ps: seq<string>, id: MediaId)
  {
    && order == AddAll(PlatformOrder(done), ps)
    && KeyedBy(counts, ids, order)
    && CountsSoFar(counts, done, ps)
    && MediaSoFar(ids, done, ps, id)
  }

  ghost predicate KeyedBy(counts: map<string, nat>, ids: map<string, set<MediaId>>, order: seq<string>)
  {
    (forall p :: p in counts <==> p in order) && (forall p :: p in ids <==> p in order)
  }

  ghost predicate CountsSoFar(counts: map<string, nat>, done: seq<PopulatedEntry>, ps: seq<string>)
  {
    forall p :: p in counts ==> counts[p] == PlatformCount(done, p) + Occurrences(ps, p)
  }

  ghost predicate MediaSoFar(ids: map<string, set<MediaId>>, done: seq<PopulatedEntry>, ps: seq<string>, id: MediaId)
  {
    forall p :: p in ids ==> ids[p] == MediaOn(done, p) + (if p in ps then {id} else {})
  }

  /** `if (!platformCounts[p]) platformCounts[p] = 0; platformCounts[p]++`. */
  function Bump(counts: map<string, nat>, p: string): map<string, nat>
  {
    counts[p := (if p in counts then counts[p] else 0) + 1]
  }

  /** `platformMediaIds[p].add(id)`, creating the set first if needed. */
  function Include(ids: map<string, set<MediaId>>, p: string, id: MediaId): map<string, set<MediaId>>
  {
    ids[p := (if p in ids then ids[p] else {}) + {id}]
  }

  /** The first `forEach`: the per-platform counts and media sets, and the
      platforms in key order. */
  method CountPlatforms(entries: seq<PopulatedEntry>)
    returns (counts: map<string, nat>, ids: map<string, set<MediaId>>, order: seq<string>)
    ensures order == PlatformOrder(entries)
    ensures counts == CountMap(entries) && ids == MediaMap(entries)
  {
    counts, ids, order := map[], map[], [];
    var i := 0;
    while i < |entries|
      invariant 0 <= i <= |entries|
      invariant Counted(counts, ids, order, entries[..i])
    {
      var e := entries[i];
      if e.media.None? {
        CountSkipStep(counts, ids, order, entries, i);
        i := i + 1;
        continue;
      }
      var m := e.media.value;
      var j := 0;
      while j < |m.platforms|
        invariant 0 <= j <= |m.platforms|
        invariant Counting(counts, ids, order, entries[..i], m.platforms[..j], m.id)
      {
        CountPushStep(counts, ids, order, entries[..i], m.platforms, j, m.id);
        var p := m.platforms[j];
        order := AddNew(order, p);
        counts := Bump(counts, p);
        ids := Include(ids, p, m.id);
        j := j + 1;
      }
      CountEntryStep(counts, ids, order, entries, i);
      i := i + 1;
    }
    CountDone(counts, ids, order, entries);
  }

  lemma CountDone(counts: map<string, nat>, ids: map<string, set<MediaId>>, order: seq<string>,
                  entries: seq<PopulatedEntry>)
    requires Counted(counts, ids, order, entries[..|entries|])
    ensures order == PlatformOrder(entries)
    ensures counts == CountMap(entries) && ids == MediaMap(entries)
  {
    assert entries[..|entries|] == entries;
    CountedMaps(counts, ids, order, entries);
  }

  /** The maps after all entries are the ones the functions describe. */
  lemma CountedMaps(counts: map<string, nat>, ids: map<string, set<MediaId>>, order: seq<string>,
                    done: seq<PopulatedEntry>)
    requires Counted(counts, ids, order, done)
    ensures order == PlatformOrder(done)
    ensures counts == CountMap(done) && ids == MediaMap(done)
  {
  }

  /** A platform outside the key order has no listings and no media. */
  lemma {:induction false} AbsentPlatform(entries: seq<PopulatedEntry>, p: string)
    requires p !in PlatformOrder(entries)
    ensures PlatformCount(entries, p) == 0 && MediaOn(entries, p) == {}
  {
    if |entries| > 0 {
      var init := entries[..|entries| - 1];
      var ps := PlatformsOf(entries[|entries| - 1]);
      AddAllMembership(PlatformOrder(init), ps, p);
      AbsentPlatform(init, p);
      OccurrencesOfAbsent(ps, p);
    }
  }

  lemma CountPushStep(counts: map<string, nat>, ids: map<string, set<MediaId>>, order: seq<string>,
                      done: seq<PopulatedEntry>, ps: seq<string>, j: nat, id: MediaId)
    requires j < |ps|
    requires Counting(counts, ids, order, done, ps[..j], id)
    ensures Counting(Bump(counts, ps[j]), Include(ids, ps[j], id), AddNew(order, ps[j]), done, ps[..j + 1], id)
  {
    var walked := ps[..j + 1];
    var p := ps[j];
    assert walked == ps[..j] + [p];
    assert walked[..j] == ps[..j];
    assert AddNew(order, p) == AddAll(PlatformOrder(done), walked);
    if p !in counts {
      AddAllMembership(PlatformOrder(done), ps[..j], p);
      AbsentPlatform(done, p);
      OccurrencesOfAbsent(ps[..j], p);
    }
    PushCounts(counts, done, ps[..j], p, walked);
    PushIds(ids, done, ps[..j], p, walked, id);
  }

  lemma PushCounts(counts: map<string, nat>, done: seq<PopulatedEntry>, walked: seq<string>, p: string, next: seq<string>)
    requires next == walked + [p]
    requires CountsSoFar(counts, done, walked)
    requires p !in counts ==> PlatformCount(done, p) + Occurrences(walked, p) == 0
    ensures CountsSoFar(Bump(counts, p), done, next)
  {
    assert next[..|next| - 1] == walked;
  }

  lemma PushIds(ids: map<string, set<MediaId>>, done: seq<PopulatedEntry>, walked: seq<string>, p: string,
                next: seq<string>, id: MediaId)
    requires next == walked + [p]
    requires MediaSoFar(ids, done, walked, id)
    requires p !in ids ==> MediaOn(done, p) == {} && p !in walked
    ensures MediaSoFar(Include(ids, p, id), done, next, id)
  {
    forall q ensures q in next <==> q in walked || q == p { }
  }

  lemma CountEntryStep(counts: map<string, nat>, ids: map<string, set<MediaId>>, order: seq<string>,
                       entries: seq<PopulatedEntry>, i: nat)
    requires i < |entries| && entries[i].media.Some?
    requires Counting(counts, ids, order, entries[..i],
                      entries[i].media.value.platforms[..|entries[i].media.value.platforms|], entries[i].media.value.id)
    ensures Counted(counts, ids, order, entries[..i + 1])
  {
    var ps := entries[i].media.value.platforms;
    assert ps[..|ps|] == ps;
    assert entries[..i + 1][..i] == entries[..i];
    assert entries[..i + 1][i] == entries[i];
  }

  lemma CountSkipStep(counts: map<string, nat>, ids: map<string, set<MediaId>>, order: seq<string>,
                      entries: seq<PopulatedEntry>, i: nat)
    requires i < |entries| && entries[i].media.None?
    requires Counted(counts, ids, order, entries[..i])
    ensures Counted(counts, ids, order, entries[..i + 1])
  {
    assert entries[..i + 1][..i] == entries[..i];
    assert entries[..i + 1][i] == entries[i];
  }

  // ---------------------------------------------------------------------
  // The greedy selection

  function Lookup(ids: map<string, set<MediaId>>, p: string): set<MediaId>
  {
    if p in ids then ids[p] else {}
  }

  /** The media covered by subscribing to `platforms`. */
  function Covered(ids: map<string, set<MediaId>>, platforms: seq<string>): set<MediaId>
  {
    if |platforms| == 0 then {}
    else Covered(ids, platforms[..|platforms| - 1]) + Lookup(ids, platforms[|platforms| - 1])
  }

  /** `newCoverage`: the media of `p` not yet covered. */
  function Gain(ids: map<string, set<MediaId>>, p: string, covered: set<MediaId>): nat
  {
    |Lookup(ids, p) - covered|
  }

  /** One scan of the candidate loop over `order`: the first unselected
      platform with the largest positive gain, or none when no platform
      gains anything. */
  function Best(order: seq<string>, selected: seq<string>, ids: map<string, set<MediaId>>, covered: set<MediaId>)
    : (r: (Option<string>, nat))
    ensures r.1 > 0 <==> r.0.Some?
    ensures r.0.Some? ==> r.0.value in order && r.0.value !in selected && r.1 == Gain(ids, r.0.value, covered)
  {
    if |order| == 0 then (None, 0)
    else
      var prev := Best(order[..|order| - 1], selected, ids, covered);
      var p := order[|order| - 1];
      if p !in selected && Gain(ids, p, covered) > prev.1 then (Some(p), Gain(ids, p, covered)) else prev
  }

  /** The `while (true)` loop from the picks `selected` on: pick the best
      platform until none adds coverage. */
  function Greedy(order: seq<string>, ids: map<string, set<MediaId>>, selected: seq<string>): seq<string>
    decreases Unpicked(order, selected)
  {
    var best := Best(order, selected, ids, Covered(ids, selected));
    if best.1 == 0 then selected
    else
      UnpickedShrinks(order, selected, best.0.value);
      Greedy(order, ids, selected + [best.0.value])
  }

  /** The platforms of `order` not yet picked. */
  function Unpicked(order: seq<string>, selected: seq<string>): set<string>
  {
    (set p | p in order) - (set p | p in selected)
  }

  lemma UnpickedShrinks(order: seq<string>, selected: seq<string>, p: string)
    requires p in order && p !in selected
    ensures Unpicked(order, selected + [p]) < Unpicked(order, selected)
    ensures |Unpicked(order, selected + [p])| == |Unpicked(order, selected)| - 1
  {
    assert Unpicked(order, selected + [p]) == Unpicked(order, selected) - {p};
  }

  /** The inner `for` over a platform's media set, counting those not covered. */
  method CountNew(media: set<MediaId>, covered: set<MediaId>) returns (n: nat)
    ensures n == |media - covered|
  {
    n := 0;
    var rest := media;
    while rest != {}
      invariant rest <= media
      invariant n == |(media - rest) - covered|
      decreases rest
    {
      var x :| x in rest;
      NewStep(media, rest, covered, x);
      if x !in covered {
        n := n + 1;
      }
      rest := rest - {x};
    }
    assert media - rest == media;
  }

  lemma NewStep(media: set<MediaId>, rest: set<MediaId>, covered: set<MediaId>, x: MediaId)
    requires x in rest
    ensures |(media - (rest - {x})) - covered| == |(media - rest) - covered| + (if x in covered || x !in media then 0 else 1)
  {
    var before := (media - rest) - covered;
    var after := (media - (rest - {x})) - covered;
    if x in covered || x !in media {
      assert after == before;
    } else {
      assert x !in before;
      assert after == before + {x};
    }
  }

  lemma AbsorbStep(covered: set<MediaId>, media: set<MediaId>, rest: set<MediaId>, result: set<MediaId>, x: MediaId)
    requires x in rest && rest <= media && result == covered + (media - rest)
    ensures covered + (media - (rest - {x})) == result + {x}
    ensures x !in result ==> |result + {x}| == |result| + 1
    ensures x in result ==> result + {x} == result
  {
  }

  /** Adding a platform's media set to a covered set one id at a time,
      counting the ids that were new. */
  method Absorb(covered: set<MediaId>, media: set<MediaId>) returns (result: set<MediaId>, added: nat)
    ensures result == covered + media
    ensures |result| == |covered| + added
  {
    result, added := covered, 0;
    var rest := media;
    while rest != {}
      invariant rest <= media
      invariant result == covered + (media - rest)
      invariant |result| == |covered| + added
      decreases rest
    {
      var x :| x in rest;
      AbsorbStep(covered, media, rest, result, x);
      if x !in result {
        result := result + {x};
        added := added + 1;
      }
      rest := rest - {x};
    }
    assert media - rest == media;
  }

  /** The `for` over the candidates: the first unselected platform with the
      largest positive gain. */
  method ScanBest(order: seq<string>, selected: seq<string>, ids: map<string, set<MediaId>>, covered: set<MediaId>)
    returns (best: Option<string>, bestGain: nat)
    requires forall p :: p in order ==> p in ids
    ensures (best, bestGain) == Best(order, selected, ids, covered)
  {
    best, bestGain := None, 0;
    var k := 0;
    while k < |order|
      invariant 0 <= k <= |order|
      invariant (best, bestGain) == Best(order[..k], selected, ids, covered)
    {
      var p := order[k];
      assert order[..k + 1][..k] == order[..k];
      if p !in selected {
        var gain := CountNew(ids[p], covered);
        if gain > bestGain {
          best, bestGain := Some(p), gain;
        }
      }
      k := k + 1;
    }
    assert order[..|order|] == order;
  }

  /** The greedy loop: returns the picks and the media they cover. */
  method SelectPlatforms(order: seq<string>, ids: map<string, set<MediaId>>)
    returns (selected: seq<string>, covered: set<MediaId>)
    requires forall p :: p in order ==> p in ids
    ensures selected == Greedy(order, ids, [])
    ensures covered == Covered(ids, selected)
  {
    selected, covered := [], {};
    while true
      invariant Greedy(order, ids, selected) == Greedy(order, ids, [])
      invariant covered == Covered(ids, selected)
      decreases Unpicked(order, selected)
    {
      var best, bestGain := ScanBest(order, selected, ids, covered);
      if bestGain == 0 {
        break;
      }
      UnpickedShrinks(order, selected, best.value);
      ghost var before := selected;
      selected := selected + [best.value];
      assert selected[..|selected| - 1] == before;
      var added;
      covered, added := Absorb(covered, ids[best.value]);
    }
  }

  // ---------------------------------------------------------------------
  // Current coverage and the report

  /** The `forEach` over the current subscriptions: the number of distinct
      media they cover; unknown platforms cover nothing. */
  method CurrentCoverage(ids: map<string, set<MediaId>>, subscriptions: seq<string>) returns (count: nat)
    ensures count == |Covered(ids, subscriptions)|
  {
    var seen: set<MediaId> := {};
    count := 0;
    var i := 0;
    while i < |subscriptions|
      invariant 0 <= i <= |subscriptions|
      invariant seen == Covered(ids, subscriptions[..i]) && count == |seen|
    {
      var p := subscriptions[i];
      assert subscriptions[..i + 1][..i] == subscriptions[..i];
      if p in ids {
        var added;
        seen, added := Absorb(seen, ids[p]);
        count := count + added;
      }
      i := i + 1;
    }
    assert subscriptions[..|subscriptions|] == subscriptions;
  }

  /** `Math.round(x * 10) / 10`: JavaScript rounds halves upwards. */
  function RoundToTenth(x: real): real
  {
    ((x * 10.0 + 0.5).Floor as real) / 10.0
  }

  /** `count / total * 100`, and 0 when there is nothing to divide by. */
  function Percent(count: nat, total: nat): real
  {
    if total > 0 then count as real / total as real * 100.0 else 0.0
  }

  datatype PlatformDetail = PlatformDetail(platform: string, mediaCount: nat, coveragePercentage: real)

  datatype Report = Report(
    currentSubscriptions: seq<string>,
    currentCoverage: real,
    recommendedSubscriptions: seq<string>,
    optimalCoverage: real,
    platformDetails: seq<PlatformDetail>)

  function CountOf(counts: map<string, nat>, p: string): nat
  {
    if p in counts then counts[p] else 0
  }

  function Details(counts: map<string, nat>, picks: seq<string>, total: nat): seq<PlatformDetail>
  {
    seq(|picks|, k requires 0 <= k < |picks| =>
      PlatformDetail(picks[k], CountOf(counts, picks[k]), RoundToTenth(Percent(CountOf(counts, picks[k]), total))))
  }

  /** The returned object. `total` is the number of stored entries,
      including those whose media document is missing. */
  function Recommend(entries: seq<PopulatedEntry>, subscriptions: seq<string>): Report
  {
    var ids := MediaMap(entries);
    var picks := Greedy(PlatformOrder(entries), ids, []);
    Report(
      subscriptions,
      RoundToTenth(Percent(|Covered(ids, subscriptions)|, |entries|)),
      picks,
      RoundToTenth(Percent(|Covered(ids, picks)|, |entries|)),
      Details(CountMap(entries), picks, |entries|))
  }

  /** `generateSubscriptionRecommendations` after the user lookups: the
      populated entries and the current subscriptions are passed in. */
  method GenerateSubscriptionRecommendations(entries: seq<PopulatedEntry>, subscriptions: seq<string>)
    returns (report: Report)
    ensures report == Recommend(entries, subscriptions)
  {
    var counts, ids, order := CountPlatforms(entries);
    var selected, covered := SelectPlatforms(order, ids);
    var total := |entries|;
    var details := Details(counts, selected, total);
    var current := CurrentCoverage(ids, subscriptions);
    report := Report(subscriptions, RoundToTenth(Percent(current, total)), selected,
                     RoundToTenth(Percent(|covered|, total)), details);
  }

  // ---------------------------------------------------------------------
  // Properties

  /** One candidate scan returns a platform whose gain no other unselected
      platform exceeds. */
  lemma {:induction false} BestIsMaximum(order: seq<string>, selected: seq<string>, ids: map<string, set<MediaId>>,
                                         covered: set<MediaId>)
    ensures forall q :: q in order && q !in selected ==> Gain(ids, q, covered) <= Best(order, selected, ids, covered).1
  {
    if |order| > 0 {
      var init := order[..|order| - 1];
      BestIsMaximum(init, selected, ids, covered);
      assert order == init + [order[|order| - 1]];
    }
  }

  /** ... and of those, the first in key order: every unselected platform
      with the same gain comes no earlier than the pick. */
  lemma BestIsFirst(order: seq<string>, selected: seq<string>, ids: map<string, set<MediaId>>,
                    covered: set<MediaId>)
    ensures var r := Best(order, selected, ids, covered);
      forall k :: 0 <= k < |order| && r.0.Some? && order[k] !in selected && Gain(ids, order[k], covered) == r.1 ==>
        r.0.value in order[..k + 1]
  {
    var r := Best(order, selected, ids, covered);
    forall k | 0 <= k < |order| && r.0.Some? && order[k] !in selected && Gain(ids, order[k], covered) == r.1
      ensures r.0.value in order[..k + 1]
    {
      BestIsFirstAt(order, selected, ids, covered, k);
    }
  }

  lemma {:induction false} BestIsFirstAt(order: seq<string>, selected: seq<string>, ids: map<string, set<MediaId>>,
                                         covered: set<MediaId>, k: nat)
    requires k < |order| && Best(order, selected, ids, covered).0.Some?
    requires order[k] !in selected && Gain(ids, order[k], covered) == Best(order, selected, ids, covered).1
    ensures Best(order, selected, ids, covered).0.value in order[..k + 1]
  {
    var n := |order|;
    var init := order[..n - 1];
    var r := Best(order, selected, ids, covered);
    if k == n - 1 {
      assert order[..k + 1] == order;
    } else {
      var prev := Best(init, selected, ids, covered);
      assert order[k] == init[k] && order[..k + 1] == init[..k + 1];
      assert order[k] in init;
      BestIsMaximum(init, selected, ids, covered);
      assert Gain(ids, order[k], covered) <= prev.1;
      assert r == prev;
      BestIsFirstAt(init, selected, ids, covered, k);
    }
  }

  /** A pick made right after the picks `done`. */
  ghost predicate GreedyPick(order: seq<string>, ids: map<string, set<MediaId>>, done: seq<string>, p: string)
  {
    Best(order, done, ids, Covered(ids, done)) == (Some(p), Gain(ids, p, Covered(ids, done)))
  }

  /** The loop from `selected` on only appends greedy picks, and stops when
      the scan finds nothing to gain. */
  lemma {:induction false} GreedyExtends(order: seq<string>, ids: map<string, set<MediaId>>, selected: seq<string>)
    ensures |selected| <= |Greedy(order, ids, selected)|
    ensures Greedy(order, ids, selected)[..|selected|] == selected
    ensures forall k :: |selected| <= k < |Greedy(order, ids, selected)| ==>
      GreedyPick(order, ids, Greedy(order, ids, selected)[..k], Greedy(order, ids, selected)[k])
    decreases Unpicked(order, selected)
  {
    var best := Best(order, selected, ids, Covered(ids, selected));
    if best.1 != 0 {
      var b := best.0.value;
      var next := selected + [b];
      UnpickedShrinks(order, selected, b);
      GreedyExtends(order, ids, next);
      var r := Greedy(order, ids, selected);
      assert r == Greedy(order, ids, next);
      assert r[..|next|] == next;
      assert r[..|selected|] == next[..|selected|] == selected;
      forall k | |selected| <= k < |r| ensures GreedyPick(order, ids, r[..k], r[k]) {
        if k == |selected| {
          assert r[k] == next[k] == b;
          assert best == (Some(b), Gain(ids, b, Covered(ids, selected)));
        }
      }
    }
  }

  /** The loop stops only when the scan finds nothing to gain. */
  lemma {:induction false} GreedyStops(order: seq<string>, ids: map<string, set<MediaId>>, selected: seq<string>)
    ensures Best(order, Greedy(order, ids, selected), ids, Covered(ids, Greedy(order, ids, selected))).1 == 0
    decreases Unpicked(order, selected)
  {
    var best := Best(order, selected, ids, Covered(ids, selected));
    if best.1 != 0 {
      UnpickedShrinks(order, selected, best.0.value);
      GreedyStops(order, ids, selected + [best.0.value]);
    }
  }

  lemma {:induction false} CoveredIncludes(ids: map<string, set<MediaId>>, platforms: seq<string>, p: string)
    requires p in platforms
    ensures Lookup(ids, p) <= Covered(ids, platforms)
  {
    var init := platforms[..|platforms| - 1];
    if platforms[|platforms| - 1] != p {
      assert platforms == init + [platforms[|platforms| - 1]];
      CoveredIncludes(ids, init, p);
    }
  }

  lemma {:induction false} CoveredWithin(ids: map<string, set<MediaId>>, platforms: seq<string>, bound: set<MediaId>)
    requires forall p :: p in platforms ==> Lookup(ids, p) <= bound
    ensures Covered(ids, platforms) <= bound
  {
    if |platforms| > 0 {
      var init := platforms[..|platforms| - 1];
      assert forall p :: p in init ==> p in platforms;
      CoveredWithin(ids, init, bound);
    }
  }

  /** Every greedy pick is a platform of the key order not picked before;
      it adds at least one uncovered media; no unpicked platform would have
      added more; and every unpicked platform that would have added as many
      comes later in key order. */
  lemma GreedyPicksAreGreedy(order: seq<string>, ids: map<string, set<MediaId>>, k: nat)
    requires k < |Greedy(order, ids, [])|
    ensures var picks := Greedy(order, ids, []);
      var covered := Covered(ids, picks[..k]);
      && picks[k] in order && picks[k] !in picks[..k]
      && Gain(ids, picks[k], covered) > 0
      && (forall q :: q in order && q !in picks[..k] ==> Gain(ids, q, covered) <= Gain(ids, picks[k], covered))
      && (forall j :: 0 <= j < |order| && order[j] !in picks[..k] && Gain(ids, order[j], covered) == Gain(ids, picks[k], covered) ==>
            picks[k] in order[..j + 1])
  {
    var picks := Greedy(order, ids, []);
    GreedyExtends(order, ids, []);
    assert GreedyPick(order, ids, picks[..k], picks[k]);
    BestIsMaximum(order, picks[..k], ids, Covered(ids, picks[..k]));
    BestIsFirst(order, picks[..k], ids, Covered(ids, picks[..k]));
  }

  /** When the loop stops, every platform's media are covered. */
  lemma GreedyLeavesNothing(order: seq<string>, ids: map<string, set<MediaId>>)
    ensures forall q :: q in order ==> Lookup(ids, q) <= Covered(ids, Greedy(order, ids, []))
  {
    var picks := Greedy(order, ids, []);
    var all := Covered(ids, picks);
    GreedyStops(order, ids, []);
    BestIsMaximum(order, picks, ids, all);
    forall q | q in order ensures Lookup(ids, q) <= all {
      if q in picks {
        CoveredIncludes(ids, picks, q);
      } else {
        assert Gain(ids, q, all) == 0;
        NothingNewIsCovered(Lookup(ids, q), all);
      }
    }
  }

  lemma NothingNewIsCovered(a: set<MediaId>, b: set<MediaId>)
    requires |a - b| == 0
    ensures a <= b
  {
    assert a - b == {};
    forall x | x in a ensures x in b {
      assert x !in a - b;
    }
  }

  lemma PicksAreKeys(order: seq<string>, ids: map<string, set<MediaId>>)
    ensures forall q :: q in Greedy(order, ids, []) ==> q in order
  {
    var picks := Greedy(order, ids, []);
    forall q | q in picks ensures q in order {
      var k :| 0 <= k < |picks| && picks[k] == q;
      GreedyPicksAreGreedy(order, ids, k);
    }
  }

  /** So the picks cover exactly what all platforms together cover. */
  lemma GreedyCoversEverything(order: seq<string>, ids: map<string, set<MediaId>>)
    ensures Covered(ids, Greedy(order, ids, [])) == Covered(ids, order)
  {
    var picks := Greedy(order, ids, []);
    GreedyLeavesNothing(order, ids);
    CoveredWithin(ids, order, Covered(ids, picks));
    PicksAreKeys(order, ids);
    forall q | q in picks ensures Lookup(ids, q) <= Covered(ids, order) {
      CoveredIncludes(ids, order, q);
    }
    CoveredWithin(ids, picks, Covered(ids, order));
  }

  /** When one platform alone covers everything that all platforms cover,
      the loop stops after a single pick, and that pick covers everything
      too. */
  lemma OnePlatformCoversAll(order: seq<string>, ids: map<string, set<MediaId>>, p: string)
    requires p in order && Lookup(ids, p) == Covered(ids, order) && Lookup(ids, p) != {}
    ensures var picks := Greedy(order, ids, []);
      |picks| == 1 && Lookup(ids, picks[0]) == Covered(ids, order) && Best(order, [], ids, {}).0 == Some(picks[0])
  {
    var all := Covered(ids, order);
    var best := Best(order, [], ids, {});
    BestIsMaximum(order, [], ids, {});
    assert Lookup(ids, p) - {} == Lookup(ids, p);
    assert Gain(ids, p, {}) == |all| > 0;
    assert p !in [];
    assert Gain(ids, p, {}) <= best.1;
    var b := best.0.value;
    CoveredIncludes(ids, order, b);
    assert Lookup(ids, b) - {} == Lookup(ids, b);
    FullSubsetIsEqual(Lookup(ids, b), all);
    assert [b][..0] == [];
    assert Covered(ids, [b]) == all;
    forall q | q in order ensures Gain(ids, q, all) == 0 {
      CoveredIncludes(ids, order, q);
      assert Lookup(ids, q) - all == {};
    }
    assert Best(order, [b], ids, all).1 == 0;
    assert [] + [b] == [b];
    assert Greedy(order, ids, []) == Greedy(order, ids, [b]) == [b];
  }

  /** So the recommendation is exactly that platform when it is the first
      such platform in key order; an earlier platform that also covers
      everything would win the tie instead, by the strict `>`. */
  lemma FirstFullCoverIsThePick(order: seq<string>, ids: map<string, set<MediaId>>, i: nat)
    requires i < |order| && Lookup(ids, order[i]) == Covered(ids, order) && Lookup(ids, order[i]) != {}
    requires forall j :: 0 <= j < i ==> Lookup(ids, order[j]) != Covered(ids, order)
    ensures Greedy(order, ids, []) == [order[i]]
  {
    var picks := Greedy(order, ids, []);
    OnePlatformCoversAll(order, ids, order[i]);
    FirstFullCoverIsBest(order, ids, i);
    assert picks == [picks[0]];
  }

  /** The first scan picks the first platform that covers everything. */
  lemma FirstFullCoverIsBest(order: seq<string>, ids: map<string, set<MediaId>>, i: nat)
    requires i < |order| && Lookup(ids, order[i]) == Covered(ids, order) && Lookup(ids, order[i]) != {}
    requires forall j :: 0 <= j < i ==> Lookup(ids, order[j]) != Covered(ids, order)
    ensures Best(order, [], ids, {}).0 == Some(order[i])
  {
    var all := Covered(ids, order);
    var best := Best(order, [], ids, {});
    BestIsMaximum(order, [], ids, {});
    assert Lookup(ids, order[i]) - {} == Lookup(ids, order[i]);
    assert Gain(ids, order[i], {}) == |all| > 0;
    assert order[i] in order && order[i] !in [];
    assert Gain(ids, order[i], {}) <= best.1;
    var b := best.0.value;
    CoveredIncludes(ids, order, b);
    assert Lookup(ids, b) - {} == Lookup(ids, b);
    FullSubsetIsEqual(Lookup(ids, b), all);
    assert best.1 == |all|;
    BestIsFirstAt(order, [], ids, {}, i);
    var j :| 0 <= j <= i && order[..i + 1][j] == b;
    assert order[j] == b;
    assert j == i;
  }

  lemma {:induction false} FullSubsetIsEqual(a: set<MediaId>, b: set<MediaId>)
    requires a <= b && |b| <= |a|
    ensures a == b
  {
    if a != b {
      assert exists x :: x in b && x !in a;
      var x :| x in b && x !in a;
      SubsetIsSmaller(a, b - {x});
    }
  }

  lemma {:induction false} SubsetIsSmaller(a: set<MediaId>, b: set<MediaId>)
    requires a <= b
    ensures |a| <= |b|
    decreases a
  {
    if a != {} {
      var x :| x in a;
      SubsetIsSmaller(a - {x}, b - {x});
    }
  }

  /** The media ids of the entries whose media document exists. */
  function WatchedMedia(entries: seq<PopulatedEntry>): set<MediaId>
  {
    if |entries| == 0 then {}
    else
      var e := entries[|entries| - 1];
      WatchedMedia(entries[..|entries| - 1]) + (if e.media.Some? then {e.media.value.id} else {})
  }

  lemma {:induction false} WatchedMediaBound(entries: seq<PopulatedEntry>)
    ensures |WatchedMedia(entries)| <= |entries|
    ensures forall p :: MediaOn(entries, p) <= WatchedMedia(entries)
  {
    if |entries| > 0 {
      WatchedMediaBound(entries[..|entries| - 1]);
    }
  }

  /** Each platform's count is at least the number of distinct media on it:
      a media watched twice, or listing a platform twice, counts twice. */
  lemma {:induction false} CountCoversMedia(entries: seq<PopulatedEntry>, p: string)
    ensures |MediaOn(entries, p)| <= PlatformCount(entries, p)
  {
    if |entries| > 0 {
      var e := entries[|entries| - 1];
      CountCoversMedia(entries[..|entries| - 1], p);
      if e.media.Some? && p in e.media.value.platforms {
        OccurrencesOfPresent(e.media.value.platforms, p);
      }
    }
  }

  lemma {:induction false} OccurrencesOfPresent(ps: seq<string>, p: string)
    requires p in ps
    ensures Occurrences(ps, p) >= 1
  {
    var init := ps[..|ps| - 1];
    if ps[|ps| - 1] != p {
      assert ps == init + [ps[|ps| - 1]];
      OccurrencesOfPresent(init, p);
    }
  }

  lemma RoundToTenthIsNearest(x: real)
    ensures x - 0.05 < RoundToTenth(x) <= x + 0.05
  {
  }

  lemma RoundToTenthIsMonotone(x: real, y: real)
    requires x <= y
    ensures RoundToTenth(x) <= RoundToTenth(y)
  {
    assert (x * 10.0 + 0.5).Floor <= (y * 10.0 + 0.5).Floor;
  }

  lemma PercentIsMonotone(a: nat, b: nat, total: nat)
    requires a <= b
    ensures Percent(a, total) <= Percent(b, total)
  {
    if total > 0 {
      assert a as real / total as real <= b as real / total as real;
    }
  }

  /** The current subscriptions never cover more than the recommended
      ones, and the recommended ones at most every watched entry, so the
      reported coverages satisfy current <= optimal <= 100. */
  lemma ReportCoverage(entries: seq<PopulatedEntry>, subscriptions: seq<string>)
    ensures Recommend(entries, subscriptions).currentCoverage <= Recommend(entries, subscriptions).optimalCoverage <= 100.0
  {
    var ids := MediaMap(entries);
    var order := PlatformOrder(entries);
    var picks := Greedy(order, ids, []);
    CurrentWithinAll(entries, subscriptions);
    GreedyCoversEverything(order, ids);
    SubsetIsSmaller(Covered(ids, subscriptions), Covered(ids, picks));
    CoveredIsWatched(entries, picks);
    RoundedShares(|Covered(ids, subscriptions)|, |Covered(ids, picks)|, |entries|);
  }

  lemma RoundedShares(a: nat, b: nat, total: nat)
    requires a <= b <= total
    ensures RoundToTenth(Percent(a, total)) <= RoundToTenth(Percent(b, total)) <= 100.0
  {
    PercentIsMonotone(a, b, total);
    RoundToTenthIsMonotone(Percent(a, total), Percent(b, total));
    PercentIsMonotone(b, total, total);
    assert Percent(total, total) <= 100.0;
    RoundToTenthIsMonotone(Percent(b, total), 100.0);
    assert RoundToTenth(100.0) == 100.0;
  }

  /** Subscriptions cover only media that some platform of the key order
      offers. */
  lemma CurrentWithinAll(entries: seq<PopulatedEntry>, subscriptions: seq<string>)
    ensures Covered(MediaMap(entries), subscriptions) <= Covered(MediaMap(entries), PlatformOrder(entries))
  {
    var ids := MediaMap(entries);
    forall p | p in subscriptions ensures Lookup(ids, p) <= Covered(ids, PlatformOrder(entries)) {
      if p in ids {
        CoveredIncludes(ids, PlatformOrder(entries), p);
      }
    }
    CoveredWithin(ids, subscriptions, Covered(ids, PlatformOrder(entries)));
  }

  /** Any platforms cover at most the watched media, of which there are no
      more than entries. */
  lemma CoveredIsWatched(entries: seq<PopulatedEntry>, platforms: seq<string>)
    ensures Covered(MediaMap(entries), platforms) <= WatchedMedia(entries)
    ensures |Covered(MediaMap(entries), platforms)| <= |entries|
  {
    WatchedMediaBound(entries);
    CoveredWithin(MediaMap(entries), platforms, WatchedMedia(entries));
    SubsetIsSmaller(Covered(MediaMap(entries), platforms), WatchedMedia(entries));
  }

  /** Each platform detail describes the pick at the same position, with
      that platform's listing count, which is at least the number of
      distinct media on it. */
  lemma DetailsDescribePicks(entries: seq<PopulatedEntry>, subscriptions: seq<string>)
    ensures var r := Recommend(entries, subscriptions);
      && |r.platformDetails| == |r.recommendedSubscriptions|
      && forall k :: 0 <= k < |r.platformDetails| ==>
           && r.platformDetails[k].platform == r.recommendedSubscriptions[k]
           && r.platformDetails[k].mediaCount == PlatformCount(entries, r.recommendedSubscriptions[k])
           && |MediaOn(entries, r.recommendedSubscriptions[k])| <= r.platformDetails[k].mediaCount
  {
    var picks := Greedy(PlatformOrder(entries), MediaMap(entries), []);
    forall k | 0 <= k < |picks|
      ensures picks[k] in CountMap(entries) && CountMap(entries)[picks[k]] == PlatformCount(entries, picks[k])
      ensures |MediaOn(entries, picks[k])| <= PlatformCount(entries, picks[k])
    {
      GreedyPicksAreGreedy(PlatformOrder(entries), MediaMap(entries), k);
      CountCoversMedia(entries, picks[k]);
    }
  }

  /** A worked example: A is on Netflix and Hulu, B on Hulu, C on Disney+. */
  const ExampleEntries: seq<PopulatedEntry> := [
    PopulatedEntry(Some(Media("A", Movie, [], [], ["Netflix", "Hulu"], None, None)), 1, "Netflix"),
    PopulatedEntry(Some(Media("B", Movie, [], [], ["Hulu"], None, None)), 2, "Hulu"),
    PopulatedEntry(Some(Media("C", Tv, [], [], ["Disney+"], None, None)), 3, "Disney+")]

  const ExampleOrder: seq<string> := ["Netflix", "Hulu", "Disney+"]
  const ExampleIds: map<string, set<MediaId>> := map["Netflix" := {"A"}, "Hulu" := {"A", "B"}, "Disney+" := {"C"}]

  lemma ExampleMaps()
    ensures PlatformOrder(ExampleEntries) == ExampleOrder
    ensures MediaMap(ExampleEntries) == ExampleIds
  {
    var e := ExampleEntries;
    ExampleKeyOrder();
    forall p | p in ["Netflix", "Hulu", "Disney+"] ensures MediaOn(e, p) == map["Netflix" := {"A"}, "Hulu" := {"A", "B"}, "Disney+" := {"C"}][p] {
      ExampleMediaOn(p);
    }
  }

  lemma ExamplePrefixes()
    ensures ExampleEntries[..3] == ExampleEntries
    ensures ExampleEntries[..3][..2] == ExampleEntries[..2]
    ensures ExampleEntries[..2][..1] == ExampleEntries[..1]
    ensures ExampleEntries[..1][..0] == []
  {
  }

  lemma ExampleKeyOrder()
    ensures PlatformOrder(ExampleEntries) == ExampleOrder
  {
    var e := ExampleEntries;
    ExamplePrefixes();
    var ps: seq<string> := ["Netflix", "Hulu"];
    assert ps[..1] == ["Netflix"] && ps[..1][..0] == [];
    assert AddAll([], ps[..1]) == ["Netflix"];
    assert AddAll([], ps) == ["Netflix", "Hulu"];
    assert PlatformOrder(e[..1]) == ["Netflix", "Hulu"];
    var hulu: seq<string> := ["Hulu"];
    assert hulu[..0] == [];
    assert AddAll(["Netflix", "Hulu"], hulu) == ["Netflix", "Hulu"];
    assert PlatformOrder(e[..2]) == ["Netflix", "Hulu"];
    var disney: seq<string> := ["Disney+"];
    assert disney[..0] == [];
    assert AddAll(["Netflix", "Hulu"], disney) == ["Netflix", "Hulu", "Disney+"];
  }

  lemma ExampleMediaOn(p: string)
    requires p in ["Netflix", "Hulu", "Disney+"]
    ensures MediaOn(ExampleEntries, p) == map["Netflix" := {"A"}, "Hulu" := {"A", "B"}, "Disney+" := {"C"}][p]
  {
    var e := ExampleEntries;
    ExamplePrefixes();
    assert MediaOn(e[..1], p) == (if p in ["Netflix", "Hulu"] then {"A"} else {});
    assert MediaOn(e[..2], p) == (if p in ["Netflix", "Hulu"] then {"A"} else {}) + (if p == "Hulu" then {"B"} else {});
  }

  lemma ExampleScan(selected: seq<string>, covered: set<MediaId>)
    ensures var o := ExampleOrder;
      Best(o, selected, ExampleIds, covered) ==
        var b2 := Best(o[..2], selected, ExampleIds, covered);
        if "Disney+" !in selected && Gain(ExampleIds, "Disney+", covered) > b2.1
        then (Some("Disney+"), Gain(ExampleIds, "Disney+", covered)) else b2
    ensures var o := ExampleOrder;
      Best(o[..2], selected, ExampleIds, covered) ==
        var b1 := Best(o[..1], selected, ExampleIds, covered);
        if "Hulu" !in selected && Gain(ExampleIds, "Hulu", covered) > b1.1
        then (Some("Hulu"), Gain(ExampleIds, "Hulu", covered)) else b1
    ensures Best(ExampleOrder[..1], selected, ExampleIds, covered) ==
      if "Netflix" !in selected && Gain(ExampleIds, "Netflix", covered) > 0
      then (Some("Netflix"), Gain(ExampleIds, "Netflix", covered)) else (None, 0)
  {
    var o := ExampleOrder;
    assert o[..3] == o && o[..2][..1] == o[..1] && o[..1][..0] == [];
  }

  lemma ExampleCovered()
    ensures Covered(ExampleIds, []) == {}
    ensures Covered(ExampleIds, ["Hulu"]) == {"A", "B"}
    ensures Covered(ExampleIds, ["Hulu", "Disney+"]) == {"A", "B", "C"}
    ensures Covered(ExampleIds, ["Netflix"]) == {"A"}
  {
    var one: seq<string> := ["Hulu"];
    var two: seq<string> := ["Hulu", "Disney+"];
    var netflix: seq<string> := ["Netflix"];
    assert one[..0] == [] && two[..1] == one && netflix[..0] == [];
  }

  lemma ExampleRound1()
    ensures Best(ExampleOrder, [], ExampleIds, {}) == (Some("Hulu"), 2)
  {
    ExampleScan([], {});
    assert Gain(ExampleIds, "Netflix", {}) == 1;
    assert Gain(ExampleIds, "Hulu", {}) == 2;
    assert Gain(ExampleIds, "Disney+", {}) == 1;
  }

  lemma ExampleRound2()
    ensures Best(ExampleOrder, ["Hulu"], ExampleIds, {"A", "B"}) == (Some("Disney+"), 1)
  {
    ExampleScan(["Hulu"], {"A", "B"});
    assert ExampleIds["Netflix"] - {"A", "B"} == {};
    assert ExampleIds["Disney+"] - {"A", "B"} == {"C"};
  }

  lemma ExampleRound3()
    ensures Best(ExampleOrder, ["Hulu", "Disney+"], ExampleIds, {"A", "B", "C"}).1 == 0
  {
    ExampleScan(["Hulu", "Disney+"], {"A", "B", "C"});
    assert ExampleIds["Netflix"] - {"A", "B", "C"} == {};
  }

  /** Hulu adds two media and is picked first although Netflix comes first
      in key order; then Disney+ adds C, after which nothing is left. */
  lemma ExamplePicks()
    ensures Greedy(ExampleOrder, ExampleIds, []) == ["Hulu", "Disney+"]
  {
    ExampleCovered();
    ExampleRound1();
    ExampleRound2();
    ExampleRound3();
    assert [] + ["Hulu"] == ["Hulu"];
    assert ["Hulu"] + ["Disney+"] == ["Hulu", "Disney+"];
  }

  /** With a Netflix subscription the user covers one of three entries
      (33.3%); the recommendation covers all three. */
  lemma ExampleReport()
    ensures Recommend(ExampleEntries, ["Netflix"]).recommendedSubscriptions == ["Hulu", "Disney+"]
    ensures Recommend(ExampleEntries, ["Netflix"]).currentCoverage == 33.3
    ensures Recommend(ExampleEntries, ["Netflix"]).optimalCoverage == 100.0
  {
    ExampleRecommend();
    ExampleRounding();
  }

  lemma ExampleRecommend()
    ensures Recommend(ExampleEntries, ["Netflix"]) ==
      Report(["Netflix"], RoundToTenth(Percent(1, 3)), ["Hulu", "Disney+"], RoundToTenth(Percent(3, 3)),
             Details(CountMap(ExampleEntries), ["Hulu", "Disney+"], 3))
  {
    ExampleMaps();
    ExamplePicks();
    ExampleCovered();
    assert |ExampleEntries| == 3;
    assert |Covered(ExampleIds, ["Netflix"])| == 1;
    assert |Covered(ExampleIds, ["Hulu", "Disney+"])| == 3;
  }

  lemma ExampleRounding()
    ensures RoundToTenth(Percent(1, 3)) == 33.3
    ensures RoundToTenth(Percent(3, 3)) == 100.0
  {
    assert Percent(1, 3) * 10.0 + 0.5 == 2003.0 / 6.0;
    assert (2003.0 / 6.0).Floor == 333;
  }

  /** The loop runs at most once per platform. */
  lemma {:induction false} GreedyRounds(order: seq<string>, ids: map<string, set<MediaId>>, selected: seq<string>)
    ensures |Greedy(order, ids, selected)| <= |selected| + |Unpicked(order, selected)|
    decreases Unpicked(order, selected)
  {
    var best := Best(order, selected, ids, Covered(ids, selected));
    if best.1 != 0 {
      UnpickedShrinks(order, selected, best.0.value);
      GreedyRounds(order, ids, selected + [best.0.value]);
    }
  }

  lemma {:induction false} DistinctElementsBound(s: seq<string>)
    ensures |set p | p in s| <= |s|
  {
    if |s| > 0 {
      var init := s[..|s| - 1];
      DistinctElementsBound(init);
      assert s == init + [s[|s| - 1]];
      assert (set p | p in s) == (set p | p in init) + {s[|s| - 1]};
    }
  }

  /** So there are no more picks than platforms in key order. */
  lemma GreedyTerminatesWithinPlatforms(order: seq<string>, ids: map<string, set<MediaId>>)
    ensures |Greedy(order, ids, [])| <= |order|
  {
    GreedyRounds(order, ids, []);
    DistinctElementsBound(order);
    assert Unpicked(order, []) == set p | p in order;
  }

  /** With no stored entries there is nothing to recommend and both
      coverages are 0. */
  lemma EmptyRankingsHaveNoCoverage(subscriptions: seq<string>)
    ensures Recommend([], subscriptions) == Report(subscriptions, 0.0, [], 0.0, [])
  {
    assert PlatformOrder([]) == [];
    assert Greedy([], MediaMap([]), []) == [];
  }
}
