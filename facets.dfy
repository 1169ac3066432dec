/** The category view (`groupRankingsByCategory`): each watched entry whose
    media document exists is filed under every label its media has for the
    requested category, and each label's list is ordered by rank. */
module FacetClassifier {
  import opened Wrappers
  import opened Domain
  import StableSort

  /** One element of a label's list. */
  datatype Item = Item(rank: int, media: Media, watchedOn: string)

  /** The length tier of a movie (minutes) or a show (episodes). A missing
      length compares false against every bound, so it lands in the top tier. */
  function LengthLabel(m: Media): string
  {
    if m.kind == Movie then
      if m.length.Some? && m.length.value < 90 then "Short (<90 min)"
      else if m.length.Some? && m.length.value < 120 then "Medium (90-120 min)"
      else "Long (>120 min)"
    else
      if m.length.Some? && m.length.value < 10 then "Short (<10 episodes)"
      else if m.length.Some? && m.length.value < 50 then "Medium (10-50 episodes)"
      else "Long (>50 episodes)"
  }

  /** The rating tier. A missing rating and a rating of 0 are both falsy and
      count as unrated. */
  function RatingLabel(rating: Option<real>): string
  {
    if rating.None? || rating.value == 0.0 then "Unrated"
    else if rating.value < 5.0 then "Below Average (<5)"
    else if rating.value < 7.0 then "Average (5-7)"
    else if rating.value < 8.0 then "Good (7-8)"
    else "Excellent (8+)"
  }

  /** `categoryValues`: the labels an entry is filed under. */
  function Labels(m: Media, watchedOn: string, category: string): seq<string>
  {
    match category
    case "genre" => m.genres
    case "platform" => [watchedOn]
    case "language" => m.languages
    case "type" => [m.kind.Name()]
    case "length" => [LengthLabel(m)]
    case "rating" => [RatingLabel(m.imdbRating)]
    case _ => ["Unknown"]
  }

  function ItemOf(e: PopulatedEntry): Item
    requires e.media.Some?
  {
    Item(e.rank, e.media.value, e.watchedOn)
  }

  function LabelsOf(e: PopulatedEntry, category: string): seq<string>
    requires e.media.Some?
  {
    Labels(e.media.value, e.watchedOn, category)
  }

  /** The copies of `item` pushed to label `tag` while walking `labels`. */
  function ItemsFor(labels: seq<string>, item: Item, tag: string): seq<Item>
  {
    if |labels| == 0 then []
    else ItemsFor(labels[..|labels| - 1], item, tag) + (if labels[|labels| - 1] == tag then [item] else [])
  }

  /** Label `tag`'s list, in push order, after walking `entries`. */
  function Collect(entries: seq<PopulatedEntry>, category: string, tag: string): seq<Item>
  {
    if |entries| == 0 then []
    else
      var e := entries[|entries| - 1];
      Collect(entries[..|entries| - 1], category, tag)
        + (if e.media.Some? then ItemsFor(LabelsOf(e, category), ItemOf(e), tag) else [])
  }

  /** The labels that received at least one push. */
  function LabelSet(entries: seq<PopulatedEntry>, category: string): set<string>
  {
    if |entries| == 0 then {}
    else
      var e := entries[|entries| - 1];
      LabelSet(entries[..|entries| - 1], category) + (if e.media.Some? then set l | l in LabelsOf(e, category) else {})
  }

  /** The key of `result[key].sort((a, b) => a.rank - b.rank)`. */
  function RankKey(x: Item): real { x.rank as real }

  /** The value returned: every label that was pushed to, with its list
      stably sorted by rank. */
  function Grouped(entries: seq<PopulatedEntry>, category: string): map<string, seq<Item>>
  {
    map l | l in LabelSet(entries, category) :: StableSort.SortBy(Collect(entries, category, l), RankKey)
  }

  /** Entry `e` puts `x` into label `tag`'s list. */
  predicate Contributes(e: PopulatedEntry, category: string, tag: string, x: Item)
  {
    e.media.Some? && tag in LabelsOf(e, category) && x == ItemOf(e)
  }

  // ---------------------------------------------------------------------
  // The operation

  /** The result after filing the entries `done`. */
  ghost predicate Filed(result: map<string, seq<Item>>, done: seq<PopulatedEntry>, category: string)
  {
    && (forall tag :: tag in result <==> tag in LabelSet(done, category))
    && (forall tag :: tag in result ==> result[tag] == Collect(done, category, tag))
  }

  /** The result while the entry after `done` is being filed: `labels` are
      its labels walked so far, `item` its item. */
  ghost predicate Filing(result: map<string, seq<Item>>, done: seq<PopulatedEntry>, category: string,
                         labels: seq<string>, item: Item)
  {
    && (forall tag :: tag in result <==> tag in LabelSet(done, category) || tag in labels)
    && (forall tag :: tag in result ==> result[tag] == Collect(done, category, tag) + ItemsFor(labels, item, tag))
  }

  /** `if (!result[value]) result[value] = []; result[value].push(item)`. */
  function Push(result: map<string, seq<Item>>, tag: string, item: Item): map<string, seq<Item>>
  {
    if tag in result then result[tag := result[tag] + [item]] else result[tag := [item]]
  }

  method GroupRankingsByCategory(entries: seq<PopulatedEntry>, category: string) returns (groups: map<string, seq<Item>>)
    ensures groups == Grouped(entries, category)
  {
    var result := FileAll(entries, category);
    groups := SortEach(entries, category, result);
  }

  /** The first loop: every entry with existing media pushed to each of its
      labels. */
  method FileAll(entries: seq<PopulatedEntry>, category: string) returns (result: map<string, seq<Item>>)
    ensures Filed(result, entries, category)
  {
    result := map[];
    var i := 0;
    while i < |entries|
      invariant 0 <= i <= |entries|
      invariant Filed(result, entries[..i], category)
    {
      var e := entries[i];
      if e.media.None? {
        SkipStep(result, entries, category, i);
        i := i + 1;
        continue;
      }
      var labels := LabelsOf(e, category);
      var item := ItemOf(e);
      var j := 0;
      FilingStart(result, entries[..i], category, item);
      while j < |labels|
        invariant 0 <= j <= |labels|
        invariant Filing(result, entries[..i], category, labels[..j], item)
      {
        PushStep(result, entries[..i], category, labels, j, item);
        result := Push(result, labels[j], item);
        j := j + 1;
      }
      EntryStep(result, entries, category, i);
      i := i + 1;
    }
    assert entries[..|entries|] == entries;
  }

  /** The second loop: each label's list sorted by rank. */
  method SortEach(entries: seq<PopulatedEntry>, category: string, filed: map<string, seq<Item>>)
    returns (groups: map<string, seq<Item>>)
    requires Filed(filed, entries, category)
    ensures groups == Grouped(entries, category)
  {
    var result := filed;
    var pending := result.Keys;
    while pending != {}
      invariant Sorting(result, entries, category, pending)
      decreases |pending|
    {
      var tag :| tag in pending;
      SortStep(result, entries, category, pending, tag);
      result := result[tag := StableSort.SortBy(result[tag], RankKey)];
      pending := pending - {tag};
    }
    SortDone(result, entries, category);
    groups := result;
  }

  /** The lists of the labels in `pending` are still unsorted. */
  ghost predicate Sorting(result: map<string, seq<Item>>, entries: seq<PopulatedEntry>, category: string, pending: set<string>)
  {
    && pending <= result.Keys
    && result.Keys == LabelSet(entries, category)
    && (forall tag :: tag in result ==>
          result[tag] == if tag in pending then Collect(entries, category, tag)
                         else StableSort.SortBy(Collect(entries, category, tag), RankKey))
  }

  lemma SortStep(result: map<string, seq<Item>>, entries: seq<PopulatedEntry>, category: string, pending: set<string>, tag: string)
    requires Sorting(result, entries, category, pending) && tag in pending
    ensures Sorting(result[tag := StableSort.SortBy(result[tag], RankKey)], entries, category, pending - {tag})
  {
  }

  lemma SortDone(result: map<string, seq<Item>>, entries: seq<PopulatedEntry>, category: string)
    requires Sorting(result, entries, category, {})
    ensures result == Grouped(entries, category)
  {
  }

  lemma FilingStart(result: map<string, seq<Item>>, done: seq<PopulatedEntry>, category: string, item: Item)
    requires Filed(result, done, category)
    ensures Filing(result, done, category, [], item)
  {
  }

  lemma PushStep(result: map<string, seq<Item>>, done: seq<PopulatedEntry>, category: string,
                 labels: seq<string>, j: nat, item: Item)
    requires j < |labels|
    requires Filing(result, done, category, labels[..j], item)
    ensures Filing(Push(result, labels[j], item), done, category, labels[..j + 1], item)
  {
    var walked := labels[..j + 1];
    assert walked[..j] == labels[..j] && walked[j] == labels[j];
    var r := Push(result, labels[j], item);
    forall tag ensures tag in r <==> tag in LabelSet(done, category) || tag in walked {
      assert tag in walked <==> tag in labels[..j] || tag == labels[j];
    }
    forall tag | tag in r ensures r[tag] == Collect(done, category, tag) + ItemsFor(walked, item, tag) {
      assert ItemsFor(walked, item, tag) == ItemsFor(labels[..j], item, tag) + (if labels[j] == tag then [item] else []);
      if tag !in result {
        ItemsForAbsent(labels[..j], item, tag);
        CollectAbsent(done, category, tag);
      }
    }
  }

  lemma {:induction false} ItemsForAbsent(labels: seq<string>, item: Item, tag: string)
    requires tag !in labels
    ensures ItemsFor(labels, item, tag) == []
  {
    if |labels| > 0 {
      assert labels[..|labels| - 1] <= labels;
      ItemsForAbsent(labels[..|labels| - 1], item, tag);
    }
  }

  lemma {:induction false} CollectAbsent(done: seq<PopulatedEntry>, category: string, tag: string)
    requires tag !in LabelSet(done, category)
    ensures Collect(done, category, tag) == []
  {
    if |done| > 0 {
      var e := done[|done| - 1];
      CollectAbsent(done[..|done| - 1], category, tag);
      if e.media.Some? {
        ItemsForAbsent(LabelsOf(e, category), ItemOf(e), tag);
      }
    }
  }

  lemma EntryStep(result: map<string, seq<Item>>, entries: seq<PopulatedEntry>, category: string, i: nat)
    requires i < |entries| && entries[i].media.Some?
    requires Filing(result, entries[..i], category, LabelsOf(entries[i], category)[..|LabelsOf(entries[i], category)|], ItemOf(entries[i]))
    ensures Filed(result, entries[..i + 1], category)
  {
    var labels := LabelsOf(entries[i], category);
    assert labels[..|labels|] == labels;
    assert entries[..i + 1][..i] == entries[..i];
    assert entries[..i + 1][i] == entries[i];
  }

  lemma SkipStep(result: map<string, seq<Item>>, entries: seq<PopulatedEntry>, category: string, i: nat)
    requires i < |entries| && entries[i].media.None?
    requires Filed(result, entries[..i], category)
    ensures Filed(result, entries[..i + 1], category)
  {
    assert entries[..i + 1][..i] == entries[..i];
    assert entries[..i + 1][i] == entries[i];
  }

  // ---------------------------------------------------------------------
  // Properties

  lemma {:induction false} ItemsForMembership(labels: seq<string>, item: Item, tag: string, x: Item)
    ensures x in ItemsFor(labels, item, tag) <==> x == item && tag in labels
  {
    if |labels| > 0 {
      var init := labels[..|labels| - 1];
      ItemsForMembership(init, item, tag, x);
      assert labels == init + [labels[|labels| - 1]];
    }
  }

  /** An item is in a label's list exactly when some entry with an existing
      media document carries that label and produced that item. */
  lemma {:induction false} CollectMembership(entries: seq<PopulatedEntry>, category: string, tag: string, x: Item)
    ensures x in Collect(entries, category, tag) <==>
      exists k :: 0 <= k < |entries| && Contributes(entries[k], category, tag, x)
  {
    if |entries| > 0 {
      var n := |entries|;
      var init := entries[..n - 1];
      var e := entries[n - 1];
      CollectMembership(init, category, tag, x);
      if e.media.Some? {
        ItemsForMembership(LabelsOf(e, category), ItemOf(e), tag, x);
      }
      forall k | 0 <= k < n - 1 ensures init[k] == entries[k] { }
      if x in Collect(entries, category, tag) {
        if x in Collect(init, category, tag) {
          var k :| 0 <= k < n - 1 && Contributes(init[k], category, tag, x);
          assert Contributes(entries[k], category, tag, x);
        } else {
          assert Contributes(entries[n - 1], category, tag, x);
        }
      }
      if exists k :: 0 <= k < n && Contributes(entries[k], category, tag, x) {
        var k :| 0 <= k < n && Contributes(entries[k], category, tag, x);
        if k < n - 1 {
          assert Contributes(init[k], category, tag, x);
        }
      }
    }
  }

  /** A label is pushed to exactly when some entry with an existing media
      document carries it. */
  lemma {:induction false} LabelSetMembership(entries: seq<PopulatedEntry>, category: string, tag: string)
    ensures tag in LabelSet(entries, category) <==>
      exists k :: 0 <= k < |entries| && entries[k].media.Some? && tag in LabelsOf(entries[k], category)
  {
    if |entries| > 0 {
      var n := |entries|;
      var init := entries[..n - 1];
      LabelSetMembership(init, category, tag);
      forall k | 0 <= k < n - 1 ensures init[k] == entries[k] { }
      if tag in LabelSet(entries, category) && tag !in LabelSet(init, category) {
        assert entries[n - 1].media.Some? && tag in LabelsOf(entries[n - 1], category);
      }
      if exists k :: 0 <= k < n && entries[k].media.Some? && tag in LabelsOf(entries[k], category) {
        var k :| 0 <= k < n && entries[k].media.Some? && tag in LabelsOf(entries[k], category);
        if k < n - 1 {
          assert init[k].media.Some? && tag in LabelsOf(init[k], category);
        }
      }
    }
  }

  /** What the category view contains: a key for each label carried by some
      entry whose media exists, each list ordered by rank and holding exactly
      the items of the entries carrying that label (entries with a missing
      media document are dropped), as often as pushes happened. */
  lemma GroupedIsFiledByLabel(entries: seq<PopulatedEntry>, category: string)
    ensures forall l :: l in Grouped(entries, category) <==>
      exists k :: 0 <= k < |entries| && entries[k].media.Some? && l in LabelsOf(entries[k], category)
    ensures forall l :: l in Grouped(entries, category) ==>
      && StableSort.SortedBy(Grouped(entries, category)[l], RankKey)
      && multiset(Grouped(entries, category)[l]) == multiset(Collect(entries, category, l))
      && (forall x :: x in Grouped(entries, category)[l] <==>
            exists k :: 0 <= k < |entries| && Contributes(entries[k], category, l, x))
  {
    forall l ensures l in Grouped(entries, category) <==>
      exists k :: 0 <= k < |entries| && entries[k].media.Some? && l in LabelsOf(entries[k], category)
    {
      LabelSetMembership(entries, category, l);
    }
    forall l | l in Grouped(entries, category)
      ensures StableSort.SortedBy(Grouped(entries, category)[l], RankKey)
      ensures multiset(Grouped(entries, category)[l]) == multiset(Collect(entries, category, l))
      ensures forall x :: x in Grouped(entries, category)[l] <==>
        exists k :: 0 <= k < |entries| && Contributes(entries[k], category, l, x)
    {
      StableSort.SortByIsSortedPermutation(Collect(entries, category, l), RankKey);
      StableSort.SortByMembership(Collect(entries, category, l), RankKey);
      forall x ensures x in Collect(entries, category, l) <==>
        exists k :: 0 <= k < |entries| && Contributes(entries[k], category, l, x)
      {
        CollectMembership(entries, category, l, x);
      }
    }
  }

  /** How often label `tag` occurs among the labels of the entries with
      existing media. */
  function Mentions(entries: seq<PopulatedEntry>, category: string, tag: string): nat
  {
    if |entries| == 0 then 0
    else
      var e := entries[|entries| - 1];
      Mentions(entries[..|entries| - 1], category, tag) + (if e.media.Some? then Occurrences(LabelsOf(e, category), tag) else 0)
  }

  lemma {:induction false} ItemsForLength(labels: seq<string>, item: Item, tag: string)
    ensures |ItemsFor(labels, item, tag)| == Occurrences(labels, tag)
  {
    if |labels| > 0 {
      ItemsForLength(labels[..|labels| - 1], item, tag);
    }
  }

  /** Each label's list holds one item per mention of the label: an entry
      listing a genre twice is filed twice under it. */
  lemma {:induction false} CollectLength(entries: seq<PopulatedEntry>, category: string, tag: string)
    ensures |Collect(entries, category, tag)| == Mentions(entries, category, tag)
  {
    if |entries| > 0 {
      var e := entries[|entries| - 1];
      CollectLength(entries[..|entries| - 1], category, tag);
      if e.media.Some? {
        ItemsForLength(LabelsOf(e, category), ItemOf(e), tag);
      }
    }
  }

  lemma GroupSizes(entries: seq<PopulatedEntry>, category: string, tag: string)
    requires tag in Grouped(entries, category)
    ensures |Grouped(entries, category)[tag]| == Mentions(entries, category, tag)
  {
    StableSort.SortByIsSortedPermutation(Collect(entries, category, tag), RankKey);
    CollectLength(entries, category, tag);
  }

  /** The labels in the order they first received a push. */
  function LabelOrder(entries: seq<PopulatedEntry>, category: string): seq<string>
  {
    if |entries| == 0 then []
    else
      var e := entries[|entries| - 1];
      if e.media.Some? then AddAll(LabelOrder(entries[..|entries| - 1], category), LabelsOf(e, category))
      else LabelOrder(entries[..|entries| - 1], category)
  }

  /** The number of pushes: one per label of each entry whose media exists. */
  function PushCount(entries: seq<PopulatedEntry>, category: string): nat
  {
    if |entries| == 0 then 0
    else
      var e := entries[|entries| - 1];
      PushCount(entries[..|entries| - 1], category) + (if e.media.Some? then |LabelsOf(e, category)| else 0)
  }

  /** The sizes of the lists of `tags`, added up. */
  function BucketTotal(groups: map<string, seq<Item>>, tags: seq<string>): nat
    requires forall t :: t in tags ==> t in groups
  {
    if |tags| == 0 then 0
    else BucketTotal(groups, tags[..|tags| - 1]) + |groups[tags[|tags| - 1]]|
  }

  /** The mentions of each of `tags`, added up. */
  function MentionTotal(entries: seq<PopulatedEntry>, category: string, tags: seq<string>): nat
  {
    if |tags| == 0 then 0
    else MentionTotal(entries, category, tags[..|tags| - 1]) + Mentions(entries, category, tags[|tags| - 1])
  }

  /** The occurrences in `labels` of each of `tags`, added up. */
  function OccurrenceTotal(labels: seq<string>, tags: seq<string>): nat
  {
    if |tags| == 0 then 0
    else OccurrenceTotal(labels, tags[..|tags| - 1]) + Occurrences(labels, tags[|tags| - 1])
  }

  lemma {:induction false} AddAllExtends(order: seq<string>, ps: seq<string>)
    requires StableSort.NoDuplicates(order)
    ensures order <= AddAll(order, ps)
    ensures StableSort.NoDuplicates(AddAll(order, ps))
  {
    if |ps| > 0 {
      AddAllExtends(order, ps[..|ps| - 1]);
    }
  }

  lemma {:induction false} OccurrencesOfDistinct(tags: seq<string>, x: string)
    requires StableSort.NoDuplicates(tags) && x in tags
    ensures Occurrences(tags, x) == 1
  {
    var init := tags[..|tags| - 1];
    assert tags == init + [tags[|tags| - 1]];
    if tags[|tags| - 1] == x {
      OccurrencesOfAbsent(init, x);
    } else {
      OccurrencesOfDistinct(init, x);
    }
  }

  lemma {:induction false} OccurrenceTotalStep(labels: seq<string>, x: string, tags: seq<string>)
    ensures OccurrenceTotal(labels + [x], tags) == OccurrenceTotal(labels, tags) + Occurrences(tags, x)
  {
    if |tags| > 0 {
      var t := tags[|tags| - 1];
      OccurrenceTotalStep(labels, x, tags[..|tags| - 1]);
      assert (labels + [x])[..|labels|] == labels;
      assert Occurrences(labels + [x], t) == Occurrences(labels, t) + (if x == t then 1 else 0);
    }
  }

  /** Counted over labels that include all of `labels` once each, every
      element of `labels` counts once. */
  lemma {:induction false} OccurrenceTotalCovers(labels: seq<string>, tags: seq<string>)
    requires StableSort.NoDuplicates(tags)
    requires forall x :: x in labels ==> x in tags
    ensures OccurrenceTotal(labels, tags) == |labels|
  {
    if |labels| == 0 {
      ZeroOccurrenceTotal(tags);
    } else {
      var init := labels[..|labels| - 1];
      var x := labels[|labels| - 1];
      assert labels == init + [x];
      OccurrenceTotalCovers(init, tags);
      OccurrenceTotalStep(init, x, tags);
      OccurrencesOfDistinct(tags, x);
    }
  }

  lemma {:induction false} ZeroOccurrenceTotal(tags: seq<string>)
    ensures OccurrenceTotal([], tags) == 0
  {
    if |tags| > 0 {
      ZeroOccurrenceTotal(tags[..|tags| - 1]);
    }
  }

  lemma {:induction false} MentionTotalStep(entries: seq<PopulatedEntry>, category: string, tags: seq<string>)
    requires |entries| > 0
    ensures var e := entries[|entries| - 1];
      MentionTotal(entries, category, tags)
        == MentionTotal(entries[..|entries| - 1], category, tags)
           + (if e.media.Some? then OccurrenceTotal(LabelsOf(e, category), tags) else 0)
  {
    if |tags| > 0 {
      MentionTotalStep(entries, category, tags[..|tags| - 1]);
    }
  }

  lemma {:induction false} MentionTotalAppend(entries: seq<PopulatedEntry>, category: string, a: seq<string>, b: seq<string>)
    ensures MentionTotal(entries, category, a + b) == MentionTotal(entries, category, a) + MentionTotal(entries, category, b)
  {
    if |b| > 0 {
      var init := b[..|b| - 1];
      assert (a + b)[..|a + b| - 1] == a + init;
      MentionTotalAppend(entries, category, a, init);
    } else {
      assert a + b == a;
    }
  }

  lemma {:induction false} MentionTotalOfAbsent(entries: seq<PopulatedEntry>, category: string, tags: seq<string>)
    requires forall t :: t in tags ==> t !in LabelSet(entries, category)
    ensures MentionTotal(entries, category, tags) == 0
  {
    if |tags| > 0 {
      var t := tags[|tags| - 1];
      MentionTotalOfAbsent(entries, category, tags[..|tags| - 1]);
      CollectAbsent(entries, category, t);
      CollectLength(entries, category, t);
    }
  }

  /** Walking one entry's labels keeps the order duplicate-free and only
      appends labels that had no list before. */
  lemma OrderStep(o0: seq<string>, labels: seq<string>, before: set<string>)
    requires StableSort.NoDuplicates(o0)
    requires forall t :: t in o0 <==> t in before
    ensures o0 <= AddAll(o0, labels)
    ensures StableSort.NoDuplicates(AddAll(o0, labels))
    ensures forall t :: t in AddAll(o0, labels) <==> t in before || t in labels
    ensures forall t :: t in AddAll(o0, labels)[|o0|..] ==> t !in before
  {
    var o := AddAll(o0, labels);
    AddAllExtends(o0, labels);
    forall t ensures t in o <==> t in before || t in labels {
      AddAllMembership(o0, labels, t);
    }
    forall k | |o0| <= k < |o| ensures o[k] !in o0 {
      forall j | 0 <= j < |o0| ensures o0[j] != o[k] {
        assert o[j] == o0[j];
      }
    }
  }

  lemma MediaStep(init: seq<PopulatedEntry>, e: PopulatedEntry, category: string)
    requires e.media.Some?
    requires StableSort.NoDuplicates(LabelOrder(init, category))
    requires forall t :: t in LabelOrder(init, category) <==> t in LabelSet(init, category)
    requires MentionTotal(init, category, LabelOrder(init, category)) == PushCount(init, category)
    ensures StableSort.NoDuplicates(LabelOrder(init + [e], category))
    ensures forall t :: t in LabelOrder(init + [e], category) <==> t in LabelSet(init + [e], category)
    ensures MentionTotal(init + [e], category, LabelOrder(init + [e], category)) == PushCount(init + [e], category)
  {
    var entries := init + [e];
    assert entries[..|entries| - 1] == init;
    var labels := LabelsOf(e, category);
    var o0 := LabelOrder(init, category);
    var o := AddAll(o0, labels);
    assert LabelOrder(entries, category) == o;
    OrderStep(o0, labels, LabelSet(init, category));
    var added := o[|o0|..];
    assert o == o0 + added;
    MentionTotalStep(entries, category, o);
    OccurrenceTotalCovers(labels, o);
    MentionTotalAppend(init, category, o0, added);
    MentionTotalOfAbsent(init, category, added);
  }

  /** The first-push order lists each label with a list once, and the
      lists' lengths together are one per mention. */
  lemma {:induction false} PushTotal(entries: seq<PopulatedEntry>, category: string)
    ensures StableSort.NoDuplicates(LabelOrder(entries, category))
    ensures forall t :: t in LabelOrder(entries, category) <==> t in LabelSet(entries, category)
    ensures MentionTotal(entries, category, LabelOrder(entries, category)) == PushCount(entries, category)
  {
    if |entries| > 0 {
      var init := entries[..|entries| - 1];
      PushTotal(init, category);
      if entries[|entries| - 1].media.Some? {
        assert entries == init + [entries[|entries| - 1]];
        MediaStep(init, entries[|entries| - 1], category);
      } else {
        MentionTotalStep(entries, category, LabelOrder(entries, category));
      }
    }
  }

  lemma {:induction false} BucketTotalIsMentionTotal(entries: seq<PopulatedEntry>, category: string, tags: seq<string>)
    requires forall t :: t in tags ==> t in Grouped(entries, category)
    ensures BucketTotal(Grouped(entries, category), tags) == MentionTotal(entries, category, tags)
  {
    if |tags| > 0 {
      BucketTotalIsMentionTotal(entries, category, tags[..|tags| - 1]);
      GroupSizes(entries, category, tags[|tags| - 1]);
    }
  }

  /** Over all labels, taken once each, the lists hold one item per label of
      each entry whose media exists: the total number of pushes. */
  lemma GroupTotal(entries: seq<PopulatedEntry>, category: string)
    ensures StableSort.NoDuplicates(LabelOrder(entries, category))
    ensures forall t :: t in LabelOrder(entries, category) <==> t in Grouped(entries, category)
    ensures BucketTotal(Grouped(entries, category), LabelOrder(entries, category)) == PushCount(entries, category)
  {
    PushTotal(entries, category);
    BucketTotalIsMentionTotal(entries, category, LabelOrder(entries, category));
  }

  /** The categories other than genre and language give every entry exactly
      one label. */
  lemma SingleValuedCategories(m: Media, watchedOn: string, category: string)
    requires category != "genre" && category != "language"
    ensures |Labels(m, watchedOn, category)| == 1
  {
  }

  /** So in those categories each item appears only under the single label
      its own media and platform determine. */
  lemma SingleValuedCategoriesPartition(entries: seq<PopulatedEntry>, category: string, tag: string, x: Item)
    requires category != "genre" && category != "language"
    requires tag in Grouped(entries, category) && x in Grouped(entries, category)[tag]
    ensures Labels(x.media, x.watchedOn, category) == [tag]
  {
    StableSort.SortByMembership(Collect(entries, category, tag), RankKey);
    assert x in Collect(entries, category, tag);
    CollectMembership(entries, category, tag, x);
    var k :| 0 <= k < |entries| && Contributes(entries[k], category, tag, x);
    var labels := Labels(x.media, x.watchedOn, category);
    assert labels == LabelsOf(entries[k], category);
    SingleValuedCategories(x.media, x.watchedOn, category);
    assert labels == [labels[0]];
  }

  /** An unrecognised category files every entry with existing media under
      the single label 'Unknown'. */
  lemma UnknownCategoryHasOneLabel(entries: seq<PopulatedEntry>, category: string)
    requires category !in ["genre", "platform", "language", "type", "length", "rating"]
    ensures Grouped(entries, category).Keys <= {"Unknown"}
    ensures (exists k :: 0 <= k < |entries| && entries[k].media.Some?) ==> "Unknown" in Grouped(entries, category)
  {
    GroupedIsFiledByLabel(entries, category);
    if exists k :: 0 <= k < |entries| && entries[k].media.Some? {
      var k :| 0 <= k < |entries| && entries[k].media.Some?;
      assert "Unknown" in LabelsOf(entries[k], category);
    }
  }

  /** The position of a tier label in its scale (0 short/below average,
      up to 3 excellent); unrated and unknown labels have none. */
  function Tier(tag: string): Option<nat>
  {
    match tag
    case "Short (<90 min)" => Some(0)
    case "Medium (90-120 min)" => Some(1)
    case "Long (>120 min)" => Some(2)
    case "Short (<10 episodes)" => Some(0)
    case "Medium (10-50 episodes)" => Some(1)
    case "Long (>50 episodes)" => Some(2)
    case "Below Average (<5)" => Some(0)
    case "Average (5-7)" => Some(1)
    case "Good (7-8)" => Some(2)
    case "Excellent (8+)" => Some(3)
    case _ => None
  }

  /** A longer item of the same type never gets a shorter tier, and a
      missing length ranks with the longest. */
  lemma LengthTierIsMonotone(m1: Media, m2: Media)
    requires m1.kind == m2.kind
    requires m1.length.Some? && (m2.length.None? || m1.length.value <= m2.length.value)
    ensures Tier(LengthLabel(m1)).Some? && Tier(LengthLabel(m2)).Some?
    ensures Tier(LengthLabel(m1)).value <= Tier(LengthLabel(m2)).value
  {
  }

  /** Ratings are unrated exactly when missing or zero; otherwise a higher
      rating never gets a lower tier. */
  lemma RatingTierIsMonotone(r1: Option<real>, r2: Option<real>)
    ensures RatingLabel(r1) == "Unrated" <==> r1.None? || r1.value == 0.0
    ensures RatingLabel(r1) != "Unrated" ==> Tier(RatingLabel(r1)).Some?
    ensures r1.Some? && r2.Some? && r1.value != 0.0 && r2.value != 0.0 && r1.value <= r2.value ==>
      Tier(RatingLabel(r1)).value <= Tier(RatingLabel(r2)).value
  {
  }
}
