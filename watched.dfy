/** The user routes' own rules: adding a media item to the watched list
    (update the platform of an existing entry, or append with the next rank),
    the request guards in front of the category view and the pair selector,
    and the rank-ordered view of the watched list. */
module Watched {
  import opened Wrappers
  import opened Domain
  import StableSort
  import Aggregator
  import PairSelector
  import FacetClassifier

  /** An error reply: HTTP status and message. */
  datatype Rejection = Rejection(status: nat, message: string)

  /** A successful add-to-watched reply: HTTP status and the entry sent back. */
  datatype Reply = Reply(status: nat, entry: WatchedEntry)

  /** What an add-to-watched request does: the reply, whether the user
      document is saved, and the watched list afterwards. */
  datatype AddOutcome = AddOutcome(reply: Result<Reply, Rejection>, saved: bool, rankings: seq<WatchedEntry>)

  /** The request's `mediaId` is falsy: absent, or the empty string. */
  predicate Missing(mediaId: Option<string>)
  {
    mediaId.None? || mediaId.value == ""
  }

  /** `Math.max(...ranks)` over a non-empty list. */
  function MaxRank(entries: seq<WatchedEntry>): (m: int)
    requires |entries| > 0
    ensures forall k :: 0 <= k < |entries| ==> entries[k].rank <= m
    ensures exists k :: 0 <= k < |entries| && entries[k].rank == m
  {
    if |entries| == 1 then entries[0].rank
    else
      var m := MaxRank(entries[..|entries| - 1]);
      assert forall k :: 0 <= k < |entries| - 1 ==> entries[..|entries| - 1][k] == entries[k];
      if entries[|entries| - 1].rank > m then entries[|entries| - 1].rank else m
  }

  /** The rank a newly watched item receives: one past the largest, or 1. */
  function NewRank(entries: seq<WatchedEntry>): int
  {
    if |entries| > 0 then MaxRank(entries) + 1 else 1
  }

  /** The add-to-watched rule, after the user document has been found.
      `mediaExists` is the answer of the catalogue lookup. */
  function Add(entries: seq<WatchedEntry>, mediaId: Option<string>, watchedOn: string, mediaExists: bool): AddOutcome
  {
    if Missing(mediaId) then AddOutcome(Failure(Rejection(400, "Media ID is required")), false, entries)
    else if !mediaExists then AddOutcome(Failure(Rejection(404, "Media not found")), false, entries)
    else match Aggregator.FindIndex(entries, mediaId.value)
      case Some(k) =>
        var updated := entries[k := entries[k].(watchedOn := watchedOn)];
        AddOutcome(Success(Reply(200, updated[k])), entries[k].watchedOn != watchedOn, updated)
      case None =>
        var entry := WatchedEntry(mediaId.value, NewRank(entries), watchedOn);
        AddOutcome(Success(Reply(201, entry)), true, entries + [entry])
  }

  /** `POST /:userId/watched`: updates the user's list in place. */
  method AddWatched(user: User, mediaId: Option<string>, watchedOn: string, mediaExists: bool)
    returns (reply: Result<Reply, Rejection>, saved: bool)
    modifies user
    ensures reply == Add(old(user.rankings), mediaId, watchedOn, mediaExists).reply
    ensures saved == Add(old(user.rankings), mediaId, watchedOn, mediaExists).saved
    ensures user.rankings == Add(old(user.rankings), mediaId, watchedOn, mediaExists).rankings
    ensures user.subscriptions == old(user.subscriptions)
  {
    if Missing(mediaId) {
      return Failure(Rejection(400, "Media ID is required")), false;
    }
    if !mediaExists {
      return Failure(Rejection(404, "Media not found")), false;
    }
    var id := mediaId.value;
    var existing := Aggregator.FindIndex(user.rankings, id);
    if existing.Some? {
      var k := existing.value;
      saved := false;
      if user.rankings[k].watchedOn != watchedOn {
        user.rankings := user.rankings[k := user.rankings[k].(watchedOn := watchedOn)];
        saved := true;
      }
      return Success(Reply(200, user.rankings[k])), saved;
    }
    var rank := NewRank(user.rankings);
    user.rankings := user.rankings + [WatchedEntry(id, rank, watchedOn)];
    reply := Success(Reply(201, user.rankings[|user.rankings| - 1]));
    saved := true;
  }

  // ---------------------------------------------------------------------
  // Properties of the add-to-watched rule

  /** A request without a media id, or for a media item that does not exist,
      is rejected and changes and saves nothing. */
  lemma RejectedAddChangesNothing(entries: seq<WatchedEntry>, mediaId: Option<string>, watchedOn: string, mediaExists: bool)
    ensures Add(entries, mediaId, watchedOn, mediaExists).reply.Failure? <==> Missing(mediaId) || !mediaExists
    ensures Missing(mediaId) ==> Add(entries, mediaId, watchedOn, mediaExists).reply == Failure(Rejection(400, "Media ID is required"))
    ensures !Missing(mediaId) && !mediaExists ==>
      Add(entries, mediaId, watchedOn, mediaExists).reply == Failure(Rejection(404, "Media not found"))
    ensures Add(entries, mediaId, watchedOn, mediaExists).reply.Failure? ==>
      !Add(entries, mediaId, watchedOn, mediaExists).saved && Add(entries, mediaId, watchedOn, mediaExists).rankings == entries
  {
  }

  /** Re-adding a watched item changes only that entry's platform: the
      length, every rank and every other entry stay as they were, and the
      document is saved exactly when the platform differs. */
  lemma ReAddUpdatesPlatformOnly(entries: seq<WatchedEntry>, id: string, watchedOn: string, k: nat)
    requires id != "" && Aggregator.FindIndex(entries, id) == Some(k)
    ensures var out := Add(entries, Some(id), watchedOn, true);
      && |out.rankings| == |entries|
      && out.rankings[k] == WatchedEntry(id, entries[k].rank, watchedOn)
      && (forall j :: 0 <= j < |entries| && j != k ==> out.rankings[j] == entries[j])
      && (forall j :: 0 <= j < |entries| ==> out.rankings[j].rank == entries[j].rank && out.rankings[j].mediaId == entries[j].mediaId)
      && (out.saved <==> entries[k].watchedOn != watchedOn)
      && (out.saved <==> out.rankings != entries)
      && out.reply == Success(Reply(200, out.rankings[k]))
  {
    var out := Add(entries, Some(id), watchedOn, true);
    if !out.saved {
      assert out.rankings == entries;
    } else {
      assert out.rankings[k] != entries[k];
    }
  }

  /** Adding a new item appends exactly one entry, after every other, whose
      rank is strictly greater than all earlier ranks (1 for an empty list). */
  lemma FirstAddAppends(entries: seq<WatchedEntry>, id: string, watchedOn: string)
    requires id != "" && Aggregator.FindIndex(entries, id).None?
    ensures var out := Add(entries, Some(id), watchedOn, true);
      && out.rankings == entries + [WatchedEntry(id, NewRank(entries), watchedOn)]
      && (forall j :: 0 <= j < |entries| ==> entries[j].rank < NewRank(entries))
      && (|entries| == 0 ==> NewRank(entries) == 1)
      && (|entries| > 0 ==> exists j :: 0 <= j < |entries| && NewRank(entries) == entries[j].rank + 1)
      && out.saved && out.reply == Success(Reply(201, out.rankings[|entries|]))
  {
  }

  /** Repeating the same request changes nothing more. */
  lemma AddIsIdempotent(entries: seq<WatchedEntry>, mediaId: Option<string>, watchedOn: string, mediaExists: bool)
    ensures var once := Add(entries, mediaId, watchedOn, mediaExists).rankings;
      && Add(once, mediaId, watchedOn, mediaExists).rankings == once
      && !Add(once, mediaId, watchedOn, mediaExists).saved
  {
    var once := Add(entries, mediaId, watchedOn, mediaExists).rankings;
    if !Missing(mediaId) && mediaExists {
      var id := mediaId.value;
      match Aggregator.FindIndex(entries, id)
      case Some(k) =>
        assert once[k].mediaId == id;
        forall j | 0 <= j < k ensures once[j].mediaId != id {
          assert once[j] == entries[j];
        }
        FindIndexAt(once, id, k);
      case None =>
        var n := |entries|;
        assert once[n].mediaId == id;
        forall j | 0 <= j < n ensures once[j].mediaId != id {
          assert once[j] == entries[j];
        }
        FindIndexAt(once, id, n);
    }
  }

  /** `findIndex` finds the first entry carrying the id. */
  lemma FindIndexAt(entries: seq<WatchedEntry>, id: string, k: nat)
    requires k < |entries| && entries[k].mediaId == id
    requires forall j :: 0 <= j < k ==> entries[j].mediaId != id
    ensures Aggregator.FindIndex(entries, id) == Some(k)
  {
  }

  function StoredIds(entries: seq<WatchedEntry>): seq<MediaId>
  {
    seq(|entries|, k requires 0 <= k < |entries| => entries[k].mediaId)
  }

  /** The rule never creates a second entry for the same media item. */
  lemma AddKeepsIdsDistinct(entries: seq<WatchedEntry>, mediaId: Option<string>, watchedOn: string, mediaExists: bool)
    requires StableSort.NoDuplicates(StoredIds(entries))
    ensures StableSort.NoDuplicates(StoredIds(Add(entries, mediaId, watchedOn, mediaExists).rankings))
  {
    var out := Add(entries, mediaId, watchedOn, mediaExists).rankings;
    if !Missing(mediaId) && mediaExists && Aggregator.FindIndex(entries, mediaId.value).None? {
      var n := |entries|;
      forall a, b | 0 <= a < b < |out| ensures StoredIds(out)[a] != StoredIds(out)[b] {
        if b < n {
          assert StoredIds(out)[a] == StoredIds(entries)[a] && StoredIds(out)[b] == StoredIds(entries)[b];
        } else {
          assert StoredIds(out)[a] == entries[a].mediaId;
        }
      }
    } else {
      assert StoredIds(out) == StoredIds(entries);
    }
  }

  // ---------------------------------------------------------------------
  // The rank-ordered view

  function EntryRank(e: PopulatedEntry): real { e.rank as real }

  /** `[...user.rankings].sort((a, b) => a.rank - b.rank)`: a sorted copy. */
  function RankingsView(entries: seq<PopulatedEntry>): seq<PopulatedEntry>
  {
    StableSort.SortBy(entries, EntryRank)
  }

  /** The view holds the stored entries, each as often as stored, in
      ascending rank order. */
  lemma RankingsViewIsSortedPermutation(entries: seq<PopulatedEntry>)
    ensures multiset(RankingsView(entries)) == multiset(entries)
    ensures forall i, j :: 0 <= i < j < |RankingsView(entries)| ==> RankingsView(entries)[i].rank <= RankingsView(entries)[j].rank
  {
    StableSort.SortByIsSortedPermutation(entries, EntryRank);
    var v := RankingsView(entries);
    forall i, j | 0 <= i < j < |v| ensures v[i].rank <= v[j].rank {
      assert EntryRank(v[i]) <= EntryRank(v[j]);
    }
  }

  /** Entries of equal rank keep their stored order. */
  lemma RankingsViewKeepsStoredOrderOnTies(entries: seq<PopulatedEntry>, i: nat, j: nat)
    requires StableSort.NoDuplicates(entries)
    requires i < j < |RankingsView(entries)| && RankingsView(entries)[i].rank == RankingsView(entries)[j].rank
    ensures RankingsView(entries)[i] in entries && RankingsView(entries)[j] in entries
    ensures StableSort.IndexOf(entries, RankingsView(entries)[i]) < StableSort.IndexOf(entries, RankingsView(entries)[j])
  {
    StableSort.SortByIsStable(entries, EntryRank, i, j);
  }

  // ---------------------------------------------------------------------
  // Guards in front of the services

  const ValidCategories: seq<string> := ["genre", "platform", "type", "language", "length", "rating"]

  /** `GET /:userId/rankings/:category` after the user lookup. */
  function CategoryView(entries: seq<PopulatedEntry>, category: string): Result<map<string, seq<FacetClassifier.Item>>, Rejection>
  {
    if category in ValidCategories then Success(FacetClassifier.Grouped(entries, category))
    else Failure(Rejection(400, "Invalid category"))
  }

  method RankingsByCategory(entries: seq<PopulatedEntry>, category: string)
    returns (r: Result<map<string, seq<FacetClassifier.Item>>, Rejection>)
    ensures r == CategoryView(entries, category)
  {
    if category !in ValidCategories {
      return Failure(Rejection(400, "Invalid category"));
    }
    var groups := FacetClassifier.GroupRankingsByCategory(entries, category);
    r := Success(groups);
  }

  /** A category outside the six is refused with 400 'Invalid category';
      one of the six yields the grouping, every bucket of which is a label
      of some populated entry. */
  lemma CategoryGuard(entries: seq<PopulatedEntry>, category: string)
    ensures CategoryView(entries, category).Failure? <==> category !in ValidCategories
    ensures CategoryView(entries, category).Failure? ==>
      CategoryView(entries, category).error == Rejection(400, "Invalid category")
    ensures CategoryView(entries, category).Success? ==>
      forall tag :: tag in CategoryView(entries, category).value ==>
        exists k :: 0 <= k < |entries| && entries[k].media.Some? && tag in FacetClassifier.LabelsOf(entries[k], category)
  {
    if category in ValidCategories {
      FacetClassifier.GroupedIsFiledByLabel(entries, category);
    }
  }

  /** `GET /:userId/comparison-pair` after the user lookup: the ids are the
      stored entries' media ids, whether or not their documents exist. */
  function PairView(entries: seq<WatchedEntry>, log: seq<Comparison>): Result<(MediaId, MediaId), Rejection>
  {
    var ids := StoredIds(entries);
    if |ids| < 2 then Failure(Rejection(400, "Need at least 2 watched items to compare"))
    else match PairSelector.NextPair(ids, log)
      case None => Failure(Rejection(404, "No valid comparison pair found"))
      case Some(pair) => Success(pair)
  }

  method ComparisonPair(user: User, log: seq<Comparison>) returns (r: Result<(MediaId, MediaId), Rejection>)
    ensures r == PairView(user.rankings, log)
  {
    var ids := StoredIds(user.rankings);
    if |ids| < 2 {
      return Failure(Rejection(400, "Need at least 2 watched items to compare"));
    }
    var pair := PairSelector.FindNextComparisonPair(ids, log);
    if pair.None? {
      return Failure(Rejection(404, "No valid comparison pair found"));
    }
    r := Success(pair.value);
  }

  /** Fewer than two watched entries are refused before selection; with two
      or more a pair is always found, so the 'no pair' reply cannot occur
      (given the ids, without the media lookups that follow selection). */
  lemma PairGuard(entries: seq<WatchedEntry>, log: seq<Comparison>)
    ensures PairView(entries, log).Failure? <==> |entries| < 2
    ensures PairView(entries, log).Failure? ==> PairView(entries, log).error.status == 400
    ensures PairView(entries, log).Success? ==>
      exists i, j :: 0 <= i < j < |entries| && PairView(entries, log).value == (entries[i].mediaId, entries[j].mediaId)
        && PairSelector.IsEarliestLeastCompared(StoredIds(entries), log, i, j)
  {
    PairSelector.NextPairIsEarliestLeastCompared(StoredIds(entries), log);
  }
}
