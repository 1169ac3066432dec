/** The records the ranking engine reads and writes: media items, pairwise
    comparisons, and the per-user list of watched entries. The document store
    is abstracted away: a user is an object with a `rankings` list that the
    operations update in place, and everything else is passed in as values. */
module Domain {
  import opened Wrappers

  /** A media item's identity: the string form of its database id, which is
      what the source compares (`toString()` / `equals`). */
  type MediaId = string

  /** `s` with `x` appended unless already present: the key order of a
      JavaScript object (non-numeric keys) or the iteration order of a `Set`
      as keys are first added. */
  function AddNew(s: seq<string>, x: string): seq<string>
  {
    if x in s then s else s + [x]
  }

  /** `order` extended by the elements of `ps` not yet in it, in order: the
      key order of an object after pushing to each key of `ps`. */
  function AddAll(order: seq<string>, ps: seq<string>): seq<string>
  {
    if |ps| == 0 then order else AddNew(AddAll(order, ps[..|ps| - 1]), ps[|ps| - 1])
  }

  /** How often `x` occurs in `s`. */
  function Occurrences(s: seq<string>, x: string): nat
  {
    if |s| == 0 then 0
    else Occurrences(s[..|s| - 1], x) + (if s[|s| - 1] == x then 1 else 0)
  }

  lemma {:induction false} AddAllMembership(order: seq<string>, ps: seq<string>, p: string)
    ensures p in AddAll(order, ps) <==> p in order || p in ps
  {
    if |ps| > 0 {
      var init := ps[..|ps| - 1];
      AddAllMembership(order, init, p);
      assert ps == init + [ps[|ps| - 1]];
    }
  }

  lemma {:induction false} OccurrencesOfAbsent(ps: seq<string>, p: string)
    requires p !in ps
    ensures Occurrences(ps, p) == 0
  {
    if |ps| > 0 {
      assert ps[..|ps| - 1] <= ps;
      OccurrencesOfAbsent(ps[..|ps| - 1], p);
    }
  }

  /** One pairwise preference recorded by the user. */
  datatype Comparison = Comparison(winner: MediaId, loser: MediaId)

  datatype MediaType = Movie | Tv
  {
    /** The stored enum value, as it appears in the `type` field. */
    function Name(): string
    {
      match this
      case Movie => "movie"
      case Tv => "tv"
    }
  }

  /** A catalogue item as the engine sees it after population. `length` is
      minutes for a movie and episodes for a show; it and `imdbRating` may be
      missing from the stored document. */
  datatype Media = Media(
    id: MediaId,
    kind: MediaType,
    genres: seq<string>,
    languages: seq<string>,
    platforms: seq<string>,
    imdbRating: Option<real>,
    length: Option<int>)

  /** An element of a user's stored `rankings` list. */
  datatype WatchedEntry = WatchedEntry(mediaId: MediaId, rank: int, watchedOn: string)

  /** The same element after `mediaId` has been populated with the media
      document; `None` when the referenced document no longer exists. */
  datatype PopulatedEntry = PopulatedEntry(media: Option<Media>, rank: int, watchedOn: string)

  /** The part of a user document that the engine touches. */
  class User {
    var rankings: seq<WatchedEntry>
    var subscriptions: seq<string>

    constructor (rankings: seq<WatchedEntry>, subscriptions: seq<string>)
      ensures this.rankings == rankings && this.subscriptions == subscriptions
    {
      this.rankings := rankings;
      this.subscriptions := subscriptions;
    }
  }
}
