/** The catalogue mapping helpers of the Watchmode integration: source ids
    to platform names, cleaning of genre names, conversion of a Watchmode
    title into a media record, and the reverse lookup of a platform name. */
module Catalogue {
  import opened Wrappers
  import opened Domain
  import FacetClassifier

  /** `PLATFORM_MAPPING`: Watchmode source id to platform name. */
  const PlatformMapping: map<int, string> := map[
    203 := "Netflix", 157 := "Hulu", 26 := "Amazon Prime", 387 := "HBO Max",
    371 := "Apple TV+", 372 := "Disney+", 444 := "Paramount+", 389 := "Peacock"]

  /** `Object.keys(PLATFORM_MAPPING)`: integer-like keys enumerate in
      ascending numeric order, whatever the order they were written in. */
  const MappingKeys: seq<int> := [26, 157, 203, 371, 372, 387, 389, 444]

  // ---------------------------------------------------------------------
  // Source ids to platforms

  /** `mapSourcesToPlatforms`: a missing list gives no platforms; otherwise
      each known source id becomes its platform name, unknown ones are
      dropped. */
  function MapSourcesToPlatforms(sources: Option<seq<int>>): seq<string>
  {
    if sources.None? then [] else KnownPlatforms(sources.value)
  }

  function KnownPlatforms(ids: seq<int>): seq<string>
  {
    if |ids| == 0 then []
    else (if ids[0] in PlatformMapping then [PlatformMapping[ids[0]]] else []) + KnownPlatforms(ids[1..])
  }

  /** The known ids of a list, in order. */
  function KnownIds(ids: seq<int>): seq<int>
  {
    if |ids| == 0 then []
    else (if ids[0] in PlatformMapping then [ids[0]] else []) + KnownIds(ids[1..])
  }

  lemma {:induction false} KnownPlatformsPointwise(ids: seq<int>)
    ensures |KnownPlatforms(ids)| == |KnownIds(ids)| <= |ids|
    ensures forall k :: 0 <= k < |KnownIds(ids)| ==>
      KnownIds(ids)[k] in PlatformMapping && KnownPlatforms(ids)[k] == PlatformMapping[KnownIds(ids)[k]]
  {
    if |ids| > 0 {
      KnownPlatformsPointwise(ids[1..]);
    }
  }

  lemma {:induction false} KnownIdsMembership(ids: seq<int>)
    ensures forall x :: x in KnownIds(ids) <==> x in ids && x in PlatformMapping
  {
    if |ids| > 0 {
      KnownIdsMembership(ids[1..]);
      forall x ensures x in KnownIds(ids) <==> x in ids && x in PlatformMapping {
        assert x in ids <==> x == ids[0] || x in ids[1..];
      }
    }
  }

  lemma {:induction false} KnownIdsOfKnownList(ids: seq<int>)
    requires forall i :: 0 <= i < |ids| ==> ids[i] in PlatformMapping
    ensures KnownIds(ids) == ids
  {
    if |ids| > 0 {
      KnownIdsOfKnownList(ids[1..]);
    }
  }

  /** The platforms are, in input order, the names of the known ids; there
      are no more of them than ids, each is a mapped platform, and a list of
      known ids loses nothing. */
  lemma PlatformsAreNamesOfKnownIds(ids: seq<int>)
    ensures |KnownPlatforms(ids)| == |KnownIds(ids)| <= |ids|
    ensures forall k :: 0 <= k < |KnownIds(ids)| ==>
      KnownIds(ids)[k] in PlatformMapping && KnownPlatforms(ids)[k] == PlatformMapping[KnownIds(ids)[k]]
    ensures forall x :: x in KnownIds(ids) <==> x in ids && x in PlatformMapping
    ensures forall p :: p in KnownPlatforms(ids) ==> IsPlatform(p)
    ensures (forall x :: x in ids ==> x in PlatformMapping) ==> KnownIds(ids) == ids
  {
    KnownPlatformsPointwise(ids);
    KnownIdsMembership(ids);
    forall p | p in KnownPlatforms(ids) ensures IsPlatform(p) {
      var k :| 0 <= k < |KnownPlatforms(ids)| && KnownPlatforms(ids)[k] == p;
      assert PlatformMapping[KnownIds(ids)[k]] == p;
    }
    if forall x :: x in ids ==> x in PlatformMapping {
      KnownIdsOfKnownList(ids);
    }
  }

  lemma MissingSourcesHaveNoPlatforms()
    ensures MapSourcesToPlatforms(None) == []
  {
  }

  // ---------------------------------------------------------------------
  // The reverse lookup

  /** `keys.find(key => PLATFORM_MAPPING[key] === name)`. */
  function FindKey(keys: seq<int>, name: string): Option<int>
    requires forall i :: 0 <= i < |keys| ==> keys[i] in PlatformMapping
  {
    if |keys| == 0 then None
    else if PlatformMapping[keys[0]] == name then Some(keys[0])
    else FindKey(keys[1..], name)
  }

  /** The source id of a platform name, if it has one. */
  function ResolvePlatform(name: string): Option<int>
  {
    FindKey(MappingKeys, name)
  }

  /** A platform name of the mapping. */
  predicate IsPlatform(name: string)
  {
    exists k :: k in PlatformMapping && PlatformMapping[k] == name
  }

  lemma MappingKeysAreTheKeys()
    ensures forall k :: k in MappingKeys <==> k in PlatformMapping
  {
  }

  lemma {:induction false} FindKeyFinds(keys: seq<int>, name: string)
    requires forall i :: 0 <= i < |keys| ==> keys[i] in PlatformMapping
    ensures FindKey(keys, name).Some? <==> exists i :: 0 <= i < |keys| && PlatformMapping[keys[i]] == name
    ensures FindKey(keys, name).Some? ==>
      FindKey(keys, name).value in PlatformMapping && PlatformMapping[FindKey(keys, name).value] == name
  {
    if |keys| > 0 {
      FindKeyFinds(keys[1..], name);
      if PlatformMapping[keys[0]] != name {
        forall i | 0 <= i < |keys| && PlatformMapping[keys[i]] == name
          ensures 0 <= i - 1 < |keys[1..]| && PlatformMapping[keys[1..][i - 1]] == name
        {
          assert i != 0;
        }
      } else {
        assert PlatformMapping[keys[0]] == name;
      }
    }
  }

  /** A name resolves exactly when it is a platform of the mapping, and to a
      source id that maps back to it. */
  lemma ResolvePlatformFindsAnId(name: string)
    ensures ResolvePlatform(name).Some? <==> IsPlatform(name)
    ensures ResolvePlatform(name).Some? ==>
      ResolvePlatform(name).value in PlatformMapping && PlatformMapping[ResolvePlatform(name).value] == name
  {
    MappingKeysAreTheKeys();
    FindKeyFinds(MappingKeys, name);
    if IsPlatform(name) {
      var k :| k in PlatformMapping && PlatformMapping[k] == name;
      assert k in MappingKeys;
      var i :| 0 <= i < |MappingKeys| && MappingKeys[i] == k;
    }
  }

  lemma ResolvesLowerIds()
    ensures ResolvePlatform("Amazon Prime") == Some(26) && ResolvePlatform("Hulu") == Some(157)
    ensures ResolvePlatform("Netflix") == Some(203) && ResolvePlatform("Apple TV+") == Some(371)
  {
  }

  lemma ResolvesUpperIds()
    ensures ResolvePlatform("Disney+") == Some(372) && ResolvePlatform("HBO Max") == Some(387)
    ensures ResolvePlatform("Peacock") == Some(389) && ResolvePlatform("Paramount+") == Some(444)
  {
  }

  /** No two source ids share a name, so a known id's name resolves back to
      that id. */
  lemma ResolvePlatformIsInverse(id: int)
    requires id in PlatformMapping
    ensures ResolvePlatform(PlatformMapping[id]) == Some(id)
  {
    ResolvesLowerIds();
    ResolvesUpperIds();
    assert id in MappingKeys;
  }

  /** The statistics `syncPlatformTitles` returns. */
  datatype SyncStats = SyncStats(added: nat, updated: nat, error: Option<string>)

  /** The start of `syncPlatformTitles`: an unknown platform ends the sync
      with empty statistics and an error; a known one yields the source id
      whose titles are then fetched. */
  function SyncPlatformStart(name: string): Result<int, SyncStats>
  {
    match ResolvePlatform(name)
    case None => Failure(SyncStats(0, 0, Some("Unknown platform")))
    case Some(id) => Success(id)
  }

  lemma SyncRejectsUnknownPlatforms(name: string)
    ensures SyncPlatformStart(name).Failure? <==> !IsPlatform(name)
    ensures SyncPlatformStart(name).Failure? ==> SyncPlatformStart(name).error == SyncStats(0, 0, Some("Unknown platform"))
    ensures SyncPlatformStart(name).Success? ==> SyncPlatformStart(name).value in PlatformMapping
    ensures SyncPlatformStart(name).Success? ==> PlatformMapping[SyncPlatformStart(name).value] == name
  {
    ResolvePlatformFindsAnId(name);
  }

  // ---------------------------------------------------------------------
  // Genre names

  /** `\d` without the `u` flag: an ASCII digit. */
  predicate IsDigit(c: char) { '0' <= c <= '9' }

  /** `\s`, which is also what `trim` removes: the ECMAScript white space
      and line terminator characters. */
  predicate IsSpace(c: char)
  {
    c == ' ' || ('\t' <= c <= '\r')
    || c == '\U{00A0}' || c == '\U{1680}' || ('\U{2000}' <= c <= '\U{200A}')
    || c == '\U{2028}' || c == '\U{2029}' || c == '\U{202F}' || c == '\U{205F}'
    || c == '\U{3000}' || c == '\U{FEFF}'
  }

  /** The length of the longest prefix of digits. */
  function Digits(s: string): (n: nat)
    ensures n <= |s|
  {
    if |s| == 0 || !IsDigit(s[0]) then 0 else 1 + Digits(s[1..])
  }

  /** The length of the longest prefix of white space. */
  function LeadingSpace(s: string): (n: nat)
    ensures n <= |s|
  {
    if |s| == 0 || !IsSpace(s[0]) then 0 else 1 + LeadingSpace(s[1..])
  }

  /** The length of the part the genre pattern removes: a leading run of
      digits and the white space right after it; without a leading digit the
      pattern does not match and nothing is removed. */
  function NumberPrefix(s: string): (n: nat)
    ensures n <= |s|
  {
    var d := Digits(s);
    if d == 0 then 0 else d + LeadingSpace(s[d..])
  }

  function StripNumber(s: string): string
  {
    s[NumberPrefix(s)..]
  }

  /** The length of the longest suffix of white space. */
  function TrailingSpace(s: string): (n: nat)
    ensures n <= |s|
  {
    if |s| == 0 || !IsSpace(s[|s| - 1]) then 0
    else 1 + TrailingSpace(s[..|s| - 1])
  }

  /** Where `trim()` cuts the end of `s`: before the trailing white space of
      what is left after the leading white space. */
  function TrimEnd(s: string): (n: nat)
    ensures LeadingSpace(s) <= n <= |s|
  {
    |s| - TrailingSpace(s[LeadingSpace(s)..])
  }

  /** `trim()`. */
  function Trim(s: string): string
  {
    s[LeadingSpace(s)..TrimEnd(s)]
  }

  function CleanGenre(g: string): string
  {
    Trim(StripNumber(g))
  }

  /** `mapGenres`: a missing list gives none; otherwise every name cleaned. */
  function MapGenres(genres: Option<seq<string>>): seq<string>
  {
    if genres.None? then [] else seq(|genres.value|, k requires 0 <= k < |genres.value| => CleanGenre(genres.value[k]))
  }

  /** The leading run of white space is all white space and stops at the
      first other character. */
  lemma {:induction false} LeadingSpaceStops(s: string)
    ensures forall k :: 0 <= k < LeadingSpace(s) ==> IsSpace(s[k])
    ensures LeadingSpace(s) < |s| ==> !IsSpace(s[LeadingSpace(s)])
  {
    if |s| > 0 && IsSpace(s[0]) {
      LeadingSpaceStops(s[1..]);
    }
  }

  /** The trailing run of white space is all white space and stops at the
      last other character. */
  lemma {:induction false} TrailingSpaceStops(s: string)
    ensures forall k :: |s| - TrailingSpace(s) <= k < |s| ==> IsSpace(s[k])
    ensures TrailingSpace(s) < |s| ==> !IsSpace(s[|s| - TrailingSpace(s) - 1])
  {
    if |s| > 0 && IsSpace(s[|s| - 1]) {
      TrailingSpaceStops(s[..|s| - 1]);
    }
  }

  /** A trimmed string neither starts nor ends with white space. */
  lemma TrimLeavesNoSurroundingSpace(s: string)
    ensures |Trim(s)| > 0 ==> !IsSpace(Trim(s)[0]) && !IsSpace(Trim(s)[|Trim(s)| - 1])
  {
    var lead := LeadingSpace(s);
    var rest := s[lead..];
    var t := Trim(s);
    if |t| > 0 {
      LeadingSpaceStops(s);
      TrailingSpaceStops(rest);
      assert t[0] == s[lead];
      assert t[|t| - 1] == rest[|rest| - TrailingSpace(rest) - 1];
    }
  }

  /** A cleaned genre has no white space at either end ... */
  lemma CleanGenreHasNoSurroundingSpace(g: string)
    ensures |CleanGenre(g)| > 0 ==> !IsSpace(CleanGenre(g)[0]) && !IsSpace(CleanGenre(g)[|CleanGenre(g)| - 1])
  {
    var t := CleanGenre(g);
    assert t == Trim(StripNumber(g));
    TrimLeavesNoSurroundingSpace(StripNumber(g));
  }

  /** ... and is a stretch of the original name. */
  lemma CleanGenreIsStretch(g: string)
    ensures var off := NumberPrefix(g); var rest := g[off..];
      CleanGenre(g) == g[off + LeadingSpace(rest)..off + TrimEnd(rest)]
  {
    var off := NumberPrefix(g);
    var rest := g[off..];
    var i, j := LeadingSpace(rest), TrimEnd(rest);
    assert CleanGenre(g) == Trim(rest) == rest[i..j];
    SliceOfSuffix(g, off, i, j);
  }

  lemma SliceOfSuffix(s: string, off: nat, i: nat, j: nat)
    requires off <= |s| && i <= j <= |s| - off
    ensures s[off..][i..j] == s[off + i..off + j]
  {
  }

  /** A name with neither a leading digit nor surrounding white space is
      already clean. */
  lemma CleanNamesAreFixpoints(g: string)
    requires |g| == 0 || (!IsDigit(g[0]) && !IsSpace(g[0]) && !IsSpace(g[|g| - 1]))
    ensures CleanGenre(g) == g
  {
    if |g| > 0 {
      assert Digits(g) == 0;
      assert LeadingSpace(g) == 0;
      assert TrailingSpace(g) == 0;
      assert g[0..] == g;
      assert g[..|g|] == g;
    }
  }

  lemma StripNumberExample()
    ensures StripNumber("12 Action ") == "Action "
  {
    var s := "12 Action ";
    assert !IsDigit(s[2]);
    assert Digits(s) == 2;
    var r := s[2..];
    assert r == " Action ";
    assert !IsSpace(r[1]);
    assert LeadingSpace(r) == 1;
    assert NumberPrefix(s) == 3;
  }

  lemma TrimExample()
    ensures Trim("Action ") == "Action"
  {
    var s := "Action ";
    assert !IsSpace(s[0]);
    assert LeadingSpace(s) == 0;
    assert s[0..] == s;
    assert IsSpace(s[6]) && !IsSpace(s[5]);
    assert TrailingSpace(s) == 1;
    assert s[0..6] == "Action";
  }

  /** A leading number and the white space around the name are removed. */
  lemma CleanGenreExample()
    ensures CleanGenre("12 Action ") == "Action"
  {
    StripNumberExample();
    TrimExample();
  }

  lemma StripNumberTwoNumbers()
    ensures StripNumber("1 2 Drama") == "2 Drama"
  {
    var s := "1 2 Drama";
    assert !IsDigit(s[1]);
    assert Digits(s) == 1;
    assert s[1..] == " 2 Drama";
    assert !IsSpace(s[1..][1]);
    assert LeadingSpace(s[1..]) == 1;
  }

  lemma TrimTwoNumbers()
    ensures Trim("2 Drama") == "2 Drama"
  {
    var t := "2 Drama";
    assert !IsSpace(t[0]) && !IsSpace(t[6]);
    assert LeadingSpace(t) == 0 && TrailingSpace(t) == 0;
    assert t[0..7] == t;
  }

  lemma StripNumberOneNumber()
    ensures |StripNumber("2 Drama")| == 5
  {
    var t := "2 Drama";
    assert !IsDigit(t[1]);
    assert Digits(t) == 1;
    assert t[1..] == " Drama";
    assert !IsSpace(t[1..][1]);
    assert LeadingSpace(t[1..]) == 1;
  }

  /** Only one number is removed, so cleaning is not idempotent on a name
      that carries two. */
  lemma CleanGenreIsNotIdempotent()
    ensures CleanGenre("1 2 Drama") == "2 Drama"
    ensures CleanGenre(CleanGenre("1 2 Drama")) != CleanGenre("1 2 Drama")
  {
    StripNumberTwoNumbers();
    TrimTwoNumbers();
    StripNumberOneNumber();
    assert |CleanGenre("2 Drama")| <= 5;
  }

  lemma MapGenresKeepsLength(genres: Option<seq<string>>)
    ensures genres.None? ==> MapGenres(genres) == []
    ensures genres.Some? ==> |MapGenres(genres)| == |genres.value|
    ensures genres.Some? ==> forall k :: 0 <= k < |genres.value| ==> MapGenres(genres)[k] == CleanGenre(genres.value[k])
  {
  }

  // ---------------------------------------------------------------------
  // Conversion to a media record

  /** The fields of a Watchmode search or list result that are used. */
  datatype WatchmodeTitle = WatchmodeTitle(
    title: string, kind: string, id: int, year: Option<int>, imdbId: Option<string>, tmdbId: Option<int>)

  /** The fields of a Watchmode details response that are used; `sources`
      holds the `source_id` of each source. */
  datatype Details = Details(
    genres: Option<seq<string>>, sources: Option<seq<int>>, userRating: Option<real>,
    originalLanguage: Option<string>, poster: Option<string>, backdrop: Option<string>,
    runtimeMinutes: Option<int>, episodeCount: Option<int>)

  /** The fields set only when details are available. */
  datatype Extra = Extra(
    genres: seq<string>, platforms: seq<string>, imdbRating: Option<real>, languages: seq<string>,
    poster: Option<string>, backdrop: Option<string>, length: int)

  datatype MediaRecord = MediaRecord(
    title: string, kind: MediaType, watchmodeId: int, releaseYear: Option<int>,
    imdbId: Option<string>, tmdbId: Option<int>, extra: Option<Extra>)

  /** `x || 0` on an optional number. */
  function OrZero(x: Option<int>): int
  {
    if x.None? then 0 else x.value
  }

  /** `convertToMediaFormat`. */
  function ConvertToMediaFormat(t: WatchmodeTitle, details: Option<Details>): MediaRecord
  {
    var kind := if t.kind == "movie" then Movie else Tv;
    MediaRecord(t.title, kind, t.id, t.year, t.imdbId, t.tmdbId,
      if details.None? then None
      else
        var d := details.value;
        Some(Extra(
          MapGenres(d.genres),
          MapSourcesToPlatforms(d.sources),
          d.userRating,
          if d.originalLanguage.Some? && d.originalLanguage.value != "" then [d.originalLanguage.value] else [],
          d.poster,
          d.backdrop,
          if kind == Movie then OrZero(d.runtimeMinutes) else OrZero(d.episodeCount))))
  }

  /** The record's type is 'movie' exactly for Watchmode movies; without
      details only the basic fields are set; with details the length is the
      runtime of a movie or the episode count of a show, 0 when missing, and
      the languages are the original language if there is one. */
  lemma ConversionFacts(t: WatchmodeTitle, details: Option<Details>)
    ensures ConvertToMediaFormat(t, details).kind == Movie <==> t.kind == "movie"
    ensures ConvertToMediaFormat(t, details).extra.None? <==> details.None?
    ensures var r := ConvertToMediaFormat(t, details);
      r.title == t.title && r.watchmodeId == t.id && r.releaseYear == t.year && r.imdbId == t.imdbId && r.tmdbId == t.tmdbId
    ensures details.Some? ==> var e := ConvertToMediaFormat(t, details).extra.value;
      && e.length == (if t.kind == "movie" then OrZero(details.value.runtimeMinutes) else OrZero(details.value.episodeCount))
      && |e.languages| <= 1
      && (|e.languages| == 1 <==> details.value.originalLanguage.Some? && details.value.originalLanguage.value != "")
      && |e.platforms| <= (if details.value.sources.Some? then |details.value.sources.value| else 0)
      && (forall p :: p in e.platforms ==> IsPlatform(p))
      && |e.genres| == (if details.value.genres.Some? then |details.value.genres.value| else 0)
  {
    if details.Some? && details.value.sources.Some? {
      PlatformsAreNamesOfKnownIds(details.value.sources.value);
    }
  }

  /** The stored media document as the ranking engine sees it: the fields
      that were never set are read as missing or empty. */
  function AsMedia(r: MediaRecord, id: MediaId): Media
  {
    match r.extra
    case None => Media(id, r.kind, [], [], [], None, None)
    case Some(e) => Media(id, r.kind, e.genres, e.languages, e.platforms, e.imdbRating, Some(e.length))
  }

  /** How the length tier reads a converted title: without details the length
      is never set and a movie falls in the longest tier; with details but
      no runtime the length is 0 and a movie falls in the shortest. */
  lemma ConvertedLengthTiers(t: WatchmodeTitle, details: Option<Details>, id: MediaId)
    requires t.kind == "movie"
    ensures details.None? ==>
      FacetClassifier.LengthLabel(AsMedia(ConvertToMediaFormat(t, details), id)) == "Long (>120 min)"
    ensures details.Some? && details.value.runtimeMinutes.None? ==>
      FacetClassifier.LengthLabel(AsMedia(ConvertToMediaFormat(t, details), id)) == "Short (<90 min)"
  {
  }
}
