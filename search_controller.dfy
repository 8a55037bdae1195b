/** The four request handlers of Backend/Controllers/searchController.js.
    Each checks its required parameter before anything else, takes a token
    from the shared cache, and then makes its upstream requests (oracle
    parameters); any failure after the guard gives one 500 response with a
    fixed message and nothing of the work done so far. */
module SearchController {
  import opened Wrappers
  import opened Text
  import opened Auth
  import opened Aggregation

  /** The JSON body of a response. */
  datatype Body =
    | Message(error: string)                          // { error: ... }
    | Items(items: seq<Track>)                        // a bare array of tracks
    | TrackList(tracks: seq<Track>)                   // { tracks: [...] }
    | Grouped(input: seq<Artist>, similar: seq<Artist>)  // { input, similar }

  datatype Response = Response(status: int, body: Body)

  /** The search endpoint queried for tracks with (bearer token, q),
      `limit: 10`: its `tracks.items`. */
  type TrackSearchOracle = (string, string) -> Outcome<seq<Track>>

  const MissingQuery := Response(400, Message("Missing query"))
  const SearchFailed := Response(500, Message("Spotify search failed"))
  const ArtistsRequired := Response(400, Message("Artists required"))
  const PreferenceFailed := Response(500, Message("Failed to fetch artists by preference"))
  const NoArtistsFound := Response(404, Message("No artists found on Spotify"))
  const RecommendationsFailed := Response(500, Message("Failed to fetch recommendations"))
  const ArtistIdRequired := Response(400, Message("Artist ID required"))
  const ArtistTracksFailed := Response(500, Message("Failed to fetch artist's tracks"))

  /** A parameter passes the `!param` guard: it is there and not empty. */
  predicate Given(param: Option<string>) {
    param.Some? && param.value != ""
  }

  // ---------------------------------------------------------------------
  // Seed parsing
  // ---------------------------------------------------------------------

  /** `artists.split(",").map(a => a.trim())`: one seed per comma-separated
      piece, trimmed, in order. */
  function PreferenceSeeds(artists: string): (seeds: seq<string>)
    ensures |seeds| == |Split(artists, ',')|
    ensures forall k :: 0 <= k < |seeds| ==> Bare(seeds[k]) && ',' !in seeds[k]
  {
    var parts := Split(artists, ',');
    var seeds := seq(|parts|, k requires 0 <= k < |parts| => Trim(parts[k]));
    assert forall k :: 0 <= k < |seeds| ==> ',' !in seeds[k] by {
      forall k | 0 <= k < |seeds| ensures ',' !in seeds[k] {
        if ',' in seeds[k] { TrimKeepsChars(parts[k], ','); }
      }
    }
    seeds
  }

  /** Seed k is piece k with white space taken off both ends: a slice of the
      piece with only white space around it. */
  lemma PreferenceSeedTrimmed(artists: string, k: nat)
    requires k < |Split(artists, ',')|
    ensures exists lo :: TrimmedAt(Split(artists, ',')[k], PreferenceSeeds(artists)[k], lo)
  {
    var piece := Split(artists, ',')[k];
    var lo :| TrimmedAt(piece, Trim(piece), lo);
    assert TrimmedAt(piece, PreferenceSeeds(artists)[k], lo);
  }

  /** Seed k is the one bare slice of piece k with only white space around
      it, so the contract of PreferenceSeeds determines every seed. */
  lemma PreferenceSeedUnique(artists: string, k: nat, r: string, lo: int)
    requires k < |Split(artists, ',')|
    requires Bare(r) && TrimmedAt(Split(artists, ',')[k], r, lo)
    ensures PreferenceSeeds(artists)[k] == r
  {
    TrimUnique(Split(artists, ',')[k], r, lo);
  }

  /** `artists.split(",").map(a => a.trim().replace(/\s+/g, ""))`: one seed
      per piece, with no white space left in it. */
  function RecommendationSeeds(artists: string): (seeds: seq<string>)
    ensures |seeds| == |Split(artists, ',')|
    ensures forall k :: 0 <= k < |seeds| ==> NoSpace(seeds[k]) && ',' !in seeds[k]
  {
    var parts := Split(artists, ',');
    var seeds := seq(|parts|, k requires 0 <= k < |parts| => StripSpace(Trim(parts[k])));
    assert forall k :: 0 <= k < |seeds| ==> NoSpace(seeds[k]) && ',' !in seeds[k] by {
      forall k | 0 <= k < |seeds| ensures NoSpace(seeds[k]) && ',' !in seeds[k] {
        CleanPiece(parts[k]);
      }
    }
    seeds
  }

  lemma CleanPiece(piece: string)
    requires ',' !in piece
    ensures NoSpace(StripSpace(Trim(piece))) && ',' !in StripSpace(Trim(piece))
  {
    if ',' in Trim(piece) {
      TrimKeepsChars(piece, ',');
    }
  }

  /** Trimming first is redundant: each seed is its piece with all white
      space removed. */
  lemma RecommendationSeedsStripped(artists: string, k: nat)
    requires k < |Split(artists, ',')|
    ensures RecommendationSeeds(artists)[k] == StripSpace(Split(artists, ',')[k])
  {
    StripSpaceTrim(Split(artists, ',')[k]);
  }

  /** getRecommendations adds each seed to its Set without stripping it
      again; since a seed holds no white space, that is the same value as the
      stripped key the candidate model adds. */
  lemma RecommendationSeedAddedAsIs(artists: string, k: nat)
    requires k < |RecommendationSeeds(artists)|
    ensures StripSpace(RecommendationSeeds(artists)[k]) == RecommendationSeeds(artists)[k]
  {
  }

  lemma SplitExample()
    ensures Split("A,,B", ',') == ["A", "", "B"]
  {
    assert Split("B", ',') == ["B"] by {
      assert "B"[1..] == [];
    }
    assert Split(",B", ',') == ["", "B"] by {
      assert ",B"[1..] == "B";
    }
    assert Split(",,B", ',') == ["", "", "B"] by {
      assert ",,B"[1..] == ",B";
    }
    assert "A,,B"[1..] == ",,B";
    assert ["", "", "B"][1..] == ["", "B"];
    assert ['A'] + "" == "A";
  }

  /** Both endpoints take one seed per comma-separated piece, empty pieces
      included: one more than there are commas. */
  lemma SeedCount(artists: string)
    ensures |PreferenceSeeds(artists)| == Count(artists, ',') + 1
    ensures |RecommendationSeeds(artists)| == Count(artists, ',') + 1
  {
    SplitCount(artists, ',');
  }

  /** When no piece has white space at its ends, the seeds are the pieces. */
  lemma BarePiecesAreSeeds(artists: string)
    requires forall k :: 0 <= k < |Split(artists, ',')| ==> Bare(Split(artists, ',')[k])
    ensures PreferenceSeeds(artists) == Split(artists, ',')
  {
    var parts := Split(artists, ',');
    forall k | 0 <= k < |parts| ensures PreferenceSeeds(artists)[k] == parts[k] {
      TrimBare(parts[k]);
    }
  }

  /** The empty piece between two commas is kept as an empty seed. */
  lemma EmptyPieceKept()
    ensures PreferenceSeeds("A,,B") == ["A", "", "B"]
  {
    var parts: seq<string> := ["A", "", "B"];
    SplitExample();
    assert forall k :: 0 <= k < |parts| ==> Bare(parts[k]);
    BarePiecesAreSeeds("A,,B");
  }

  // ---------------------------------------------------------------------
  // GET /artists?artists=...
  // ---------------------------------------------------------------------

  /** What getArtistsByPreference answers once it holds a token. */
  function PreferenceResponse(token: string, artists: string, similar: SimilarOracle, search: SearchOracle): Response {
    var seeds := PreferenceSeeds(artists);
    match Candidates(seeds, similar)
    case Failed => PreferenceFailed
    case Ok(names) =>
      match Resolution(token, names, search)
      case Failed => PreferenceFailed
      case Ok(found) => Response(200, Grouped(Select(found, seeds, true), Select(found, seeds, false)))
  }

  /** The body of the `try` block of getArtistsByPreference after the token:
      the loop methods chained as PreferenceResponse chains their
      specification functions. */
  method ArtistsByPreference(token: string, artists: string, similar: SimilarOracle, search: SearchOracle)
    returns (resp: Response)
    ensures resp == PreferenceResponse(token, artists, similar, search)
  {
    var seeds := PreferenceSeeds(artists);
    var names := CollectCandidates(seeds, similar);
    if names.Failed? {
      return PreferenceFailed;
    }
    var found := ResolveArtists(token, names.value, search);
    if found.Failed? {
      return PreferenceFailed;
    }
    return Response(200, Grouped(Select(found.value, seeds, true), Select(found.value, seeds, false)));
  }

  /** getArtistsByPreference. */
  method GetArtistsByPreference(artists: Option<string>, cache: TokenCache, now: int, grant: Outcome<Grant>,
                                similar: SimilarOracle, search: SearchOracle)
    returns (resp: Response)
    modifies cache
    ensures !Given(artists) ==> resp == ArtistsRequired && unchanged(cache)
    ensures Given(artists) ==>
      var step := GetToken(old(cache.State()), now, grant);
      cache.State() == step.next
      && resp == match step.result
                 case Failed => PreferenceFailed
                 case Ok(token) => PreferenceResponse(token, artists.value, similar, search)
  {
    if !Given(artists) {
      return ArtistsRequired;
    }
    var token, fetched := cache.GetAccessToken(now, grant);
    if token.Failed? {
      return PreferenceFailed;
    }
    resp := ArtistsByPreference(token.value, artists.value, similar, search);
  }

  /** Failures: a failed similarity query or a failed artist search gives the
      one fixed 500 response, and every 500 response is that one. */
  lemma PreferenceFailures(token: string, artists: string, similar: SimilarOracle, search: SearchOracle)
    ensures var seeds := PreferenceSeeds(artists);
      var resp := PreferenceResponse(token, artists, similar, search);
      ((exists i :: 0 <= i < |seeds| && similar(seeds[i]).Failed?) ==> resp == PreferenceFailed)
      && (Candidates(seeds, similar).Ok?
          && (exists i :: 0 <= i < |Candidates(seeds, similar).value|
                          && search(token, Candidates(seeds, similar).value[i]).Failed?)
          ==> resp == PreferenceFailed)
      && (resp.status == 200 || resp == PreferenceFailed)
  {
    var seeds := PreferenceSeeds(artists);
    CandidatesShape(seeds, similar);
    if Candidates(seeds, similar).Ok? {
      ResolutionSucceeds(token, Candidates(seeds, similar).value, search);
    }
  }

  /** Success: `input` and `similar` split the resolved artists, in their
      order, by whether the lowercased name contains some lowercased seed. */
  lemma PreferencePartition(token: string, artists: string, similar: SimilarOracle, search: SearchOracle,
                            names: seq<string>, found: seq<Artist>)
    requires Candidates(PreferenceSeeds(artists), similar) == Ok(names)
    requires Resolution(token, names, search) == Ok(found)
    ensures var seeds := PreferenceSeeds(artists);
      var resp := PreferenceResponse(token, artists, similar, search);
      resp.status == 200 && resp.body.Grouped?
      && multiset(resp.body.input) + multiset(resp.body.similar) == multiset(found)
      && (forall a :: !(a in resp.body.input && a in resp.body.similar))
      && Subsequence(resp.body.input, found) && Subsequence(resp.body.similar, found)
      && (forall a :: a in resp.body.input <==> a in found && MatchesSomeSeed(a.name, seeds))
      && (forall a :: a in resp.body.similar <==> a in found && !MatchesSomeSeed(a.name, seeds))
  {
    var seeds := PreferenceSeeds(artists);
    PartitionCovers(found, seeds);
    PartitionDisjointOrdered(found, seeds);
    SelectSpec(found, seeds, true);
    SelectSpec(found, seeds, false);
  }

  /** When no candidate has a search hit, both groups are empty. */
  lemma NothingResolvedEmptyGroups(token: string, artists: string, similar: SimilarOracle, search: SearchOracle,
                                   names: seq<string>)
    requires Candidates(PreferenceSeeds(artists), similar) == Ok(names)
    requires forall i :: 0 <= i < |names| ==> search(token, names[i]) == Ok(None)
    ensures PreferenceResponse(token, artists, similar, search) == Response(200, Grouped([], []))
  {
    NothingResolved(token, names, search);
  }

  /** A list such as "A,,B" holds an empty seed, so every resolved artist
      lands in `input` and `similar` is empty. */
  lemma EmptyPieceAllInput(token: string, similar: SimilarOracle, search: SearchOracle,
                           names: seq<string>, found: seq<Artist>)
    requires Candidates(PreferenceSeeds("A,,B"), similar) == Ok(names)
    requires Resolution(token, names, search) == Ok(found)
    ensures PreferenceResponse(token, "A,,B", similar, search) == Response(200, Grouped(found, []))
  {
    EmptyPieceKept();
    assert PreferenceSeeds("A,,B")[1] == "";
    EmptySeedSelectsAll(found, PreferenceSeeds("A,,B"));
  }

  // ---------------------------------------------------------------------
  // GET /recommendations?artists=...
  // ---------------------------------------------------------------------

  /** What getRecommendations answers once it holds a token. */
  function RecommendationResponse(token: string, artists: string, similar: SimilarOracle, search: SearchOracle,
                                  topTracks: TopTracksOracle): Response
  {
    var seeds := RecommendationSeeds(artists);
    match Candidates(seeds, similar)
    case Failed => RecommendationsFailed
    case Ok(names) =>
      match Resolution(token, names, search)
      case Failed => RecommendationsFailed
      case Ok(found) =>
        if found == [] then NoArtistsFound
        else
          match TopTracks(token, IdsOf(found), topTracks)
          case Failed => RecommendationsFailed
          case Ok(tracks) => Response(200, TrackList(tracks))
  }

  /** The body of the `try` block of getRecommendations after the token: the
      loop methods chained as RecommendationResponse chains their
      specification functions. */
  method Recommend(token: string, artists: string, similar: SimilarOracle, search: SearchOracle,
                   topTracks: TopTracksOracle)
    returns (resp: Response)
    ensures resp == RecommendationResponse(token, artists, similar, search, topTracks)
  {
    var seeds := RecommendationSeeds(artists);
    var names := CollectCandidates(seeds, similar);
    if names.Failed? {
      return RecommendationsFailed;
    }
    var ids := ResolveArtistIds(token, names.value, search);
    if ids.Failed? {
      return RecommendationsFailed;
    }
    if |ids.value| == 0 {
      return NoArtistsFound;
    }
    var tracks := CollectTopTracks(token, ids.value, topTracks);
    if tracks.Failed? {
      return RecommendationsFailed;
    }
    return Response(200, TrackList(tracks.value));
  }

  /** getRecommendations. */
  method GetRecommendations(artists: Option<string>, cache: TokenCache, now: int, grant: Outcome<Grant>,
                            similar: SimilarOracle, search: SearchOracle, topTracks: TopTracksOracle)
    returns (resp: Response)
    modifies cache
    ensures !Given(artists) ==> resp == ArtistsRequired && unchanged(cache)
    ensures Given(artists) ==>
      var step := GetToken(old(cache.State()), now, grant);
      cache.State() == step.next
      && resp == match step.result
                 case Failed => RecommendationsFailed
                 case Ok(token) => RecommendationResponse(token, artists.value, similar, search, topTracks)
  {
    if !Given(artists) {
      return ArtistsRequired;
    }
    var token, fetched := cache.GetAccessToken(now, grant);
    if token.Failed? {
      return RecommendationsFailed;
    }
    resp := Recommend(token.value, artists.value, similar, search, topTracks);
  }

  /** 404 comes exactly when the candidates were all searched and none was
      found; no top-tracks request is made then, so the answer is the same
      whatever that endpoint would say. */
  lemma RecommendationNotFound(token: string, artists: string, similar: SimilarOracle, search: SearchOracle,
                               topTracks: TopTracksOracle, otherTopTracks: TopTracksOracle)
    ensures var seeds := RecommendationSeeds(artists);
      var resp := RecommendationResponse(token, artists, similar, search, topTracks);
      (resp.status == 404 <==>
        Candidates(seeds, similar).Ok? && Resolution(token, Candidates(seeds, similar).value, search) == Ok([]))
      && (resp.status == 404 ==>
            resp == NoArtistsFound
            && RecommendationResponse(token, artists, similar, search, otherTopTracks) == NoArtistsFound)
  {
  }

  /** Success: the tracks are the top tracks of the resolved ids, one block
      per id in id order; and every 500 response is the one fixed response. */
  lemma RecommendationTracks(token: string, artists: string, similar: SimilarOracle, search: SearchOracle,
                             topTracks: TopTracksOracle, names: seq<string>, found: seq<Artist>)
    requires Candidates(RecommendationSeeds(artists), similar) == Ok(names)
    requires Resolution(token, names, search) == Ok(found) && found != []
    ensures var resp := RecommendationResponse(token, artists, similar, search, topTracks);
      (forall i :: 0 <= i < |found| ==> topTracks(token, found[i].id).Ok?) <==> resp.status == 200
    ensures var resp := RecommendationResponse(token, artists, similar, search, topTracks);
      resp.status == 200 ==> resp == Response(200, TrackList(TopTracks(token, IdsOf(found), topTracks).value))
    ensures var resp := RecommendationResponse(token, artists, similar, search, topTracks);
      resp.status != 200 ==> resp == RecommendationsFailed
  {
    TopTracksSucceed(token, IdsOf(found), topTracks);
  }

  /** Failures: a failed similarity query or a failed artist search gives the
      one fixed 500 response. */
  lemma RecommendationFailures(token: string, artists: string, similar: SimilarOracle, search: SearchOracle,
                               topTracks: TopTracksOracle)
    ensures var seeds := RecommendationSeeds(artists);
      var resp := RecommendationResponse(token, artists, similar, search, topTracks);
      ((exists i :: 0 <= i < |seeds| && similar(seeds[i]).Failed?) ==> resp == RecommendationsFailed)
      && (Candidates(seeds, similar).Ok?
          && (exists i :: 0 <= i < |Candidates(seeds, similar).value|
                          && search(token, Candidates(seeds, similar).value[i]).Failed?)
          ==> resp == RecommendationsFailed)
  {
    var seeds := RecommendationSeeds(artists);
    CandidatesShape(seeds, similar);
    match Candidates(seeds, similar)
    case Failed =>
    case Ok(names) => ResolutionSucceeds(token, names, search);
  }

  /** After the token the answer is 200 with tracks, the 404 or the fixed
      500, never anything else. Any answer but the 500 means every
      similarity query and every artist search succeeded, and a 200 means
      every top-tracks request succeeded as well. */
  lemma RecommendationStatuses(token: string, artists: string, similar: SimilarOracle, search: SearchOracle,
                               topTracks: TopTracksOracle)
    ensures var resp := RecommendationResponse(token, artists, similar, search, topTracks);
      resp == NoArtistsFound || resp == RecommendationsFailed || (resp.status == 200 && resp.body.TrackList?)
    ensures var seeds := RecommendationSeeds(artists);
      var resp := RecommendationResponse(token, artists, similar, search, topTracks);
      resp != RecommendationsFailed ==>
        (forall i :: 0 <= i < |seeds| ==> similar(seeds[i]).Ok?)
        && Candidates(seeds, similar).Ok?
        && var names := Candidates(seeds, similar).value;
        (forall i :: 0 <= i < |names| ==> search(token, names[i]).Ok?)
        && Resolution(token, names, search).Ok?
        && (resp.status == 200 ==>
              var found := Resolution(token, names, search).value;
              forall i :: 0 <= i < |found| ==> topTracks(token, found[i].id).Ok?)
  {
    var seeds := RecommendationSeeds(artists);
    CandidatesShape(seeds, similar);
    if Candidates(seeds, similar).Ok? {
      var names := Candidates(seeds, similar).value;
      ResolutionSucceeds(token, names, search);
      if Resolution(token, names, search).Ok? {
        var found := Resolution(token, names, search).value;
        TopTracksSucceed(token, IdsOf(found), topTracks);
      }
    }
  }

  // ---------------------------------------------------------------------
  // GET /search?q=...  and  GET /artist-tracks/:artistId
  // ---------------------------------------------------------------------

  /** searchTracks. */
  method SearchTracks(q: Option<string>, cache: TokenCache, now: int, grant: Outcome<Grant>,
                      trackSearch: TrackSearchOracle)
    returns (resp: Response)
    modifies cache
    ensures !Given(q) ==> resp == MissingQuery && unchanged(cache)
    ensures Given(q) ==>
      var step := GetToken(old(cache.State()), now, grant);
      cache.State() == step.next
      && resp == match step.result
                 case Failed => SearchFailed
                 case Ok(token) =>
                   match trackSearch(token, q.value)
                   case Failed => SearchFailed
                   case Ok(items) => Response(200, Items(items))
  {
    if !Given(q) {
      return MissingQuery;
    }
    var token, fetched := cache.GetAccessToken(now, grant);
    if token.Failed? {
      return SearchFailed;
    }
    var reply := trackSearch(token.value, q.value);
    if reply.Failed? {
      return SearchFailed;
    }
    return Response(200, Items(reply.value));
  }

  /** getTracksByArtist. */
  method GetTracksByArtist(artistId: Option<string>, cache: TokenCache, now: int, grant: Outcome<Grant>,
                           topTracks: TopTracksOracle)
    returns (resp: Response)
    modifies cache
    ensures !Given(artistId) ==> resp == ArtistIdRequired && unchanged(cache)
    ensures Given(artistId) ==>
      var step := GetToken(old(cache.State()), now, grant);
      cache.State() == step.next
      && resp == match step.result
                 case Failed => ArtistTracksFailed
                 case Ok(token) =>
                   match topTracks(token, artistId.value)
                   case Failed => ArtistTracksFailed
                   case Ok(tracks) => Response(200, Items(tracks))
  {
    if !Given(artistId) {
      return ArtistIdRequired;
    }
    var token, fetched := cache.GetAccessToken(now, grant);
    if token.Failed? {
      return ArtistTracksFailed;
    }
    var reply := topTracks(token.value, artistId.value);
    if reply.Failed? {
      return ArtistTracksFailed;
    }
    return Response(200, Items(reply.value));
  }
}
