# Music-app search backend: a Dafny model

This project models two parts of the music app's Express backend:

- **Artist aggregation** in `Backend/Controllers/searchController.js`. This covers `getArtistsByPreference` (`GET /artists?artists=...`) and `getRecommendations` (`GET /recommendations?artists=...`), each in order:
  1. split the comma-separated seed list and trim each piece;
  2. ask the TasteDive similarity service about each seed;
  3. collect the whitespace-stripped seeds and related names in a JavaScript `Set` (insertion-ordered, exact equality);
  4. resolve each candidate through the Spotify search endpoint (first hit or nothing);
  5. finish one of two ways:
     - `getArtistsByPreference` splits the resolved artists into `input` and `similar`, by case-insensitive substring match against the trimmed seeds;
     - `getRecommendations` flattens each resolved artist's top tracks, or answers 404 when nothing resolved.

  `searchTracks` and `getTracksByArtist` are modelled too: their parameter guard, the token step and their single upstream call.
- **Token cache**, `getAccessToken` in `Backend/Utils/Auth.js`. Two module-level variables, `accessToken` and `tokenExpiresAt`, make a cache. It hands out the stored token while that token is non-empty and strictly unexpired. Otherwise it asks the token endpoint. After a successful fetch it overwrites both variables; a failed fetch leaves them as they were.

Every HTTP request is an oracle parameter, a total function from the request to its `Outcome`: `Ok(reply)`, or `Failed` for anything that makes the awaited call throw. This covers the Spotify search, top-tracks and token endpoints and TasteDive. The clock reading `Date.now()` is an `int` parameter. JavaScript truthiness is written out:
- a parameter passes `!param` when it is present and non-empty (`Given`);
- a related entry counts when its name is present and non-empty (`HasName`).

Files:
- `wrappers.dfy`: `Option` and `Outcome`.
- `sequences.dfy`: small generic facts about concatenation and slicing.
- `text.dfy`: the string operations the controller uses, over ASCII. These are `split(",")`, `trim()`, `replace(/\s/g, "")`, `toLowerCase()` and `includes`.
- `auth.dfy`:
  - the cache step as a function `GetToken`;
  - multi-call lemmas;
  - the class `TokenCache` with the two fields and the method `GetAccessToken`.
- `aggregation.dfy`:
  - the five loops of the controller, each a method proved against a recursive specification function. These are the seed loop `CollectCandidates`, its inner related-name loop `AddRelatedNames`, the artist search `ResolveArtists`, the ID search `ResolveArtistIds` and the top-tracks loop `CollectTopTracks`;
  - the `input`/`similar` filter as a function;
  - the lemmas about all of these.
- `search_controller.dfy`:
  - seed parsing;
  - the four handlers as methods that take the shared `TokenCache`;
  - the response of each endpoint once a token is held, as a function, with its lemmas.

Both endpoints share one candidate model, covering lines 31-55 of `getArtistsByPreference` and lines 94-113 of `getRecommendations`:
- Line 108 adds the seed without stripping it again. Each recommendation seed already holds no white space, so this is the value the model's stripped key gives (`RecommendationSeedAddedAsIs`).
- Line 111 strips with `/\s+/g` and line 52 with `/\s/g`. Both remove every white-space character.

Each candidate row below cites the `getArtistsByPreference` span, and its statement holds for the `getRecommendations` span as well.

Two facts about the code shape the model:
- The code deduplicates candidates by exact, case-sensitive equality, because they are kept in a JavaScript `Set`.
- No endpoint truncates artists or tracks. The `limit` values are only upstream query parameters.

## Model

| member | source | states |
|---|---|---|
| Text.IsSpace | Backend/Controllers/searchController.js:30 | The white-space class of `trim()` and `\s`, taken to be space, tab, line feed, carriage return, vertical tab and form feed. |
| Text.Split | Backend/Controllers/searchController.js:30 | `split(",")` gives a non-empty list of pieces. No piece holds the separator, and joining the pieces with it gives the input back. |
| Text.SplitJoin | Backend/Controllers/searchController.js:30 | Splitting a join of separator-free parts gives the same parts back, so Split and Join are inverse. |
| Text.SplitCount | Backend/Controllers/searchController.js:30 | There is one piece more than there are separators, so empty pieces are kept. |
| Text.TrimStart | Backend/Controllers/searchController.js:30 | The result is a suffix of the input that does not start with white space, and everything removed is white space. |
| Text.TrimEnd | Backend/Controllers/searchController.js:30 | The result is a prefix of the input that does not end with white space, and everything removed is white space. |
| Text.Trim | Backend/Controllers/searchController.js:30 | `trim()`: the result has no white space at either end, and it is a slice of the input with only white space around it. |
| Text.TrimUnique | Backend/Controllers/searchController.js:30 | Only one slice has those two properties, so Trim's contract determines its result. |
| Text.TrimBare | Backend/Controllers/searchController.js:30 | A string with no white space at its ends is its own trim. |
| Text.TrimIdempotent | Backend/Controllers/searchController.js:30 | Trimming twice equals trimming once. |
| Text.TrimKeepsChars | Backend/Controllers/searchController.js:30 | Trimming introduces no character, so a trimmed piece still holds no comma. |
| Text.StripSpace | Backend/Controllers/searchController.js:49 | `replace(/\s/g, "")`: the result has no white space, and a character is in it iff it is in the input and not white space. A string with no white space is unchanged. |
| Text.StripSpaceAppend | Backend/Controllers/searchController.js:52 | Stripping distributes over concatenation. |
| Text.StripSpaceAllSpace | Backend/Controllers/searchController.js:49 | Stripping an all-white-space string gives the empty string. |
| Text.StripSpaceAround | Backend/Controllers/searchController.js:90 | White space on either side of a slice vanishes when stripping. |
| Text.StripSpaceTrim | Backend/Controllers/searchController.js:90 | `a.trim().replace(/\s+/g, "")` equals `a.replace(/\s+/g, "")`. |
| Text.Lower | Backend/Controllers/searchController.js:69-70 | `toLowerCase()` keeps the length and lowercases each character. |
| Text.Includes | Backend/Controllers/searchController.js:69-70 | `includes` holds iff the needle occurs at some index of the haystack. The empty needle occurs everywhere. |
| Aggregation.HasName | Backend/Controllers/searchController.js:51 | The `if (a?.name)` test, also at line 111: an entry counts when its name is present and non-empty. |
| Aggregation.Expansion | Backend/Controllers/searchController.js:34-55 | The definition: the stream of `add` calls of the seed loop, also at lines 96-113. There is one similarity query per seed, in order. Each seed adds its stripped self, then its stripped related names that have a name, and the first failed query fails the whole stream. Its lemmas are ExpansionMembers, ExpansionAppend and ExpansionSucceeds. |
| Aggregation.Add | Backend/Controllers/searchController.js:49 | The definition: `Set.prototype.add` on a Set kept as its iteration order. A value already present leaves the Set unchanged, and a new value goes last. The same call is at lines 52, 108 and 111. |
| Aggregation.Dedup | Backend/Controllers/searchController.js:31 | The definition: the Set built by a stream of `add` calls, also at line 94, in its iteration order. Its properties are proved by DedupSpec and DedupOrder. |
| Aggregation.Candidates | Backend/Controllers/searchController.js:31-55 | The definition: the candidate Set, also at lines 94-113. It is the Set of the Expansion stream, or failure. Its properties are proved by CandidatesExact and CandidatesShape. |
| Aggregation.DedupSpec | Backend/Controllers/searchController.js:31 | The Set after a stream of `add` calls holds each added value exactly once and nothing else. |
| Aggregation.DedupOrder | Backend/Controllers/searchController.js:31 | The Set iterates in first-insertion order. |
| Aggregation.DedupHead | Backend/Controllers/searchController.js:31 | The first value added comes first. |
| Aggregation.AddRelatedNames | Backend/Controllers/searchController.js:50-54 | The inner `forEach` loop leaves the Set as if each related name that is present had been stripped and added. The same holds for the inner loop at lines 110-112. |
| Aggregation.CollectCandidates | Backend/Controllers/searchController.js:31-55 | The seed loop returns `Candidates(seeds, similar)`: the Set of the reference `add` stream, or failure. The same holds for the seed loop at lines 94-113. |
| Aggregation.ExpansionFailed | Backend/Controllers/searchController.js:34-43 | Once a similarity query fails, the whole loop fails. |
| Aggregation.ExpansionRound | Backend/Controllers/searchController.js:49-54 | A round whose query succeeds adds the stripped seed, then the stripped related names that are present. |
| Aggregation.ExpansionAbort | Backend/Controllers/searchController.js:35-43 | A failed query in any round fails the loop. |
| Aggregation.ExpansionSucceeds | Backend/Controllers/searchController.js:34-43 | The loop completes iff every similarity query succeeds. |
| Aggregation.RelatedKeysMembers | Backend/Controllers/searchController.js:50-54 | A name is added for a reply iff it is the stripped name of an entry whose name is present. |
| Aggregation.SeedKeysMembers | Backend/Controllers/searchController.js:49-54 | What one seed adds is its stripped self and its related names, nothing else. |
| Aggregation.SomeSeedAddsIndex | Backend/Controllers/searchController.js:34-55 | The round-by-round membership equals "some seed index adds it". |
| Aggregation.ExpansionAdds | Backend/Controllers/searchController.js:34-55 | A value is in the add stream iff some round added it. |
| Aggregation.ExpansionMembers | Backend/Controllers/searchController.js:46-54 | A value is in the add stream iff some seed's successful query contributes it. |
| Aggregation.CandidatesExact | Backend/Controllers/searchController.js:46-54 | The candidates are the stripped seeds plus the stripped names of the related entries that have a name. Nothing else is a candidate. |
| Aggregation.CandidatesShape | Backend/Controllers/searchController.js:31-55 | Candidates exist iff every query succeeds. They are then pairwise distinct, with case-sensitive equality, and free of white space. |
| Aggregation.MissingResultsAddOnlySeed | Backend/Controllers/searchController.js:46 | A reply without a results list contributes only the stripped seed. |
| Aggregation.ExpansionAppend | Backend/Controllers/searchController.js:34-55 | The stream for seeds `a + b` is the stream for `a` followed by the stream for `b`, so seeds are processed in order. |
| Aggregation.ExpansionOne | Backend/Controllers/searchController.js:49-54 | A single seed adds itself before its related names. |
| Aggregation.FirstCandidateIsFirstSeed | Backend/Controllers/searchController.js:49 | The first candidate is the first seed, stripped. |
| Aggregation.SharedRelatedAddedOnce | Backend/Controllers/searchController.js:31-55 | Seeds A and B whose replies both name C give the candidates A, C, B: C appears once, where A added it. |
| Aggregation.Resolution | Backend/Controllers/searchController.js:58-66 | The search loop yields at most one artist per candidate. |
| Aggregation.ResolutionFailed | Backend/Controllers/searchController.js:59-63 | Once a search fails, the whole loop fails. |
| Aggregation.ResolveArtists | Backend/Controllers/searchController.js:58-66 | The search loop returns `Resolution(names)`: the hits, pushed in candidate order, or failure. |
| Aggregation.HitIndices | Backend/Controllers/searchController.js:64-65 | The indices of the candidates that have a hit are in range and strictly increasing. |
| Aggregation.ResolvedInCandidateOrder | Backend/Controllers/searchController.js:58-66 | The resolved list matches the hit indices one to one, and each artist is the search hit for its candidate. The list covers every candidate that has a hit, and the misses are dropped. |
| Aggregation.HitsInOrderSnoc | Backend/Controllers/searchController.js:64-65 | One more candidate keeps that correspondence. |
| Aggregation.ResolutionSucceeds | Backend/Controllers/searchController.js:59-63 | The search loop completes iff every search succeeds. |
| Aggregation.NothingResolved | Backend/Controllers/searchController.js:64-65 | When no candidate has a hit, the resolved list is empty. |
| Aggregation.ResolveArtistIds | Backend/Controllers/searchController.js:116-125 | The ID loop of `getRecommendations` returns the IDs of `Resolution(names)`, or fails exactly when `Resolution` fails. |
| Aggregation.ResolvedIds | Backend/Controllers/searchController.js:116-125 | The pushed IDs correspond one to one with the candidates that have a search hit, in candidate order. ID k is the `id` of the hit for the k-th such candidate. |
| Aggregation.MatchesSomeSeed | Backend/Controllers/searchController.js:69 | `some` holds iff the lowercased name includes some lowercased seed. |
| Aggregation.SelectSpec | Backend/Controllers/searchController.js:69-70 | A filter half holds exactly the resolved artists of its class, as a subsequence of the resolved list. |
| Aggregation.PartitionCovers | Backend/Controllers/searchController.js:69-70 | `input` and `similar` together hold each resolved artist exactly as often as the resolved list does. |
| Aggregation.PartitionDisjointOrdered | Backend/Controllers/searchController.js:69-70 | The halves are disjoint, and each keeps the resolved order. |
| Aggregation.NameStartingWithSeedIsInput | Backend/Controllers/searchController.js:69 | A name that starts with a seed matches that seed. |
| Aggregation.SubstringCountsAsInput | Backend/Controllers/searchController.js:69 | "Arijit Singh Live" matches the seed "Arijit Singh". |
| Aggregation.EmptySeedMatchesAll | Backend/Controllers/searchController.js:69 | An empty seed matches every name. |
| Aggregation.EmptySeedSelectsAll | Backend/Controllers/searchController.js:69-70 | With an empty seed, `input` is the whole resolved list and `similar` is empty. |
| Aggregation.Select | Backend/Controllers/searchController.js:69-70 | The definition: the two `filter` calls, keeping, in order, the artists whose `MatchesSomeSeed` value equals the wanted one. Its properties are proved by SelectSpec, PartitionCovers and PartitionDisjointOrdered. |
| Aggregation.TopTracks | Backend/Controllers/searchController.js:132-143 | The definition: one top-tracks request per ID, in order, with the track lists appended, and the first failure failing everything. Its properties are proved by TopTracksAppend and TopTracksSucceed. |
| Aggregation.TopTracksFailed | Backend/Controllers/searchController.js:133-140 | Once a top-tracks request fails, the whole loop fails. |
| Aggregation.CollectTopTracks | Backend/Controllers/searchController.js:132-143 | The top-tracks loop returns `TopTracks(ids)`, the track lists appended in ID order, or failure. |
| Aggregation.TopTracksAppend | Backend/Controllers/searchController.js:142 | The tracks for IDs `a + b` are the tracks for `a` followed by the tracks for `b`. Nothing is merged, dropped or reordered. |
| Aggregation.TopTracksSucceed | Backend/Controllers/searchController.js:133-143 | The loop completes iff every top-tracks request succeeds. |
| Aggregation.DuplicateIdsRepeated | Backend/Controllers/searchController.js:133-142 | A repeated ID contributes its top-tracks reply twice, once per occurrence, in order. |
| SearchController.Given | Backend/Controllers/searchController.js:26 | The `!param` guard, also at lines 8, 84 and 159: a parameter passes when it is present and non-empty. |
| SearchController.PreferenceSeeds | Backend/Controllers/searchController.js:30 | There is one seed per comma-separated piece, with no white space at its ends and no comma. |
| SearchController.PreferenceSeedTrimmed | Backend/Controllers/searchController.js:30 | Seed k is a slice of piece k with only white space left and right of it. |
| SearchController.PreferenceSeedUnique | Backend/Controllers/searchController.js:30 | That property and having no white space at its ends determine seed k, so seed k is `parts[k].trim()`. |
| SearchController.RecommendationSeeds | Backend/Controllers/searchController.js:90 | There is one seed per piece, with no white space at all and no comma. |
| SearchController.CleanPiece | Backend/Controllers/searchController.js:90 | A trimmed and stripped piece has no white space and no comma. |
| SearchController.RecommendationSeedsStripped | Backend/Controllers/searchController.js:90 | Each seed is its piece with all white space removed, so the `trim()` is redundant. |
| SearchController.SeedCount | Backend/Controllers/searchController.js:30 | Both endpoints take one seed more than there are commas. |
| SearchController.RecommendationSeedAddedAsIs | Backend/Controllers/searchController.js:108 | Stripping a recommendation seed gives the seed back, so adding it unstripped at line 108 adds the same value as the stripped key. |
| SearchController.SplitExample | Backend/Controllers/searchController.js:30 | "A,,B" splits into "A", "" and "B". |
| SearchController.BarePiecesAreSeeds | Backend/Controllers/searchController.js:30 | When no piece has white space at its ends, the seeds are exactly the pieces. |
| SearchController.EmptyPieceKept | Backend/Controllers/searchController.js:30 | "A,,B" gives the seeds "A", "" and "B": the empty piece is not dropped. |
| SearchController.PreferenceResponse | Backend/Controllers/searchController.js:28-74 | The definition: the answer of getArtistsByPreference once it holds a token. A failure of the candidates or of the resolution gives the fixed 500. Otherwise the answer is 200 with the two `Select` halves of the resolved artists. Its properties are proved by PreferenceFailures and PreferencePartition. |
| SearchController.ArtistsByPreference | Backend/Controllers/searchController.js:30-74 | The try block after the token equals `PreferenceResponse`: grouped artists, or the fixed 500. |
| SearchController.GetArtistsByPreference | Backend/Controllers/searchController.js:24-76 | With `artists` missing or empty, the answer is 400 "Artists required" and the cache is untouched. Otherwise the cache takes one `GetToken` step. A failed token gives the fixed 500, and a token gives `PreferenceResponse`. |
| SearchController.PreferenceFailures | Backend/Controllers/searchController.js:72-74 | A failed similarity query or a failed search gives the single 500 "Failed to fetch artists by preference", with no partial result. Every non-200 answer is that one. |
| SearchController.PreferencePartition | Backend/Controllers/searchController.js:68-71 | On success, `input` and `similar` are disjoint, order-keeping subsequences of the resolved list whose multiset union is that list. An artist is in `input` iff its name matches some trimmed seed. |
| SearchController.NothingResolvedEmptyGroups | Backend/Controllers/searchController.js:58-71 | If no candidate resolves, both groups are empty and the status is 200. |
| SearchController.EmptyPieceAllInput | Backend/Controllers/searchController.js:69-70 | For "A,,B", every resolved artist is in `input` and `similar` is empty. |
| SearchController.RecommendationResponse | Backend/Controllers/searchController.js:86-149 | The definition: the answer of getRecommendations once it holds a token. It is the fixed 500 on any failure, the 404 when nothing resolved, and otherwise 200 with `TopTracks` of the resolved IDs. Its properties are proved by RecommendationStatuses, RecommendationNotFound and RecommendationTracks. |
| SearchController.Recommend | Backend/Controllers/searchController.js:87-149 | The try block after the token equals `RecommendationResponse`. |
| SearchController.GetRecommendations | Backend/Controllers/searchController.js:82-151 | The 400 guard leaves the cache untouched. Otherwise one `GetToken` step, then the fixed 500 or `RecommendationResponse`. |
| SearchController.RecommendationNotFound | Backend/Controllers/searchController.js:127-129 | 404 comes iff every query and search succeeded and nothing resolved. The 404 answer is the same whatever the top-tracks endpoint would say, so no top-tracks call matters. |
| SearchController.RecommendationTracks | Backend/Controllers/searchController.js:132-149 | Once artists resolved, the answer is 200 iff every top-tracks request succeeds, with the tracks of each ID appended in ID order. Any other answer is the fixed 500. |
| SearchController.RecommendationFailures | Backend/Controllers/searchController.js:96-125 | A failed similarity query gives the fixed 500 "Failed to fetch recommendations". So does a failed artist search. |
| SearchController.RecommendationStatuses | Backend/Controllers/searchController.js:96-149 | After the token, the answer is 200 with tracks, the 404, or the fixed 500, and nothing else. Any answer other than the 500 means every similarity query and every artist search succeeded. A 200 also means every top-tracks request succeeded. So any failed upstream request gives the 500. |
| SearchController.SearchTracks | Backend/Controllers/searchController.js:6-20 | Without `q`, the answer is 400 "Missing query" and the cache is untouched. Otherwise one `GetToken` step, then the track items or 500 "Spotify search failed". |
| SearchController.GetTracksByArtist | Backend/Controllers/searchController.js:157-174 | Without `artistId`, the answer is 400 "Artist ID required" and the cache is untouched. Otherwise one `GetToken` step, then the artist's tracks or 500 "Failed to fetch artist's tracks". |
| Auth.Reusable | Backend/Utils/Auth.js:10 | The test `accessToken && now < tokenExpiresAt`: the stored token is non-empty and strictly unexpired. |
| Auth.GetToken | Backend/Utils/Auth.js:8-32 | The definition: one call of the cache. A reusable token is returned with no fetch. Otherwise the endpoint is asked: a failure fails the call and keeps the state, and a grant stores the token and `now + expires_in * 1000` and returns the token. Its properties are proved by the lemmas below. |
| Auth.FirstCallFetches | Backend/Utils/Auth.js:4-10 | The initial state (empty token, expiry 0) never serves, so the first call always fetches. |
| Auth.CachedTokenReturned | Backend/Utils/Auth.js:10-12 | A non-empty, unexpired token is returned with no fetch and no state change. |
| Auth.RefreshStoresGrant | Backend/Utils/Auth.js:28-32 | Otherwise a successful fetch sets `accessToken` to the new token and `tokenExpiresAt` to `now + expires_in * 1000`, with `now` read before the fetch, and returns the new token. |
| Auth.ExpiryIsStrict | Backend/Utils/Auth.js:10 | A call at exactly `tokenExpiresAt` fetches again. |
| Auth.FailedFetchKeepsState | Backend/Utils/Auth.js:28-30 | A failed fetch fails the call and leaves both fields as they were. |
| Auth.EmptyTokenRefetched | Backend/Utils/Auth.js:10-29 | If the fetched token is empty, the next call fetches again, however far away the expiry is. |
| Auth.NoFetchWhileReusable | Backend/Utils/Auth.js:10-12 | While the stored token stays reusable, any number of calls make no fetch and leave the state alone. |
| Auth.OneFetchPerLifetime | Backend/Utils/Auth.js:10-32 | Calls that fall within the lifetime of the token fetched by the first call make exactly one fetch if the first call fetched and none otherwise. |
| Auth.TokenCache.constructor | Backend/Utils/Auth.js:4-5 | The cache starts with an empty token and expiry 0. |
| Auth.TokenCache.GetAccessToken | Backend/Utils/Auth.js:7-33 | The new fields, the returned token and whether a fetch happened are exactly one `GetToken` step from the old fields. The method also states each branch: reuse, failed fetch, and refresh. |

## Left out

- HTTP: every axios request (Spotify search, top tracks, token endpoint; TasteDive similar) is an oracle parameter. Headers, the API key, URLs and the `type`, `limit`, `info` and `market` query parameters are not modelled, because they only shape the request.
- The Basic-auth header built with `Buffer.from(...).toString("base64")` in Auth.js is left out. It is a library call, and the model receives the endpoint's reply directly.
- Concurrency: overlapping requests can refresh the token twice (a race between awaits). The model covers sequential calls only.
- Unicode: `trim`, `\s` and `toLowerCase` are modelled over ASCII white space and the letters A to Z. Other Unicode spaces and case mappings are not.
- Floating point: `Date.now()` and `expires_in * 1000` are unbounded integers. JavaScript numbers are doubles.
- TasteDive reply shapes: the two endpoints read `similar.results`/`name` and `Similar.Results`/`Name`. Both are one oracle that returns an optional list of optional names. A `null` entry in the recommendations variant would throw on `s.Name`; the model treats it like an entry without a name, and the oracle can model the throw by returning `Failed`.
- Reply shapes: a reply that makes the handler throw is modelled as the oracle returning `Failed`:
  - a search reply without `artists.items` at lines 64 and 123;
  - a top-tracks reply without an iterable `tracks` at line 142, where the spread throws;
  - a track-search reply without `tracks` at line 16.

  Upstream's own guarantees, such as results being of the requested type, are not modelled.
- SearchController.SearchTracks, SearchController.GetTracksByArtist: a reply that is missing the field being sent, `tracks.items` at line 16 or `tracks` at line 170, makes Express answer 200 with an empty body. The model cannot produce that answer, because `Items` holds a list of tracks.
- Array-valued query parameters (`?artists=a&artists=b`, where Express gives an array) are not modelled. A parameter is an optional string.
- Aggregation.DuplicateIdsRepeated: every oracle is a function of its request, so two identical requests get the same reply. Two identical requests arise from duplicate seeds such as "A,A", or from two candidates resolving to the same ID. The number of requests is not observable in the model. "Its tracks appear twice" holds because both replies are the same; a live service could answer differently.
- Logging with `console.error` is left out, because it does not affect the response.
- `src/controller/authcontroller.js`, the Mongoose schemas, the routing and server setup, and `getTrackById` and `getArtistImage` are not part of this model. They are glue over libraries, or not defined in the controller.
