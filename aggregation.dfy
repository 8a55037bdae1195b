/** The aggregation steps shared by the artist and recommendation endpoints
    of Backend/Controllers/searchController.js: expanding the seeds with
    similar-artist names into an insertion-ordered Set of candidates,
    resolving each candidate through the search endpoint, splitting the
    resolved artists into `input` and `similar`, and flattening top tracks.
    Every upstream request is an oracle parameter (a total function from the
    request to its outcome); the loops of the source are methods proved
    against recursive specification functions. */
module Aggregation {
  import opened Wrappers
  import opened Text
  import opened Sequences

  /** The fields of a search hit the controller reads. */
  datatype Artist = Artist(id: string, name: string)

  /** A track, passed through untouched. */
  datatype Track = Track(id: string, name: string)

  /** The related-artist list of a similarity reply: None when the reply has
      no results list (`similar?.results` is undefined, so `|| []` applies);
      otherwise its entries, each with its name field when it has one. */
  type RelatedList = Option<seq<Option<string>>>

  /** The similarity service queried with one seed. */
  type SimilarOracle = string -> Outcome<RelatedList>

  /** The search endpoint queried for artists with (bearer token, query),
      `limit: 1`: its first item, if any. */
  type SearchOracle = (string, string) -> Outcome<Option<Artist>>

  /** The top-tracks endpoint with (bearer token, artist id). */
  type TopTracksOracle = (string, string) -> Outcome<seq<Track>>

  // ---------------------------------------------------------------------
  // Candidates
  // ---------------------------------------------------------------------

  /** An entry is added only when its name is truthy: present and non-empty. */
  predicate HasName(entry: Option<string>) {
    entry.Some? && entry.value != ""
  }

  function Entries(related: RelatedList): seq<Option<string>> {
    match related
    case None => []
    case Some(entries) => entries
  }

  /** The whitespace-stripped names of the entries that have one, in order. */
  function RelatedKeys(entries: seq<Option<string>>): seq<string>
    decreases |entries|
  {
    if entries == [] then []
    else
      var last := entries[|entries| - 1];
      RelatedKeys(entries[..|entries| - 1]) + (if HasName(last) then [StripSpace(last.value)] else [])
  }

  /** What one seed adds to the candidate Set, in the order it adds it: the
      seed itself, then its related names. */
  function SeedKeys(seed: string, related: RelatedList): seq<string> {
    [StripSpace(seed)] + RelatedKeys(Entries(related))
  }

  /** `x` is the stripped seed or the stripped name of a related entry that
      has a name. */
  predicate Contributes(seed: string, related: RelatedList, x: string) {
    x == StripSpace(seed)
    || exists j :: 0 <= j < |Entries(related)| && HasName(Entries(related)[j])
                   && x == StripSpace(Entries(related)[j].value)
  }

  /** The query for `seed` succeeds and `x` is one of the values it adds. */
  predicate Adds(seed: string, similar: SimilarOracle, x: string) {
    similar(seed).Ok? && Contributes(seed, similar(seed).value, x)
  }

  /** The sequence of `add` calls the seed loop makes: one similarity query
      per seed, in order; the first failed query aborts everything. */
  function Expansion(seeds: seq<string>, similar: SimilarOracle): Outcome<seq<string>>
    decreases |seeds|
  {
    if seeds == [] then Ok([])
    else
      match Expansion(seeds[..|seeds| - 1], similar)
      case Failed => Failed
      case Ok(stream) =>
        match similar(seeds[|seeds| - 1])
        case Failed => Failed
        case Ok(related) => Ok(stream + SeedKeys(seeds[|seeds| - 1], related))
  }

  /** `Set.prototype.add` on a Set kept as its iteration order. */
  function Add(names: seq<string>, x: string): seq<string> {
    if x in names then names else names + [x]
  }

  /** The iteration order of a Set after the given `add` calls: each value
      once, where it was first added. */
  function Dedup(stream: seq<string>): seq<string>
    decreases |stream|
  {
    if stream == [] then []
    else Add(Dedup(stream[..|stream| - 1]), stream[|stream| - 1])
  }

  /** The Set holds each added value exactly once and nothing else. */
  lemma {:induction false} DedupSpec(stream: seq<string>)
    ensures var names := Dedup(stream);
      (forall i, j :: 0 <= i < j < |names| ==> names[i] != names[j])
      && (forall x :: x in names <==> x in stream)
      && |names| <= |stream|
    decreases |stream|
  {
    if stream != [] {
      var n := |stream| - 1;
      DedupSpec(stream[..n]);
      assert stream == stream[..n] + [stream[n]];
    }
  }

  /** The candidate Set built from the seeds. */
  function Candidates(seeds: seq<string>, similar: SimilarOracle): Outcome<seq<string>> {
    match Expansion(seeds, similar)
    case Failed => Failed
    case Ok(stream) => Ok(Dedup(stream))
  }

  lemma DedupSnoc(stream: seq<string>, x: string)
    ensures Dedup(stream + [x]) == Add(Dedup(stream), x)
  {
    assert (stream + [x])[..|stream|] == stream;
  }

  lemma {:induction false} ExpansionFailed(seeds: seq<string>, k: nat, similar: SimilarOracle)
    requires k <= |seeds| && Expansion(seeds[..k], similar) == Failed
    ensures Expansion(seeds, similar) == Failed
    decreases |seeds| - k
  {
    if k < |seeds| {
      assert seeds[..k + 1][..k] == seeds[..k];
      ExpansionFailed(seeds, k + 1, similar);
    } else {
      assert seeds[..k] == seeds;
    }
  }

  /** `relatedArtists.forEach(a => { if (a?.name) set.add(strip(a.name)) })`,
      with `stream` the `add` calls made so far. */
  method AddRelatedNames(names: seq<string>, ghost stream: seq<string>, entries: seq<Option<string>>)
    returns (names': seq<string>)
    requires names == Dedup(stream)
    ensures names' == Dedup(stream + RelatedKeys(entries))
  {
    names' := names;
    assert entries[..0] == [] && stream + RelatedKeys([]) == stream;
    for j := 0 to |entries|
      invariant names' == Dedup(stream + RelatedKeys(entries[..j]))
    {
      assert entries[..j + 1][..j] == entries[..j];
      ghost var done := RelatedKeys(entries[..j]);
      ghost var extra := if HasName(entries[j]) then [StripSpace(entries[j].value)] else [];
      assert RelatedKeys(entries[..j + 1]) == done + extra;
      assert stream + (done + extra) == (stream + done) + extra;
      if HasName(entries[j]) {
        var key := StripSpace(entries[j].value);
        DedupSnoc(stream + done, key);
        names' := Add(names', key);
      } else {
        assert (stream + done) + extra == stream + done;
      }
    }
    assert entries[..|entries|] == entries;
  }

  /** One more round of the seed loop, when its query succeeds. */
  lemma ExpansionRound(seeds: seq<string>, i: nat, similar: SimilarOracle, stream: seq<string>, related: RelatedList)
    requires i < |seeds| && Expansion(seeds[..i], similar) == Ok(stream)
    requires similar(seeds[i]) == Ok(related)
    ensures Expansion(seeds[..i + 1], similar) ==
      Ok(stream + [StripSpace(seeds[i])] + RelatedKeys(Entries(related)))
  {
    assert seeds[..i + 1][..i] == seeds[..i];
    AppendAssoc(stream, [StripSpace(seeds[i])], RelatedKeys(Entries(related)));
  }

  /** A failed query in some round fails the whole seed loop. */
  lemma ExpansionAbort(seeds: seq<string>, i: nat, similar: SimilarOracle)
    requires i < |seeds| && Expansion(seeds[..i], similar).Ok?
    requires similar(seeds[i]).Failed?
    ensures Expansion(seeds, similar) == Failed
  {
    assert seeds[..i + 1][..i] == seeds[..i];
    ExpansionFailed(seeds, i + 1, similar);
  }

  /** The seed loop: for each seed, query the similarity service, then add
      the stripped seed and the stripped names of its related entries to the
      Set. */
  method CollectCandidates(seeds: seq<string>, similar: SimilarOracle) returns (r: Outcome<seq<string>>)
    ensures r == Candidates(seeds, similar)
  {
    var names: seq<string> := [];
    ghost var stream: seq<string> := [];
    for i := 0 to |seeds|
      invariant Expansion(seeds[..i], similar) == Ok(stream)
      invariant names == Dedup(stream)
    {
      var reply := similar(seeds[i]);
      if reply.Failed? {
        ExpansionAbort(seeds, i, similar);
        return Failed;
      }
      var key := StripSpace(seeds[i]);
      var entries := Entries(reply.value);
      ExpansionRound(seeds, i, similar, stream, reply.value);
      DedupSnoc(stream, key);
      names := AddRelatedNames(Add(names, key), stream + [key], entries);
      stream := stream + [key] + RelatedKeys(entries);
    }
    assert seeds[..|seeds|] == seeds;
    return Ok(names);
  }

  lemma {:induction false} RelatedKeysMembers(entries: seq<Option<string>>, x: string)
    ensures x in RelatedKeys(entries) <==>
      exists j :: 0 <= j < |entries| && HasName(entries[j]) && x == StripSpace(entries[j].value)
    decreases |entries|
  {
    if entries != [] {
      var n := |entries| - 1;
      var front := entries[..n];
      RelatedKeysMembers(front, x);
      assert forall j :: 0 <= j < n ==> front[j] == entries[j];
    }
  }

  lemma SeedKeysMembers(seed: string, related: RelatedList, x: string)
    ensures x in SeedKeys(seed, related) <==> Contributes(seed, related, x)
  {
    RelatedKeysMembers(Entries(related), x);
  }

  /** The seed loop runs to the end exactly when every similarity query
      succeeds. */
  lemma {:induction false} ExpansionSucceeds(seeds: seq<string>, similar: SimilarOracle)
    ensures Expansion(seeds, similar).Ok? <==> forall i :: 0 <= i < |seeds| ==> similar(seeds[i]).Ok?
    decreases |seeds|
  {
    if seeds != [] {
      var n := |seeds| - 1;
      ExpansionSucceeds(seeds[..n], similar);
      assert forall i :: 0 <= i < n ==> seeds[..n][i] == seeds[i];
    }
  }

  /** The last round of a seed loop that ran to the end. */
  lemma ExpansionLast(seeds: seq<string>, similar: SimilarOracle, stream: seq<string>)
    requires seeds != [] && Expansion(seeds, similar) == Ok(stream)
    ensures var n := |seeds| - 1;
      Expansion(seeds[..n], similar).Ok? && similar(seeds[n]).Ok?
      && stream == Expansion(seeds[..n], similar).value + SeedKeys(seeds[n], similar(seeds[n]).value)
  {
  }

  /** Some seed adds `x`: the seed loop's membership, round by round. */
  predicate SomeSeedAdds(seeds: seq<string>, similar: SimilarOracle, x: string)
    decreases |seeds|
  {
    seeds != []
    && (SomeSeedAdds(seeds[..|seeds| - 1], similar, x) || Adds(seeds[|seeds| - 1], similar, x))
  }

  lemma {:induction false} SomeSeedAddsIndex(seeds: seq<string>, similar: SimilarOracle, x: string)
    ensures SomeSeedAdds(seeds, similar, x) <==> exists i :: 0 <= i < |seeds| && Adds(seeds[i], similar, x)
    decreases |seeds|
  {
    if seeds != [] {
      var n := |seeds| - 1;
      var front := seeds[..n];
      SomeSeedAddsIndex(front, similar, x);
      if SomeSeedAdds(front, similar, x) {
        var i :| 0 <= i < n && Adds(front[i], similar, x);
        assert front[i] == seeds[i];
      }
      if exists i :: 0 <= i < n && Adds(seeds[i], similar, x) {
        var i :| 0 <= i < n && Adds(seeds[i], similar, x);
        assert front[i] == seeds[i];
      }
    }
  }

  lemma {:induction false} ExpansionAdds(seeds: seq<string>, similar: SimilarOracle, stream: seq<string>, x: string)
    requires Expansion(seeds, similar) == Ok(stream)
    ensures x in stream <==> SomeSeedAdds(seeds, similar, x)
    decreases |seeds|
  {
    if seeds != [] {
      var n := |seeds| - 1;
      var front := seeds[..n];
      ExpansionLast(seeds, similar, stream);
      var prefix := Expansion(front, similar).value;
      var keys := SeedKeys(seeds[n], similar(seeds[n]).value);
      ExpansionAdds(front, similar, prefix, x);
      SeedKeysMembers(seeds[n], similar(seeds[n]).value, x);
      assert x in stream <==> x in prefix || x in keys;
    }
  }

  /** Every value added comes from some seed: the seed itself or one of its
      related names. */
  lemma ExpansionMembers(seeds: seq<string>, similar: SimilarOracle, stream: seq<string>, x: string)
    requires Expansion(seeds, similar) == Ok(stream)
    ensures x in stream <==>
      exists i :: 0 <= i < |seeds| && Adds(seeds[i], similar, x)
  {
    ExpansionAdds(seeds, similar, stream, x);
    SomeSeedAddsIndex(seeds, similar, x);
  }

  /** The candidate Set holds exactly the whitespace-stripped seeds and the
      whitespace-stripped names of their related entries that have a name. */
  lemma CandidatesExact(seeds: seq<string>, similar: SimilarOracle, names: seq<string>, x: string)
    requires Candidates(seeds, similar) == Ok(names)
    ensures x in names <==>
      exists i :: 0 <= i < |seeds| && Adds(seeds[i], similar, x)
  {
    DedupSpec(Expansion(seeds, similar).value);
    ExpansionMembers(seeds, similar, Expansion(seeds, similar).value, x);
  }

  /** Candidates are built exactly when every similarity query succeeds,
      pairwise distinct (case-sensitive) and free of white space. */
  lemma CandidatesShape(seeds: seq<string>, similar: SimilarOracle)
    ensures Candidates(seeds, similar).Ok? <==> forall i :: 0 <= i < |seeds| ==> similar(seeds[i]).Ok?
    ensures Candidates(seeds, similar).Ok? ==>
      var names := Candidates(seeds, similar).value;
      (forall i, j :: 0 <= i < j < |names| ==> names[i] != names[j])
      && (forall i :: 0 <= i < |names| ==> NoSpace(names[i]))
  {
    ExpansionSucceeds(seeds, similar);
    if Candidates(seeds, similar).Ok? {
      var names := Candidates(seeds, similar).value;
      DedupSpec(Expansion(seeds, similar).value);
      forall i | 0 <= i < |names| ensures NoSpace(names[i]) {
        CandidatesExact(seeds, similar, names, names[i]);
        var s :| 0 <= s < |seeds| && Adds(seeds[s], similar, names[i]);
      }
    }
  }

  /** A reply without a results list contributes only the seed. */
  lemma MissingResultsAddOnlySeed(seed: string, similar: SimilarOracle)
    requires similar(seed) == Ok(None)
    ensures Expansion([seed], similar) == Ok([StripSpace(seed)])
  {
    ExpansionOne(seed, similar);
    assert Entries(None) == [];
    assert RelatedKeys([]) == [];
    assert SeedKeys(seed, None) == [StripSpace(seed)] + [];
    assert [StripSpace(seed)] + [] == [StripSpace(seed)];
  }

  /** The seed loop over `a + b` adds what it adds over `a`, then what it
      adds over `b`: seeds are handled in order, each seed's own name before
      its related names. */
  lemma {:induction false} ExpansionAppend(a: seq<string>, b: seq<string>, similar: SimilarOracle)
    requires Expansion(a, similar).Ok? && Expansion(b, similar).Ok?
    ensures Expansion(a + b, similar) == Ok(Expansion(a, similar).value + Expansion(b, similar).value)
    decreases |b|
  {
    if b == [] {
      assert a + b == a;
      assert Expansion(a, similar).value + [] == Expansion(a, similar).value;
    } else {
      ExpansionAppend(a, b[..|b| - 1], similar);
      ExpansionAppendStep(a, b, similar);
    }
  }

  /** The induction step of ExpansionAppend: from `a + front` to `a + b`. */
  lemma ExpansionAppendStep(a: seq<string>, b: seq<string>, similar: SimilarOracle)
    requires b != [] && Expansion(a, similar).Ok? && Expansion(b, similar).Ok?
    requires Expansion(b[..|b| - 1], similar).Ok?
    requires Expansion(a + b[..|b| - 1], similar)
      == Ok(Expansion(a, similar).value + Expansion(b[..|b| - 1], similar).value)
    ensures Expansion(a + b, similar) == Ok(Expansion(a, similar).value + Expansion(b, similar).value)
  {
    var n := |b| - 1;
    var front, last := b[..n], b[n];
    ExpansionLast(b, similar, Expansion(b, similar).value);
    var x := Expansion(a, similar).value;
    var y := Expansion(front, similar).value;
    var related := similar(last).value;
    var keys := SeedKeys(last, related);
    AppendSnoc(a, b);
    ExpansionSnoc(a + front, last, similar, x + y, related);
    AppendAssoc(x, y, keys);
  }

  /** A successful round appended to a successful seed loop. */
  lemma ExpansionSnoc(seeds: seq<string>, seed: string, similar: SimilarOracle, stream: seq<string>, related: RelatedList)
    requires Expansion(seeds, similar) == Ok(stream) && similar(seed) == Ok(related)
    ensures Expansion(seeds + [seed], similar) == Ok(stream + SeedKeys(seed, related))
  {
    assert (seeds + [seed])[..|seeds|] == seeds;
  }

  lemma ExpansionOne(seed: string, similar: SimilarOracle)
    requires similar(seed).Ok?
    ensures Expansion([seed], similar) == Ok(SeedKeys(seed, similar(seed).value))
  {
    assert [seed][..0] == [];
    assert [] + SeedKeys(seed, similar(seed).value) == SeedKeys(seed, similar(seed).value);
  }

  /** The position at which `x` was first added. */
  function FirstIndex(xs: seq<string>, x: string): (k: nat)
    requires x in xs
    ensures k < |xs| && xs[k] == x && x !in xs[..k]
  {
    if xs[0] == x then 0
    else
      var k := FirstIndex(xs[1..], x) + 1;
      assert xs[..k] == [xs[0]] + xs[1..][..k - 1];
      k
  }

  lemma FirstIndexUnique(xs: seq<string>, x: string, k: nat)
    requires k < |xs| && xs[k] == x && x !in xs[..k]
    ensures FirstIndex(xs, x) == k
  {
  }

  lemma FirstIndexInPrefix(p: seq<string>, x: string, y: string)
    requires y in p
    ensures FirstIndex(p + [x], y) == FirstIndex(p, y)
  {
    var k := FirstIndex(p, y);
    assert (p + [x])[..k] == p[..k];
    FirstIndexUnique(p + [x], y, k);
  }

  /** The Set iterates in first-insertion order. */
  lemma {:induction false} DedupOrder(stream: seq<string>)
    ensures forall i, j :: 0 <= i < j < |Dedup(stream)| ==>
      Dedup(stream)[i] in stream && Dedup(stream)[j] in stream
      && FirstIndex(stream, Dedup(stream)[i]) < FirstIndex(stream, Dedup(stream)[j])
    decreases |stream|
  {
    DedupSpec(stream);
    if stream != [] {
      var n := |stream| - 1;
      var p, x := stream[..n], stream[n];
      assert stream == p + [x];
      DedupOrder(p);
      var d := Dedup(p);
      DedupSpec(p);
      forall y | y in p ensures FirstIndex(stream, y) == FirstIndex(p, y) {
        FirstIndexInPrefix(p, x, y);
      }
      if x !in d {
        assert stream[..n] == p;
        FirstIndexUnique(stream, x, n);
        assert Dedup(stream) == d + [x];
        forall i | 0 <= i < |d| ensures FirstIndex(stream, d[i]) < n {
          FirstIndexInPrefix(p, x, d[i]);
        }
      }
    }
  }

  lemma {:induction false} DedupHead(stream: seq<string>)
    requires stream != []
    ensures Dedup(stream) != [] && Dedup(stream)[0] == stream[0]
    decreases |stream|
  {
    var n := |stream| - 1;
    if n > 0 {
      DedupHead(stream[..n]);
    }
  }

  /** The first candidate is the first seed, stripped. */
  lemma FirstCandidateIsFirstSeed(seeds: seq<string>, similar: SimilarOracle, names: seq<string>)
    requires seeds != [] && Candidates(seeds, similar) == Ok(names)
    ensures names != [] && names[0] == StripSpace(seeds[0])
  {
    var stream := Expansion(seeds, similar).value;
    ExpansionSucceeds(seeds, similar);
    ExpansionSucceeds(seeds[1..], similar);
    assert forall i :: 0 <= i < |seeds| - 1 ==> seeds[1..][i] == seeds[i + 1];
    ExpansionOne(seeds[0], similar);
    ExpansionAppend([seeds[0]], seeds[1..], similar);
    assert [seeds[0]] + seeds[1..] == seeds;
    DedupHead(stream);
  }

  /** Two seeds that share a related artist: the shared name is added once,
      where the first seed added it. */
  lemma SharedRelatedAddedOnce(similar: SimilarOracle)
    requires similar("A") == Ok(Some([Some("C")])) && similar("B") == Ok(Some([Some("C")]))
    ensures Candidates(["A", "B"], similar) == Ok(["A", "C", "B"])
  {
    SharedRelatedStream(similar);
    SharedRelatedDedup();
  }

  lemma SharedRelatedStream(similar: SimilarOracle)
    requires similar("A") == Ok(Some([Some("C")])) && similar("B") == Ok(Some([Some("C")]))
    ensures Expansion(["A", "B"], similar) == Ok(["A", "C", "B", "C"])
  {
    var related := Some([Some("C")]);
    assert RelatedKeys([Some("C")]) == ["C"] by {
      assert [Some("C")][..0] == [];
    }
    assert SeedKeys("A", related) == ["A", "C"];
    assert SeedKeys("B", related) == ["B", "C"];
    ExpansionOne("A", similar);
    ExpansionSnoc(["A"], "B", similar, ["A", "C"], related);
    assert ["A"] + ["B"] == ["A", "B"];
    assert ["A", "C"] + ["B", "C"] == ["A", "C", "B", "C"];
  }

  lemma SharedRelatedDedup()
    ensures Dedup(["A", "C", "B", "C"]) == ["A", "C", "B"]
  {
    var stream: seq<string> := ["A", "C", "B", "C"];
    assert stream[..3] == ["A", "C", "B"] && stream[..3][..2] == ["A", "C"] && stream[..3][..2][..1] == ["A"];
    assert Dedup(["A"]) == ["A"] by {
      assert ["A"][..0] == [];
    }
    assert Dedup(["A", "C"]) == ["A", "C"];
    assert Dedup(["A", "C", "B"]) == ["A", "C", "B"];
  }

  // ---------------------------------------------------------------------
  // Resolution
  // ---------------------------------------------------------------------

  /** The search loop: one artist search per candidate, in Set order; a hit
      is kept, a miss dropped, a failure aborts everything. */
  function Resolution(token: string, names: seq<string>, search: SearchOracle): (r: Outcome<seq<Artist>>)
    ensures r.Ok? ==> |r.value| <= |names|
    decreases |names|
  {
    if names == [] then Ok([])
    else
      match Resolution(token, names[..|names| - 1], search)
      case Failed => Failed
      case Ok(found) =>
        match search(token, names[|names| - 1])
        case Failed => Failed
        case Ok(None) => Ok(found)
        case Ok(Some(artist)) => Ok(found + [artist])
  }

  lemma {:induction false} ResolutionFailed(token: string, names: seq<string>, k: nat, search: SearchOracle)
    requires k <= |names| && Resolution(token, names[..k], search) == Failed
    ensures Resolution(token, names, search) == Failed
    decreases |names| - k
  {
    if k < |names| {
      assert names[..k + 1][..k] == names[..k];
      ResolutionFailed(token, names, k + 1, search);
    } else {
      assert names[..k] == names;
    }
  }

  /** `for (const artistName of allArtistNames)`: search, keep the first item
      when there is one. */
  method ResolveArtists(token: string, names: seq<string>, search: SearchOracle) returns (r: Outcome<seq<Artist>>)
    ensures r == Resolution(token, names, search)
  {
    var found: seq<Artist> := [];
    for i := 0 to |names|
      invariant Resolution(token, names[..i], search) == Ok(found)
    {
      var reply := search(token, names[i]);
      assert names[..i + 1][..i] == names[..i];
      if reply.Failed? {
        ResolutionFailed(token, names, i + 1, search);
        return Failed;
      }
      if reply.value.Some? {
        found := found + [reply.value.value];
      }
    }
    assert names[..|names|] == names;
    return Ok(found);
  }

  predicate Hit(token: string, name: string, search: SearchOracle) {
    search(token, name).Ok? && search(token, name).value.Some?
  }

  /** The positions of the candidates with a search hit, in increasing order. */
  function HitIndices(token: string, names: seq<string>, search: SearchOracle): (idx: seq<nat>)
    ensures forall k :: 0 <= k < |idx| ==> idx[k] < |names|
    ensures forall k, l :: 0 <= k < l < |idx| ==> idx[k] < idx[l]
    decreases |names|
  {
    if names == [] then []
    else
      var n := |names| - 1;
      HitIndices(token, names[..n], search) + (if Hit(token, names[n], search) then [n] else [])
  }

  /** `found` is the search hits of `names`, in candidate order: one artist
      per hit index, the one the search returned for that candidate, and
      every candidate with a hit has its index listed. */
  predicate HitsInOrder(token: string, names: seq<string>, search: SearchOracle, found: seq<Artist>) {
    var idx := HitIndices(token, names, search);
    |idx| == |found|
    && (forall k :: 0 <= k < |idx| ==> search(token, names[idx[k]]) == Ok(Some(found[k])))
    && (forall i :: 0 <= i < |names| && Hit(token, names[i], search) ==> i in idx)
  }

  /** The resolved artists are the search hits of the candidates, in
      candidate order; every candidate with a hit is represented, and the
      misses are dropped. */
  lemma {:induction false} ResolvedInCandidateOrder(token: string, names: seq<string>, search: SearchOracle, found: seq<Artist>)
    requires Resolution(token, names, search) == Ok(found)
    ensures HitsInOrder(token, names, search, found)
    decreases |names|
  {
    if names != [] {
      var n := |names| - 1;
      var prior := Resolution(token, names[..n], search).value;
      ResolvedInCandidateOrder(token, names[..n], search, prior);
      HitsInOrderSnoc(token, names, search, prior, found);
    }
  }

  lemma HitsInOrderSnoc(token: string, names: seq<string>, search: SearchOracle, prior: seq<Artist>, found: seq<Artist>)
    requires names != [] && HitsInOrder(token, names[..|names| - 1], search, prior)
    requires var last := names[|names| - 1];
      found == prior + (if Hit(token, last, search) then [search(token, last).value.value] else [])
    ensures HitsInOrder(token, names, search, found)
  {
    var n := |names| - 1;
    var front := names[..n];
    var before := HitIndices(token, front, search);
    var idx := HitIndices(token, names, search);
    assert idx == before + (if Hit(token, names[n], search) then [n] else []);
    forall k | 0 <= k < |idx| ensures search(token, names[idx[k]]) == Ok(Some(found[k])) {
      if k < |before| {
        assert idx[k] == before[k] && found[k] == prior[k];
        assert front[before[k]] == names[before[k]];
      }
    }
    forall i | 0 <= i < |names| && Hit(token, names[i], search) ensures i in idx {
      if i < n {
        assert front[i] == names[i];
        assert i in before;
      } else {
        assert idx[|before|] == n;
      }
    }
  }

  /** The search loop finishes exactly when every search succeeds. */
  lemma {:induction false} ResolutionSucceeds(token: string, names: seq<string>, search: SearchOracle)
    ensures Resolution(token, names, search).Ok? <==> forall i :: 0 <= i < |names| ==> search(token, names[i]).Ok?
    decreases |names|
  {
    if names != [] {
      var n := |names| - 1;
      ResolutionSucceeds(token, names[..n], search);
      assert forall i :: 0 <= i < n ==> names[..n][i] == names[i];
    }
  }

  /** No hit at all: nothing is resolved. */
  lemma NothingResolved(token: string, names: seq<string>, search: SearchOracle)
    requires forall i :: 0 <= i < |names| ==> search(token, names[i]) == Ok(None)
    ensures Resolution(token, names, search) == Ok([])
  {
    ResolutionSucceeds(token, names, search);
    var found := Resolution(token, names, search).value;
    ResolvedInCandidateOrder(token, names, search, found);
  }

  /** The ids of the resolved artists, in order. */
  function IdsOf(artists: seq<Artist>): (ids: seq<string>)
    ensures |ids| == |artists|
    ensures forall k :: 0 <= k < |ids| ==> ids[k] == artists[k].id
  {
    seq(|artists|, k requires 0 <= k < |artists| => artists[k].id)
  }

  /** The id loop of getRecommendations: search each candidate and push the
      id of the first item when there is one. */
  method ResolveArtistIds(token: string, names: seq<string>, search: SearchOracle) returns (r: Outcome<seq<string>>)
    ensures r == match Resolution(token, names, search)
                 case Failed => Failed
                 case Ok(found) => Ok(IdsOf(found))
  {
    var ids: seq<string> := [];
    ghost var found: seq<Artist> := [];
    for i := 0 to |names|
      invariant Resolution(token, names[..i], search) == Ok(found)
      invariant ids == IdsOf(found)
    {
      var reply := search(token, names[i]);
      assert names[..i + 1][..i] == names[..i];
      if reply.Failed? {
        ResolutionFailed(token, names, i + 1, search);
        return Failed;
      }
      if reply.value.Some? {
        var artist := reply.value.value;
        assert IdsOf(found + [artist]) == IdsOf(found) + [artist.id];
        found := found + [artist];
        ids := ids + [artist.id];
      }
    }
    assert names[..|names|] == names;
    return Ok(ids);
  }

  /** The pushed ids are those of the candidates' search hits, one per hit,
      in candidate order. */
  lemma ResolvedIds(token: string, names: seq<string>, search: SearchOracle, found: seq<Artist>)
    requires Resolution(token, names, search) == Ok(found)
    ensures var idx := HitIndices(token, names, search);
      |IdsOf(found)| == |idx|
      && forall k :: 0 <= k < |idx| ==>
           Hit(token, names[idx[k]], search) && IdsOf(found)[k] == search(token, names[idx[k]]).value.value.id
  {
    ResolvedInCandidateOrder(token, names, search, found);
  }

  // ---------------------------------------------------------------------
  // Input / similar partition
  // ---------------------------------------------------------------------

  /** `inputArtists.some(s => name.toLowerCase().includes(s.toLowerCase()))`. */
  function MatchesSomeSeed(name: string, seeds: seq<string>): (r: bool)
    ensures r <==> exists i :: 0 <= i < |seeds| && Includes(Lower(name), Lower(seeds[i]))
    decreases |seeds|
  {
    if seeds == [] then false
    else
      var r := Includes(Lower(name), Lower(seeds[0])) || MatchesSomeSeed(name, seeds[1..]);
      assert forall i :: 1 <= i < |seeds| ==> seeds[1..][i - 1] == seeds[i];
      r
  }

  /** `xs` is `ys` with some elements left out, the rest in their order. */
  predicate Subsequence(xs: seq<Artist>, ys: seq<Artist>)
    decreases |ys|
  {
    if xs == [] then true
    else if ys == [] then false
    else if xs[0] == ys[0] then Subsequence(xs[1..], ys[1..])
    else Subsequence(xs, ys[1..])
  }

  /** `artists.filter(a => MatchesSomeSeed(a.name, seeds) == wanted)`. */
  function Select(artists: seq<Artist>, seeds: seq<string>, wanted: bool): seq<Artist>
    decreases |artists|
  {
    if artists == [] then []
    else
      var rest := Select(artists[1..], seeds, wanted);
      if MatchesSomeSeed(artists[0].name, seeds) == wanted then [artists[0]] + rest else rest
  }

  /** A half holds exactly the resolved artists of its class, in the
      resolved order. */
  lemma {:induction false} SelectSpec(artists: seq<Artist>, seeds: seq<string>, wanted: bool)
    ensures forall a :: a in Select(artists, seeds, wanted) <==> a in artists && MatchesSomeSeed(a.name, seeds) == wanted
    ensures Subsequence(Select(artists, seeds, wanted), artists)
    decreases |artists|
  {
    if artists != [] {
      SelectSpec(artists[1..], seeds, wanted);
      assert forall a :: a in artists <==> a == artists[0] || a in artists[1..];
    }
  }

  /** The two halves of the partition together hold each resolved artist as
      often as the resolved list does. */
  lemma {:induction false} PartitionCovers(artists: seq<Artist>, seeds: seq<string>)
    ensures multiset(Select(artists, seeds, true)) + multiset(Select(artists, seeds, false)) == multiset(artists)
    decreases |artists|
  {
    if artists != [] {
      var a, rest := artists[0], artists[1..];
      PartitionCovers(rest, seeds);
      var t, f := Select(rest, seeds, true), Select(rest, seeds, false);
      assert artists == [a] + rest;
      if MatchesSomeSeed(a.name, seeds) {
        assert Select(artists, seeds, true) == [a] + t;
        assert Select(artists, seeds, false) == f;
        calc {
          multiset([a] + t) + multiset(f);
          multiset([a]) + (multiset(t) + multiset(f));
          multiset([a]) + multiset(rest);
          multiset(artists);
        }
      } else {
        assert Select(artists, seeds, true) == t;
        assert Select(artists, seeds, false) == [a] + f;
        calc {
          multiset(t) + multiset([a] + f);
          multiset([a]) + (multiset(t) + multiset(f));
          multiset([a]) + multiset(rest);
          multiset(artists);
        }
      }
    }
  }

  /** No artist is in both halves, and each half keeps the resolved order. */
  lemma PartitionDisjointOrdered(artists: seq<Artist>, seeds: seq<string>)
    ensures forall a :: !(a in Select(artists, seeds, true) && a in Select(artists, seeds, false))
    ensures Subsequence(Select(artists, seeds, true), artists) && Subsequence(Select(artists, seeds, false), artists)
  {
    SelectSpec(artists, seeds, true);
    SelectSpec(artists, seeds, false);
  }

  lemma LowerAppend(a: string, b: string)
    ensures Lower(a + b) == Lower(a) + Lower(b)
  {
  }

  /** A name that starts with a seed is an input artist for that seed. */
  lemma NameStartingWithSeedIsInput(seed: string, rest: string)
    ensures MatchesSomeSeed(seed + rest, [seed])
  {
    LowerAppend(seed, rest);
    var hay := Lower(seed + rest);
    assert hay[..|Lower(seed)|] == Lower(seed);
    assert OccursAt(hay, Lower([seed][0]), 0);
  }

  /** Substring classification: "Arijit Singh Live" is an input artist for
      the seed "Arijit Singh". */
  lemma SubstringCountsAsInput()
    ensures MatchesSomeSeed("Arijit Singh Live", ["Arijit Singh"])
  {
    assert "Arijit Singh Live" == "Arijit Singh" + " Live";
    NameStartingWithSeedIsInput("Arijit Singh", " Live");
  }

  /** An empty seed (as in "A,,B") makes every artist an input artist. */
  lemma EmptySeedMatchesAll(name: string, seeds: seq<string>)
    requires "" in seeds
    ensures MatchesSomeSeed(name, seeds)
  {
    var i :| 0 <= i < |seeds| && seeds[i] == "";
    assert OccursAt(Lower(name), Lower(seeds[i]), 0);
  }

  /** With an empty seed, `input` is the whole resolved list and `similar`
      is empty. */
  lemma {:induction false} EmptySeedSelectsAll(artists: seq<Artist>, seeds: seq<string>)
    requires "" in seeds
    ensures Select(artists, seeds, true) == artists && Select(artists, seeds, false) == []
    decreases |artists|
  {
    if artists != [] {
      EmptySeedMatchesAll(artists[0].name, seeds);
      EmptySeedSelectsAll(artists[1..], seeds);
      assert artists == [artists[0]] + artists[1..];
    }
  }

  // ---------------------------------------------------------------------
  // Top tracks
  // ---------------------------------------------------------------------

  /** One top-tracks request per id, in order, their track lists appended;
      the first failure aborts everything. */
  function TopTracks(token: string, ids: seq<string>, topTracks: TopTracksOracle): Outcome<seq<Track>>
    decreases |ids|
  {
    if ids == [] then Ok([])
    else
      match TopTracks(token, ids[..|ids| - 1], topTracks)
      case Failed => Failed
      case Ok(tracks) =>
        match topTracks(token, ids[|ids| - 1])
        case Failed => Failed
        case Ok(more) => Ok(tracks + more)
  }

  lemma {:induction false} TopTracksFailed(token: string, ids: seq<string>, k: nat, topTracks: TopTracksOracle)
    requires k <= |ids| && TopTracks(token, ids[..k], topTracks) == Failed
    ensures TopTracks(token, ids, topTracks) == Failed
    decreases |ids| - k
  {
    if k < |ids| {
      assert ids[..k + 1][..k] == ids[..k];
      TopTracksFailed(token, ids, k + 1, topTracks);
    } else {
      assert ids[..k] == ids;
    }
  }

  /** `for (const artistId of artistIDs) allTopTracks.push(...tracks)`. */
  method CollectTopTracks(token: string, ids: seq<string>, topTracks: TopTracksOracle) returns (r: Outcome<seq<Track>>)
    ensures r == TopTracks(token, ids, topTracks)
  {
    var all: seq<Track> := [];
    for i := 0 to |ids|
      invariant TopTracks(token, ids[..i], topTracks) == Ok(all)
    {
      var reply := topTracks(token, ids[i]);
      assert ids[..i + 1][..i] == ids[..i];
      if reply.Failed? {
        TopTracksFailed(token, ids, i + 1, topTracks);
        return Failed;
      }
      all := all + reply.value;
    }
    assert ids[..|ids|] == ids;
    return Ok(all);
  }

  /** The track list for `a + b` is the list for `a` followed by the list
      for `b`: each id's tracks in id order, nothing merged or dropped. */
  lemma {:induction false} TopTracksAppend(token: string, a: seq<string>, b: seq<string>, topTracks: TopTracksOracle)
    requires TopTracks(token, a, topTracks).Ok? && TopTracks(token, b, topTracks).Ok?
    ensures TopTracks(token, a + b, topTracks) == Ok(TopTracks(token, a, topTracks).value + TopTracks(token, b, topTracks).value)
    decreases |b|
  {
    var x := TopTracks(token, a, topTracks).value;
    if b == [] {
      assert a + b == a;
      assert x + [] == x;
    } else {
      var n := |b| - 1;
      assert (a + b)[..|a + b| - 1] == a + b[..n];
      assert (a + b)[|a + b| - 1] == b[n];
      var y := TopTracks(token, b[..n], topTracks).value;
      var more := topTracks(token, b[n]).value;
      TopTracksAppend(token, a, b[..n], topTracks);
      assert TopTracks(token, b, topTracks) == Ok(y + more);
      assert TopTracks(token, a + b, topTracks) == Ok((x + y) + more);
      assert (x + y) + more == x + (y + more);
    }
  }

  /** The top-tracks loop finishes exactly when every request succeeds. */
  lemma {:induction false} TopTracksSucceed(token: string, ids: seq<string>, topTracks: TopTracksOracle)
    ensures TopTracks(token, ids, topTracks).Ok? <==> forall i :: 0 <= i < |ids| ==> topTracks(token, ids[i]).Ok?
    decreases |ids|
  {
    if ids != [] {
      var n := |ids| - 1;
      TopTracksSucceed(token, ids[..n], topTracks);
      assert forall i :: 0 <= i < n ==> ids[..n][i] == ids[i];
    }
  }

  /** A repeated id contributes its reply once per occurrence, in order. */
  lemma DuplicateIdsRepeated(token: string, id: string, topTracks: TopTracksOracle)
    requires topTracks(token, id).Ok?
    ensures TopTracks(token, [id, id], topTracks) == Ok(topTracks(token, id).value + topTracks(token, id).value)
  {
    var t := topTracks(token, id).value;
    assert [id, id][..1] == [id];
    assert [id][..0] == [];
    assert TopTracks(token, [], topTracks) == Ok([]);
    assert TopTracks(token, [id], topTracks) == Ok([] + t);
    assert [] + t == t;
  }
}
