/** Filtering and ranking of the scored candidates (`filterAndRank`): a strict
    pass, a relaxed pass, enharmonic deduplication, a tolerance sort and two
    caps on the tier-1 modes. */
module Ranking {
  import opened Seqs
  import opened Tonal
  import opened PitchClasses
  import opened Whitelist
  import opened Scoring

  // ---------------------------------------------------------------------------
  // The two passes
  // ---------------------------------------------------------------------------

  /** Pass 1: every root in the scale, and good coverage (relevance for the
      pentatonic and blues scales). */
  predicate PassesStrict(c: ScoredCandidate)
  {
    c.rootCoverage >= 1.0 && (if IsSmallScale(c.entry) then c.scaleRelevance >= 0.8 else c.coverage >= 0.7)
  }

  /** The tonic and the scale name, joined by an underscore. */
  function NameKey(c: ScoredCandidate): string
  {
    UnderscoreKey(c.tonic, c.entry.tonalName)
  }

  function StrictPass(cs: seq<ScoredCandidate>): seq<ScoredCandidate>
  {
    Filter(cs, PassesStrict)
  }

  /** `strictKeys`. */
  function StrictKeys(strict: seq<ScoredCandidate>): set<string>
  {
    set c | c in strict :: NameKey(c)
  }

  /** Pass 2: not already taken by name, three quarters of the roots in the scale,
      and looser coverage. */
  function PassesRelaxed(strictKeys: set<string>): ScoredCandidate -> bool
  {
    (c: ScoredCandidate) =>
      NameKey(c) !in strictKeys && c.rootCoverage >= 0.75 &&
      (if IsSmallScale(c.entry) then c.scaleRelevance >= 0.6 else c.coverage >= 0.6)
  }

  function RelaxedPass(cs: seq<ScoredCandidate>): seq<ScoredCandidate>
  {
    Filter(cs, PassesRelaxed(StrictKeys(StrictPass(cs))))
  }

  /** The strict survivors followed by the relaxed ones when the strict pass keeps
      anything, else the relaxed survivors alone. */
  function Combined(cs: seq<ScoredCandidate>): seq<ScoredCandidate>
  {
    var strict := StrictPass(cs);
    var relaxed := RelaxedPass(cs);
    if |strict| > 0 then strict + relaxed else relaxed
  }

  /** The two passes never take the same candidate, their union draws each
      candidate at most as often as the input holds it, and the conditional
      concatenation is plain concatenation. */
  lemma PassesDisjoint(cs: seq<ScoredCandidate>)
    ensures forall c :: c in cs ==> !(PassesStrict(c) && PassesRelaxed(StrictKeys(StrictPass(cs)))(c))
    ensures Combined(cs) == StrictPass(cs) + RelaxedPass(cs)
    ensures multiset(Combined(cs)) <= multiset(cs)
  {
    var keys := StrictKeys(StrictPass(cs));
    forall c | c in cs && PassesStrict(c)
      ensures NameKey(c) in keys
    {
      assert c in StrictPass(cs);
    }
    FilterDisjoint(cs, PassesStrict, PassesRelaxed(keys));
    if |StrictPass(cs)| == 0 {
      assert StrictPass(cs) + RelaxedPass(cs) == RelaxedPass(cs);
    }
  }

  /** Every candidate either pass lets through has at least three quarters of the
      roots in its scale. */
  lemma CombinedRootCoverage(cs: seq<ScoredCandidate>)
    ensures forall c :: c in Combined(cs) ==> c in cs && c.rootCoverage >= 0.75
  {
    PassesDisjoint(cs);
  }

  // ---------------------------------------------------------------------------
  // Deduplication by key
  // ---------------------------------------------------------------------------

  /** The scale's pitch-class-set key. */
  function ScaleKey(lib: Library, c: ScoredCandidate): string
  {
    PitchClassSetKey(lib, ScaleNotes(lib, c.tonic, c.entry.tonalName))
  }

  /** The pitch-class key of the scale's notes and the scale name, joined by an
      underscore. */
  function EnharmonicKey(lib: Library): ScoredCandidate -> string
  {
    (c: ScoredCandidate) => UnderscoreKey(ScaleKey(lib, c), c.entry.tonalName)
  }

  /** Two candidates are enharmonic duplicates exactly when their scales have the
      same chroma set and the same scale name. */
  lemma EnharmonicKeyMeaning(lib: Library, c: ScoredCandidate, d: ScoredCandidate)
    ensures EnharmonicKey(lib)(c) == EnharmonicKey(lib)(d) <==>
      && ChromaSet(lib, ScaleNotes(lib, c.tonic, c.entry.tonalName)) ==
         ChromaSet(lib, ScaleNotes(lib, d.tonic, d.entry.tonalName))
      && c.entry.tonalName == d.entry.tonalName
  {
    UnderscoreKeyInjective(ScaleKey(lib, c), c.entry.tonalName, ScaleKey(lib, d), d.entry.tonalName);
    PitchClassSetKeyExact(lib, ScaleNotes(lib, c.tonic, c.entry.tonalName), ScaleNotes(lib, d.tonic, d.entry.tonalName));
  }

  function KeysOf(s: seq<ScoredCandidate>, key: ScoredCandidate -> string): set<string>
  {
    set x | x in s :: key(x)
  }

  /** The filter with a `seen` set: keep a candidate when no earlier one has its key. */
  function Dedup(s: seq<ScoredCandidate>, key: ScoredCandidate -> string): seq<ScoredCandidate>
    decreases |s|
  {
    if s == [] then []
    else
      var init := s[..|s| - 1];
      var r := Dedup(init, key);
      if key(s[|s| - 1]) in KeysOf(init, key) then r else r + [s[|s| - 1]]
  }

  function KeyIs(key: ScoredCandidate -> string, k: string): ScoredCandidate -> bool
  {
    (c: ScoredCandidate) => key(c) == k
  }

  lemma KeysOfSnoc(s: seq<ScoredCandidate>, x: ScoredCandidate, key: ScoredCandidate -> string)
    ensures KeysOf(s + [x], key) == KeysOf(s, key) + {key(x)}
  {
    assert forall y :: y in s + [x] <==> y in s || y == x;
  }

  /** Deduplication keeps a sub-multiset of its input with the same keys, at most
      one candidate per key, and the first candidate. */
  lemma {:induction false} DedupFacts(s: seq<ScoredCandidate>, key: ScoredCandidate -> string)
    ensures multiset(Dedup(s, key)) <= multiset(s)
    ensures KeysOf(Dedup(s, key), key) == KeysOf(s, key)
    ensures forall k :: Count(Dedup(s, key), KeyIs(key, k)) <= 1
    ensures s != [] ==> Dedup(s, key) != [] && Dedup(s, key)[0] == s[0]
    decreases |s|
  {
    if s != [] {
      var init := s[..|s| - 1];
      var x := s[|s| - 1];
      var r := Dedup(init, key);
      DedupFacts(init, key);
      assert s == init + [x];
      KeysOfSnoc(init, x, key);
      if key(x) !in KeysOf(init, key) {
        KeysOfSnoc(r, x, key);
        forall k
          ensures Count(r + [x], KeyIs(key, k)) <= 1
        {
          CountSnoc(r, x, KeyIs(key, k));
          if k == key(x) {
            forall i | 0 <= i < |r|
              ensures !KeyIs(key, k)(r[i])
            {
              assert key(r[i]) in KeysOf(r, key);
            }
            CountNone(r, KeyIs(key, k));
          }
        }
      }
      if init == [] {
        assert key(x) !in KeysOf(init, key);
      }
    }
  }

  /** Deduplication keeps every candidate whose key no earlier candidate has. */
  lemma {:induction false} DedupKeepsFirstSeen(s: seq<ScoredCandidate>, key: ScoredCandidate -> string)
    ensures forall i :: 0 <= i < |s| && key(s[i]) !in KeysOf(s[..i], key) ==> s[i] in Dedup(s, key)
    decreases |s|
  {
    if s != [] {
      var init := s[..|s| - 1];
      DedupKeepsFirstSeen(init, key);
      forall i | 0 <= i < |s| && key(s[i]) !in KeysOf(s[..i], key)
        ensures s[i] in Dedup(s, key)
      {
        if i < |init| {
          assert s[..i] == init[..i];
          assert init[i] == s[i];
        } else {
          assert s[..i] == init;
        }
      }
    }
  }

  /** Deduplication keeps its survivors in input order. */
  lemma {:induction false} DedupSubsequence(s: seq<ScoredCandidate>, key: ScoredCandidate -> string)
    ensures Subsequence(Dedup(s, key), s)
    decreases |s|
  {
    if s != [] {
      var init := s[..|s| - 1];
      DedupSubsequence(init, key);
      assert s == init + [s[|s| - 1]];
      SubsequenceSnoc(Dedup(init, key), init, s[|s| - 1]);
    }
  }

  /** One step of deduplication over a prefix. */
  lemma DedupPrefix(s: seq<ScoredCandidate>, i: nat, key: ScoredCandidate -> string)
    requires i < |s|
    ensures KeysOf(s[..i + 1], key) == KeysOf(s[..i], key) + {key(s[i])}
    ensures Dedup(s[..i + 1], key) ==
      if key(s[i]) in KeysOf(s[..i], key) then Dedup(s[..i], key) else Dedup(s[..i], key) + [s[i]]
  {
    assert s[..i + 1] == s[..i] + [s[i]];
    assert s[..i + 1][..i] == s[..i];
    KeysOfSnoc(s[..i], s[i], key);
  }

  /** The `seenEnharmonic` filter, with its set of keys seen so far. */
  method DedupEnharmonic(lib: Library, filtered: seq<ScoredCandidate>) returns (r: seq<ScoredCandidate>)
    ensures r == Dedup(filtered, EnharmonicKey(lib))
  {
    var seen: set<string> := {};
    r := [];
    for i := 0 to |filtered|
      invariant seen == KeysOf(filtered[..i], EnharmonicKey(lib))
      invariant r == Dedup(filtered[..i], EnharmonicKey(lib))
    {
      var c := filtered[i];
      DedupPrefix(filtered, i, EnharmonicKey(lib));
      var key := EnharmonicKey(lib)(c);
      if key in seen {
        continue;
      }
      seen := seen + {key};
      r := r + [c];
    }
    assert filtered[..|filtered|] == filtered;
  }

  // ---------------------------------------------------------------------------
  // The tolerance sort
  // ---------------------------------------------------------------------------

  /** The comparator: by descending score, but scores within 0.001 of each other
      compare by ascending tier. */
  function Compare(a: ScoredCandidate, b: ScoredCandidate): real
  {
    var diff := b.score - a.score;
    if diff > 0.001 || diff < -0.001 then diff else (a.entry.tier - b.entry.tier) as real
  }

  /** `a` belongs after `b`. */
  predicate After(a: ScoredCandidate, b: ScoredCandidate)
  {
    Compare(a, b) > 0.0
  }

  /** One insertion step: `x` moves left past the elements that belong after it,
      stopping at the first that does not. */
  function InsertRanked(sorted: seq<ScoredCandidate>, x: ScoredCandidate): seq<ScoredCandidate>
    decreases |sorted|
  {
    if sorted == [] then [x]
    else if After(sorted[|sorted| - 1], x) then InsertRanked(sorted[..|sorted| - 1], x) + [sorted[|sorted| - 1]]
    else sorted + [x]
  }

  /** A stable insertion sort under the comparator. */
  function SortByRank(s: seq<ScoredCandidate>): seq<ScoredCandidate>
    decreases |s|
  {
    if s == [] then [] else InsertRanked(SortByRank(s[..|s| - 1]), s[|s| - 1])
  }

  lemma {:induction false} InsertRankedPermutes(sorted: seq<ScoredCandidate>, x: ScoredCandidate)
    ensures multiset(InsertRanked(sorted, x)) == multiset(sorted) + multiset{x}
    decreases |sorted|
  {
    if sorted != [] {
      var init := sorted[..|sorted| - 1];
      assert sorted == init + [sorted[|sorted| - 1]];
      InsertRankedPermutes(init, x);
    }
  }

  /** The sort is a permutation. */
  lemma {:induction false} SortByRankPermutes(s: seq<ScoredCandidate>)
    ensures multiset(SortByRank(s)) == multiset(s)
    ensures |SortByRank(s)| == |s|
    decreases |s|
  {
    if s != [] {
      var init := s[..|s| - 1];
      assert s == init + [s[|s| - 1]];
      SortByRankPermutes(init);
      InsertRankedPermutes(SortByRank(init), s[|s| - 1]);
      assert |multiset(SortByRank(s))| == |SortByRank(s)|;
    }
  }

  /** A list in which no element belongs after a later one is left as it is. */
  lemma {:induction false} SortByRankKeepsOrdered(s: seq<ScoredCandidate>)
    requires forall i, j :: 0 <= i < j < |s| ==> !After(s[i], s[j])
    ensures SortByRank(s) == s
    decreases |s|
  {
    if s != [] {
      var init := s[..|s| - 1];
      SortByRankKeepsOrdered(init);
      assert s == init + [s[|s| - 1]];
    }
  }

  /** No element belongs after its right-hand neighbour. The comparator is not
      transitive (scores within the tolerance compare by tier), so this is what
      an insertion sort under it delivers. */
  predicate AdjacentRanked(s: seq<ScoredCandidate>)
  {
    forall i :: 0 < i < |s| ==> !After(s[i - 1], s[i])
  }

  /** The comparator is antisymmetric. */
  lemma CompareAntisymmetric(a: ScoredCandidate, b: ScoredCandidate)
    ensures Compare(a, b) == -Compare(b, a)
    ensures After(a, b) ==> !After(b, a)
  {
  }

  lemma {:induction false} InsertRankedAdjacent(sorted: seq<ScoredCandidate>, x: ScoredCandidate)
    requires AdjacentRanked(sorted)
    ensures AdjacentRanked(InsertRanked(sorted, x))
    decreases |sorted|
  {
    if sorted != [] {
      var init := sorted[..|sorted| - 1];
      var last := sorted[|sorted| - 1];
      if After(last, x) {
        assert AdjacentRanked(init) by {
          forall i | 0 < i < |init|
            ensures !After(init[i - 1], init[i])
          {
            assert init[i - 1] == sorted[i - 1] && init[i] == sorted[i];
          }
        }
        InsertRankedAdjacent(init, x);
        var r := InsertRanked(init, x);
        CompareAntisymmetric(last, x);
        if init != [] && After(init[|init| - 1], x) {
          assert r[|r| - 1] == init[|init| - 1] == sorted[|sorted| - 2];
        } else {
          assert r[|r| - 1] == x;
        }
        assert InsertRanked(sorted, x) == r + [last];
      }
    }
  }

  /** The sort leaves no element after a right-hand neighbour it belongs after. */
  lemma {:induction false} SortByRankAdjacent(s: seq<ScoredCandidate>)
    ensures AdjacentRanked(SortByRank(s))
    decreases |s|
  {
    if s != [] {
      SortByRankAdjacent(s[..|s| - 1]);
      InsertRankedAdjacent(SortByRank(s[..|s| - 1]), s[|s| - 1]);
    }
  }

  /** The shifting step of the inner loop, on the specification. */
  lemma InsertRankedShift(sorted: seq<ScoredCandidate>, x: ScoredCandidate, j: nat)
    requires 0 < j <= |sorted| && After(sorted[j - 1], x)
    ensures InsertRanked(sorted[..j], x) + sorted[j..] == InsertRanked(sorted[..j - 1], x) + sorted[j - 1..]
  {
    assert sorted[..j][..j - 1] == sorted[..j - 1];
    assert sorted[j - 1..] == [sorted[j - 1]] + sorted[j..];
  }

  /** The stopping step of the inner loop, on the specification. */
  lemma InsertRankedStop(sorted: seq<ScoredCandidate>, x: ScoredCandidate, j: nat)
    requires j <= |sorted| && (j == 0 || !After(sorted[j - 1], x))
    ensures InsertRanked(sorted[..j], x) == sorted[..j] + [x]
  {
  }

  /** The inner loop of the insertion sort: `a[i]` swaps left past the elements
      that belong after it. */
  method InsertInPlace(a: array<ScoredCandidate>, i: nat)
    requires i < a.Length
    modifies a
    ensures a[..i + 1] == InsertRanked(old(a[..i]), old(a[i]))
    ensures a[i + 1..] == old(a[i + 1..])
  {
    ghost var sorted := a[..i];
    ghost var rest := a[i + 1..];
    var x := a[i];
    var j := i;
    assert sorted[..j] == sorted && sorted[j..] == [];
    assert a[..] == a[..i] + [x] + rest;
    while j > 0 && After(a[j - 1], x)
      invariant 0 <= j <= i
      invariant a[..] == sorted[..j] + [x] + sorted[j..] + rest
      invariant InsertRanked(sorted, x) == InsertRanked(sorted[..j], x) + sorted[j..]
      decreases j
    {
      InsertRankedShift(sorted, x, j);
      SwapStep(a[..], sorted, x, rest, j);
      a[j - 1], a[j] := a[j], a[j - 1];
      j := j - 1;
    }
    InsertRankedStop(sorted, x, j);
    assert a[..i + 1] == (sorted[..j] + [x] + sorted[j..] + rest)[..i + 1];
    assert a[i + 1..] == (sorted[..j] + [x] + sorted[j..] + rest)[i + 1..];
  }

  /** The swap of the inner loop, on the sequence of the array's elements. */
  lemma SwapStep(s: seq<ScoredCandidate>, sorted: seq<ScoredCandidate>, x: ScoredCandidate,
                 rest: seq<ScoredCandidate>, j: nat)
    requires 0 < j <= |sorted|
    requires s == sorted[..j] + [x] + sorted[j..] + rest
    ensures s[j - 1 := s[j]][j := s[j - 1]] == sorted[..j - 1] + [x] + sorted[j - 1..] + rest
  {
    assert sorted[..j] == sorted[..j - 1] + [sorted[j - 1]];
    assert sorted[j - 1..] == [sorted[j - 1]] + sorted[j..];
  }

  /** The in-place sort of the deduplicated list, as an insertion sort. */
  method SortInPlace(a: array<ScoredCandidate>)
    modifies a
    ensures a[..] == SortByRank(old(a[..]))
  {
    ghost var input := a[..];
    for i := 0 to a.Length
      invariant a[..i] == SortByRank(input[..i])
      invariant a[i..] == input[i..]
    {
      assert input[..i + 1][..i] == input[..i];
      assert a[i] == input[i];
      assert a[i + 1..] == a[i..][1..] == input[i..][1..] == input[i + 1..];
      InsertInPlace(a, i);
    }
    assert input[..a.Length] == input;
  }

  // ---------------------------------------------------------------------------
  // The tier-1 caps
  // ---------------------------------------------------------------------------

  /** A tier-1 candidate with cap key `k`. */
  function TierOneWith(key: ScoredCandidate -> string, k: string): ScoredCandidate -> bool
  {
    (c: ScoredCandidate) => c.entry.tier == 1 && key(c) == k
  }

  function NotTierOne(c: ScoredCandidate): bool
  {
    c.entry.tier != 1
  }

  /** A cap filter with a counter map: a tier-1 candidate is kept while fewer than
      two kept tier-1 candidates share its key; the rest are always kept. */
  function Cap(s: seq<ScoredCandidate>, key: ScoredCandidate -> string): seq<ScoredCandidate>
    decreases |s|
  {
    if s == [] then []
    else
      var r := Cap(s[..|s| - 1], key);
      var c := s[|s| - 1];
      if c.entry.tier != 1 then r + [c]
      else if Count(r, TierOneWith(key, key(c))) >= 2 then r
      else r + [c]
  }

  /** A cap keeps a sub-multiset of its input, at most two tier-1 candidates per
      key, every other candidate in order, and the first candidate. */
  lemma CapFacts(s: seq<ScoredCandidate>, key: ScoredCandidate -> string)
    ensures multiset(Cap(s, key)) <= multiset(s)
    ensures forall k :: Count(Cap(s, key), TierOneWith(key, k)) <= 2
    ensures Filter(Cap(s, key), NotTierOne) == Filter(s, NotTierOne)
    ensures s != [] ==> Cap(s, key) != [] && Cap(s, key)[0] == s[0]
  {
    CapSubMultiset(s, key);
    CapAtMostTwo(s, key);
    CapKeepsOthers(s, key);
    CapKeepsHead(s, key);
  }

  lemma {:induction false} CapSubMultiset(s: seq<ScoredCandidate>, key: ScoredCandidate -> string)
    ensures multiset(Cap(s, key)) <= multiset(s)
    decreases |s|
  {
    if s != [] {
      var init := s[..|s| - 1];
      CapSubMultiset(init, key);
      assert s == init + [s[|s| - 1]];
    }
  }

  lemma {:induction false} CapAtMostTwo(s: seq<ScoredCandidate>, key: ScoredCandidate -> string)
    ensures forall k :: Count(Cap(s, key), TierOneWith(key, k)) <= 2
    decreases |s|
  {
    if s != [] {
      var init := s[..|s| - 1];
      var c := s[|s| - 1];
      var r := Cap(init, key);
      CapAtMostTwo(init, key);
      if Cap(s, key) == r + [c] {
        forall k
          ensures Count(r + [c], TierOneWith(key, k)) <= 2
        {
          CountSnoc(r, c, TierOneWith(key, k));
        }
      }
    }
  }

  lemma {:induction false} CapKeepsOthers(s: seq<ScoredCandidate>, key: ScoredCandidate -> string)
    ensures Filter(Cap(s, key), NotTierOne) == Filter(s, NotTierOne)
    decreases |s|
  {
    if s != [] {
      var init := s[..|s| - 1];
      var c := s[|s| - 1];
      var r := Cap(init, key);
      CapKeepsOthers(init, key);
      assert s == init + [c];
      FilterConcat(init, [c], NotTierOne);
      FilterSingleton(c, NotTierOne);
      if Cap(s, key) == r + [c] {
        FilterConcat(r, [c], NotTierOne);
      }
    }
  }

  lemma {:induction false} CapKeepsHead(s: seq<ScoredCandidate>, key: ScoredCandidate -> string)
    ensures s != [] ==> Cap(s, key) != [] && Cap(s, key)[0] == s[0]
    decreases |s|
  {
    if |s| == 1 {
      assert s[..0] == [];
      assert Count([], TierOneWith(key, key(s[0]))) == 0;
    } else if s != [] {
      var init := s[..|s| - 1];
      CapKeepsHead(init, key);
    }
  }

  /** Per key, a cap keeps exactly the first two tier-1 candidates: as many as
      the input has, up to two. */
  lemma {:induction false} CapCount(s: seq<ScoredCandidate>, key: ScoredCandidate -> string, k: string)
    ensures var n := Count(s, TierOneWith(key, k));
      Count(Cap(s, key), TierOneWith(key, k)) == if n < 2 then n else 2
    decreases |s|
  {
    if s != [] {
      var init := s[..|s| - 1];
      var c := s[|s| - 1];
      var r := Cap(init, key);
      CapCount(init, key, k);
      assert s == init + [c];
      CountSnoc(init, c, TierOneWith(key, k));
      CountSnoc(r, c, TierOneWith(key, k));
    }
  }

  /** A tier-1 candidate preceded by fewer than two tier-1 candidates with its key
      survives the cap. */
  lemma {:induction false} CapKeepsFirstTwo(s: seq<ScoredCandidate>, key: ScoredCandidate -> string)
    ensures forall i ::
      (0 <= i < |s| && s[i].entry.tier == 1 && Count(s[..i], TierOneWith(key, key(s[i]))) < 2) ==>
      s[i] in Cap(s, key)
    decreases |s|
  {
    if s != [] {
      var init := s[..|s| - 1];
      CapKeepsFirstTwo(init, key);
      forall i | 0 <= i < |s| && s[i].entry.tier == 1 && Count(s[..i], TierOneWith(key, key(s[i]))) < 2
        ensures s[i] in Cap(s, key)
      {
        if i < |init| {
          assert s[..i] == init[..i];
          assert init[i] == s[i];
        } else {
          assert s[..i] == init;
          CapCount(init, key, key(s[i]));
        }
      }
    }
  }

  /** A cap keeps its survivors in input order. */
  lemma {:induction false} CapSubsequence(s: seq<ScoredCandidate>, key: ScoredCandidate -> string)
    ensures Subsequence(Cap(s, key), s)
    decreases |s|
  {
    if s != [] {
      var init := s[..|s| - 1];
      CapSubsequence(init, key);
      assert s == init + [s[|s| - 1]];
      SubsequenceSnoc(Cap(init, key), init, s[|s| - 1]);
    }
  }

  /** A cap filter, with its counts of the kept tier-1 candidates per key. */
  method CapTierOne(s: seq<ScoredCandidate>, key: ScoredCandidate -> string) returns (r: seq<ScoredCandidate>)
    ensures r == Cap(s, key)
  {
    var counts: map<string, nat> := map[];
    r := [];
    for i := 0 to |s|
      invariant r == Cap(s[..i], key)
      invariant forall k :: (if k in counts then counts[k] else 0) == Count(r, TierOneWith(key, k))
    {
      var c := s[i];
      assert s[..i + 1][..i] == s[..i];
      forall k
        ensures Count(r + [c], TierOneWith(key, k)) == Count(r, TierOneWith(key, k)) + (if TierOneWith(key, k)(c) then 1 else 0)
      {
        CountSnoc(r, c, TierOneWith(key, k));
      }
      if c.entry.tier != 1 {
        r := r + [c];
        continue;
      }
      var k := key(c);
      var count := if k in counts then counts[k] else 0;
      if count >= 2 {
        continue;
      }
      counts := counts[k := count + 1];
      r := r + [c];
    }
    assert s[..|s|] == s;
  }

  /** Limit 1: the pitch-class-set key of the scale. */
  function ModeKey(lib: Library): ScoredCandidate -> string
  {
    (c: ScoredCandidate) => ScaleKey(lib, c)
  }

  /** Limit 2: the tonic. */
  function TonicKey(): ScoredCandidate -> string
  {
    (c: ScoredCandidate) => c.tonic
  }

  // ---------------------------------------------------------------------------
  // filterAndRank
  // ---------------------------------------------------------------------------

  /** `filterAndRank`, as a value. */
  function FilterRank(lib: Library, cs: seq<ScoredCandidate>): seq<ScoredCandidate>
  {
    var filtered := Combined(cs);
    if |filtered| == 0 then [] else Stages(lib, filtered)
  }

  /** The stages after the passes: deduplication, sort and the two caps. */
  function Stages(lib: Library, filtered: seq<ScoredCandidate>): seq<ScoredCandidate>
  {
    Cap(Cap(SortByRank(Dedup(filtered, EnharmonicKey(lib))), ModeKey(lib)), TonicKey())
  }

  /** The stages before the caps, in order. */
  function Sorted(lib: Library, cs: seq<ScoredCandidate>): seq<ScoredCandidate>
  {
    SortByRank(Dedup(Combined(cs), EnharmonicKey(lib)))
  }

  lemma SortedFacts(lib: Library, cs: seq<ScoredCandidate>)
    ensures multiset(Sorted(lib, cs)) <= multiset(cs)
    ensures forall k :: Count(Sorted(lib, cs), KeyIs(EnharmonicKey(lib), k)) <= 1
    ensures Combined(cs) != [] ==> Sorted(lib, cs) != []
  {
    var d := Dedup(Combined(cs), EnharmonicKey(lib));
    PassesDisjoint(cs);
    DedupFacts(Combined(cs), EnharmonicKey(lib));
    SortByRankPermutes(d);
    forall k
      ensures Count(Sorted(lib, cs), KeyIs(EnharmonicKey(lib), k)) <= 1
    {
      CountMonotone(Sorted(lib, cs), d, KeyIs(EnharmonicKey(lib), k));
    }
  }

  lemma CapsFacts(lib: Library, cs: seq<ScoredCandidate>)
    requires Combined(cs) != []
    ensures var r := FilterRank(lib, cs);
      && r == Cap(Cap(Sorted(lib, cs), ModeKey(lib)), TonicKey())
      && multiset(r) <= multiset(Sorted(lib, cs))
      && (forall k :: Count(r, TierOneWith(ModeKey(lib), k)) <= 2)
      && (forall k :: Count(r, TierOneWith(TonicKey(), k)) <= 2)
      && (Sorted(lib, cs) != [] ==> r != [])
  {
    var s := Sorted(lib, cs);
    var m := Cap(s, ModeKey(lib));
    CapFacts(s, ModeKey(lib));
    CapFacts(m, TonicKey());
    forall k
      ensures Count(Cap(m, TonicKey()), TierOneWith(ModeKey(lib), k)) <= 2
    {
      CountMonotone(Cap(m, TonicKey()), m, TierOneWith(ModeKey(lib), k));
    }
  }

  /** The ranking is a sub-multiset of its input (a permutation of a subset)
      in which every candidate has at least three quarters of the roots in its
      scale. */
  lemma FilterRankSubset(lib: Library, cs: seq<ScoredCandidate>)
    ensures multiset(FilterRank(lib, cs)) <= multiset(cs)
    ensures forall c :: c in FilterRank(lib, cs) ==> c in cs && c.rootCoverage >= 0.75
  {
    if Combined(cs) != [] {
      SortedFacts(lib, cs);
      CapsFacts(lib, cs);
      var r := FilterRank(lib, cs);
      CombinedRootCoverage(cs);
      forall c | c in r
        ensures c in Combined(cs)
      {
        assert c in multiset(r);
        assert c in multiset(Sorted(lib, cs));
        var d := Dedup(Combined(cs), EnharmonicKey(lib));
        SortByRankPermutes(d);
        DedupFacts(Combined(cs), EnharmonicKey(lib));
        assert c in multiset(d);
        assert c in multiset(Combined(cs));
      }
    }
  }

  /** No two ranked candidates are enharmonic duplicates: they differ in the chroma
      set of their scale or in the scale's name. */
  lemma FilterRankNoEnharmonicDuplicates(lib: Library, cs: seq<ScoredCandidate>)
    ensures var r := FilterRank(lib, cs);
      forall i, j :: 0 <= i < j < |r| ==> EnharmonicKey(lib)(r[i]) != EnharmonicKey(lib)(r[j])
  {
    var r := FilterRank(lib, cs);
    if Combined(cs) != [] {
      SortedFacts(lib, cs);
      CapsFacts(lib, cs);
      forall i, j | 0 <= i < j < |r|
        ensures EnharmonicKey(lib)(r[i]) != EnharmonicKey(lib)(r[j])
      {
        var k := EnharmonicKey(lib)(r[i]);
        CountMonotone(r, Sorted(lib, cs), KeyIs(EnharmonicKey(lib), k));
        if EnharmonicKey(lib)(r[j]) == k {
          CountTwo(r, KeyIs(EnharmonicKey(lib), k), i, j);
        }
      }
    }
  }

  /** At most two tier-1 candidates share a pitch-class-set key, and at most two a tonic. */
  lemma FilterRankCaps(lib: Library, cs: seq<ScoredCandidate>)
    ensures forall k :: Count(FilterRank(lib, cs), TierOneWith(ModeKey(lib), k)) <= 2
    ensures forall k :: Count(FilterRank(lib, cs), TierOneWith(TonicKey(), k)) <= 2
  {
    if Combined(cs) != [] {
      CapsFacts(lib, cs);
    }
  }

  /** The ranking is empty exactly when both passes are. */
  lemma FilterRankEmpty(lib: Library, cs: seq<ScoredCandidate>)
    ensures FilterRank(lib, cs) == [] <==> StrictPass(cs) == [] && RelaxedPass(cs) == []
  {
    PassesDisjoint(cs);
    if Combined(cs) != [] {
      SortedFacts(lib, cs);
      CapsFacts(lib, cs);
    }
  }

  /** The stages of `filterAndRank` after the passes. */
  method RankFiltered(lib: Library, filtered: seq<ScoredCandidate>) returns (ranked: seq<ScoredCandidate>)
    ensures ranked == Stages(lib, filtered)
  {
    var deduped := DedupEnharmonic(lib, filtered);
    var a := new ScoredCandidate[|deduped|](i requires 0 <= i < |deduped| => deduped[i]);
    assert a[..] == deduped;
    SortInPlace(a);
    var sorted := a[..];
    var capped := CapTierOne(sorted, ModeKey(lib));
    ranked := CapTierOne(capped, TonicKey());
  }

  /** `filterAndRank`: the two passes, then the deduplication, the in-place sort
      and the two caps, each a filter with mutable bookkeeping. */
  method FilterAndRank(lib: Library, candidates: seq<ScoredCandidate>) returns (ranked: seq<ScoredCandidate>)
    ensures ranked == FilterRank(lib, candidates)
  {
    var strict := Filter(candidates, PassesStrict);
    var strictKeys := StrictKeys(strict);
    var relaxed := Filter(candidates, PassesRelaxed(strictKeys));
    var filtered := if |strict| > 0 then strict + relaxed else relaxed;
    assert filtered == Combined(candidates);
    if |filtered| == 0 {
      return [];
    }
    ranked := RankFiltered(lib, filtered);
  }
}
