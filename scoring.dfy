/** Candidate scoring (`scoreCandidates`, `getDominantBonus`): every resolvable
    catalogue scale on every candidate tonic, with three coverage ratios and a
    weighted composite score. */
module Scoring {
  import opened Wrappers
  import opened Seqs
  import opened Tonal
  import opened Parsing
  import opened PitchClasses
  import opened Whitelist
  import TonicDetection

  datatype ScoredCandidate = ScoredCandidate(
    entry: WhitelistEntry,
    tonic: string,
    coverage: real,        // input chromas in the scale / input chromas
    scaleRelevance: real,  // scale chromas the input uses / scale chromas
    rootCoverage: real,    // root chromas in the scale / root chromas
    isFirstChordTonic: bool,
    score: real)

  // ---------------------------------------------------------------------------
  // Dominant bonus
  // ---------------------------------------------------------------------------

  /** `getDominantBonus`: 0.02 for a Mixolydian candidate whose tonic names a chord
      (the first one so named) that is valid and holds the minor seventh above
      its root. */
  function DominantBonus(lib: Library, chords: seq<ParsedChord>, entry: WhitelistEntry, tonic: string): (r: real)
    ensures r == 0.0 || r == 0.02
    ensures r == 0.02 ==> entry.scaleType == Mixolydian.scaleType
  {
    if entry.scaleType != Mixolydian.scaleType then 0.0
    else match Find(chords, TonicDetection.RootIs(tonic))
      case None => 0.0
      case Some(chord) =>
        if !chord.valid then 0.0
        else match lib.chroma(chord.tonic)
          case None => 0.0
          case Some(rc) => if (rc + 10) % 12 in ChromaSet(lib, chord.notes) then 0.02 else 0.0
  }

  /** The bonus is paid exactly when the chord named by the tonic spells a note ten
      semitones above its root. */
  lemma DominantBonusHallmark(lib: Library, chords: seq<ParsedChord>, entry: WhitelistEntry, tonic: string)
    ensures DominantBonus(lib, chords, entry, tonic) == 0.02 <==>
      && entry.scaleType == Mixolydian.scaleType
      && Find(chords, TonicDetection.RootIs(tonic)).Some?
      && var chord := Find(chords, TonicDetection.RootIs(tonic)).value;
         && chord.valid
         && lib.chroma(chord.tonic).Some?
         && exists n :: n in chord.notes && lib.chroma(n) == Some((lib.chroma(chord.tonic).value + 10) % 12)
  {
  }

  // ---------------------------------------------------------------------------
  // Ratios and sets
  // ---------------------------------------------------------------------------

  /** The quotient of `n` by `d` when `d` is positive, else 0. */
  function Ratio(n: nat, d: nat): (r: real)
    ensures d == 0 ==> r == 0.0
    ensures n <= d ==> 0.0 <= r <= 1.0
    ensures d > 0 ==> (r == 1.0 <==> n == d)
  {
    if d > 0 then
      assert n as real / d as real * d as real == n as real;
      n as real / d as real
    else 0.0
  }

  /** A subset is no larger, and a proper subset is smaller. */
  lemma {:induction false} SubsetCardinality(a: set<PitchClass>, b: set<PitchClass>)
    requires a <= b
    ensures |a| <= |b|
    ensures a != b ==> |a| < |b|
    decreases |a|
  {
    if a != {} {
      var x :| x in a;
      assert a - {x} <= b - {x};
      assert a != b ==> a - {x} != b - {x} by {
        if a != b {
          var y :| y in b && y !in a;
          assert y in b - {x};
        }
      }
      SubsetCardinality(a - {x}, b - {x});
    } else if a != b {
      var y :| y in b;
      assert |b| >= |{y}|;
    }
  }

  /** The counted share of `a` that lies in `b` is whole exactly when `a` is a
      non-empty subset of `b`. */
  lemma FullShare(a: set<PitchClass>, b: set<PitchClass>)
    ensures |a * b| <= |a|
    ensures Ratio(|a * b|, |a|) == 1.0 <==> a != {} && a <= b
  {
    SubsetCardinality(a * b, a);
  }

  /** The chromas of the valid chords' roots (`rootChromas`, as a value). */
  function RootChromas(lib: Library, chords: seq<ParsedChord>): set<PitchClass>
  {
    set c | c in chords && c.valid && lib.chroma(c.tonic).Some? :: lib.chroma(c.tonic).value
  }

  /** The `rootChromas` loop. */
  method CollectRootChromas(lib: Library, chords: seq<ParsedChord>) returns (s: set<PitchClass>)
    ensures s == RootChromas(lib, chords)
  {
    s := {};
    for i := 0 to |chords|
      invariant s == RootChromas(lib, chords[..i])
    {
      assert chords[..i + 1] == chords[..i] + [chords[i]];
      if chords[i].valid {
        var ch := lib.chroma(chords[i].tonic);
        if ch.Some? {
          s := s + {ch.value};
        }
      }
    }
    assert chords[..|chords|] == chords;
  }

  /** Moving one element `x` out of the unvisited part adds it to the count when it
      is in `b`. */
  lemma CommonStep(a: set<PitchClass>, rest: set<PitchClass>, b: set<PitchClass>, x: PitchClass)
    requires x in rest && rest <= a
    ensures |(a - (rest - {x})) * b| == |(a - rest) * b| + (if x in b then 1 else 0)
  {
    var before := (a - rest) * b;
    assert (a - (rest - {x})) * b == before + (if x in b then {x} else {});
    assert x !in before;
  }

  /** A counter loop over `a` that counts the members also in `b`. */
  method CountCommon(a: set<PitchClass>, b: set<PitchClass>) returns (n: nat)
    ensures n == |a * b|
  {
    n := 0;
    var rest := a;
    while rest != {}
      invariant rest <= a
      invariant n == |(a - rest) * b|
      decreases |rest|
    {
      var x :| x in rest;
      CommonStep(a, rest, b, x);
      if x in b {
        n := n + 1;
      }
      rest := rest - {x};
    }
    assert a - rest == a;
  }

  // ---------------------------------------------------------------------------
  // One candidate
  // ---------------------------------------------------------------------------

  /** The two base scales get a small preference. */
  function BaseScaleBonus(entry: WhitelistEntry): real
  {
    if entry.scaleType == Ionian.scaleType || entry.scaleType == Aeolian.scaleType then 0.01 else 0.0
  }

  /** The modal bonus recorded for the entry's scale type, 0 when there is none. */
  function ModalBonus(bonuses: map<string, real>, entry: WhitelistEntry): real
  {
    if entry.scaleType in bonuses then bonuses[entry.scaleType] else 0.0
  }

  /** The composite: 0.4 coverage + 0.3 relevance + 0.3 root coverage, 0.05 for the
      first tonic, then the base-scale, dominant and modal bonuses. */
  predicate ScoredByComposite(lib: Library, chords: seq<ParsedChord>, bonuses: map<string, real>, c: ScoredCandidate)
  {
    c.score ==
      c.coverage * 0.4 + c.scaleRelevance * 0.3 + c.rootCoverage * 0.3 +
      (if c.isFirstChordTonic then 0.05 else 0.0) +
      BaseScaleBonus(c.entry) +
      DominantBonus(lib, chords, c.entry, c.tonic) +
      ModalBonus(bonuses, c.entry)
  }

  /** The three ratios lie in [0, 1]. */
  predicate RatiosInRange(c: ScoredCandidate)
  {
    && 0.0 <= c.coverage <= 1.0
    && 0.0 <= c.scaleRelevance <= 1.0
    && 0.0 <= c.rootCoverage <= 1.0
  }

  /** The first tonic of the candidate list, or the empty string when there is none. */
  function FirstTonic(tonics: seq<string>): string
  {
    if |tonics| > 0 then tonics[0] else ""
  }

  /** The candidate for one tonic and one catalogue entry; none when the scale
      lookup fails. */
  function Candidate(lib: Library, chords: seq<ParsedChord>, allNotes: seq<string>, firstTonic: string,
                     bonuses: map<string, real>, tonic: string, entry: WhitelistEntry): (r: Option<ScoredCandidate>)
    ensures r.Some? <==> lib.scaleGet(tonic, entry.tonalName).Some?
    ensures r.Some? ==> r.value.entry == entry && r.value.tonic == tonic
    ensures r.Some? ==> r.value.isFirstChordTonic == (tonic == firstTonic)
    ensures r.Some? ==> ScoredByComposite(lib, chords, bonuses, r.value)
  {
    match lib.scaleGet(tonic, entry.tonalName)
    case None => None
    case Some(notes) =>
      var input := ChromaSet(lib, allNotes);
      var scale := ChromaSet(lib, notes);
      var roots := RootChromas(lib, chords);
      var coverage := Ratio(|input * scale|, |input|);
      var relevance := Ratio(|scale * input|, |scale|);
      var rootCoverage := Ratio(|roots * scale|, |roots|);
      var first := tonic == firstTonic;
      var score := coverage * 0.4 + relevance * 0.3 + rootCoverage * 0.3 +
        (if first then 0.05 else 0.0) + BaseScaleBonus(entry) +
        DominantBonus(lib, chords, entry, tonic) + ModalBonus(bonuses, entry);
      Some(ScoredCandidate(entry, tonic, coverage, relevance, rootCoverage, first, score))
  }

  /** What the ratios mean: each is 1 exactly when its (non-empty) set lies wholly
      inside the other, and 0 when its set is empty. */
  lemma CandidateRatios(lib: Library, chords: seq<ParsedChord>, allNotes: seq<string>, firstTonic: string,
                        bonuses: map<string, real>, tonic: string, entry: WhitelistEntry)
    requires lib.scaleGet(tonic, entry.tonalName).Some?
    ensures var c := Candidate(lib, chords, allNotes, firstTonic, bonuses, tonic, entry).value;
      var input := ChromaSet(lib, allNotes);
      var scale := ChromaSet(lib, lib.scaleGet(tonic, entry.tonalName).value);
      var roots := RootChromas(lib, chords);
      && RatiosInRange(c)
      && (c.coverage == 1.0 <==> input != {} && input <= scale)
      && (c.scaleRelevance == 1.0 <==> scale != {} && scale <= input)
      && (c.rootCoverage == 1.0 <==> roots != {} && roots <= scale)
      && (input == {} ==> c.coverage == 0.0)
      && (scale == {} ==> c.scaleRelevance == 0.0)
      && (roots == {} ==> c.rootCoverage == 0.0)
  {
    var input := ChromaSet(lib, allNotes);
    var scale := ChromaSet(lib, lib.scaleGet(tonic, entry.tonalName).value);
    var roots := RootChromas(lib, chords);
    assert scale * input == input * scale;
    FullShare(input, scale);
    FullShare(scale, input);
    FullShare(roots, scale);
  }

  // ---------------------------------------------------------------------------
  // All candidates
  // ---------------------------------------------------------------------------

  /** The candidates for one tonic over `entries`, in catalogue order. */
  function CandidatesFor(lib: Library, chords: seq<ParsedChord>, allNotes: seq<string>, firstTonic: string,
                         bonuses: map<string, real>, tonic: string, entries: seq<WhitelistEntry>): seq<ScoredCandidate>
    decreases |entries|
  {
    if entries == [] then []
    else
      var r := CandidatesFor(lib, chords, allNotes, firstTonic, bonuses, tonic, entries[..|entries| - 1]);
      match Candidate(lib, chords, allNotes, firstTonic, bonuses, tonic, entries[|entries| - 1])
      case None => r
      case Some(c) => r + [c]
  }

  /** The candidates for each tonic in turn. */
  function ScoreAll(lib: Library, chords: seq<ParsedChord>, allNotes: seq<string>, firstTonic: string,
                    bonuses: map<string, real>, tonics: seq<string>): seq<ScoredCandidate>
    decreases |tonics|
  {
    if tonics == [] then []
    else ScoreAll(lib, chords, allNotes, firstTonic, bonuses, tonics[..|tonics| - 1]) +
         CandidatesFor(lib, chords, allNotes, firstTonic, bonuses, tonics[|tonics| - 1], WHITELIST)
  }

  /** `scoreCandidates`, as a value. */
  function ScoredCandidates(lib: Library, chords: seq<ParsedChord>, allNotes: seq<string>,
                            tonics: seq<string>, bonuses: map<string, real>): seq<ScoredCandidate>
  {
    ScoreAll(lib, chords, allNotes, FirstTonic(tonics), bonuses, tonics)
  }

  /** The catalogue entries of a candidate list, in order. */
  function EntriesOf(cs: seq<ScoredCandidate>): (es: seq<WhitelistEntry>)
    ensures |es| == |cs| && forall i :: 0 <= i < |cs| ==> es[i] == cs[i].entry
  {
    if cs == [] then [] else EntriesOf(cs[..|cs| - 1]) + [cs[|cs| - 1].entry]
  }

  lemma EntriesOfConcat(a: seq<ScoredCandidate>, b: seq<ScoredCandidate>)
    ensures EntriesOf(a + b) == EntriesOf(a) + EntriesOf(b)
  {
  }

  /** The catalogue entries whose scale resolves on `tonic`. */
  function Resolves(lib: Library, tonic: string): WhitelistEntry -> bool
  {
    (e: WhitelistEntry) => lib.scaleGet(tonic, e.tonalName).Some?
  }

  /** One candidate per resolvable entry, in catalogue order. */
  lemma {:induction false} CandidatesForEntries(lib: Library, chords: seq<ParsedChord>, allNotes: seq<string>,
                                                firstTonic: string, bonuses: map<string, real>, tonic: string,
                                                entries: seq<WhitelistEntry>)
    ensures EntriesOf(CandidatesFor(lib, chords, allNotes, firstTonic, bonuses, tonic, entries)) ==
            Filter(entries, Resolves(lib, tonic))
    decreases |entries|
  {
    if entries != [] {
      var init := entries[..|entries| - 1];
      var last := entries[|entries| - 1];
      CandidatesForEntries(lib, chords, allNotes, firstTonic, bonuses, tonic, init);
      assert entries == init + [last];
      FilterConcat(init, [last], Resolves(lib, tonic));
      assert Filter([last], Resolves(lib, tonic)) == if Resolves(lib, tonic)(last) then [last] else [] by {
        assert [last][1..] == [];
      }
      var r := CandidatesFor(lib, chords, allNotes, firstTonic, bonuses, tonic, init);
      match Candidate(lib, chords, allNotes, firstTonic, bonuses, tonic, last)
      case None =>
      case Some(c) =>
        EntriesOfConcat(r, [c]);
    }
  }

  /** What every candidate of `CandidatesFor` satisfies. */
  predicate WellScored(lib: Library, chords: seq<ParsedChord>, firstTonic: string, bonuses: map<string, real>,
                       tonic: string, c: ScoredCandidate)
  {
    && c.tonic == tonic
    && c.isFirstChordTonic == (tonic == firstTonic)
    && RatiosInRange(c)
    && ScoredByComposite(lib, chords, bonuses, c)
  }

  /** Every candidate for `tonic` is on `tonic`, has its ratios in range and its
      score given by the composite. */
  lemma {:induction false} CandidatesForFacts(lib: Library, chords: seq<ParsedChord>, allNotes: seq<string>,
                                              firstTonic: string, bonuses: map<string, real>, tonic: string,
                                              entries: seq<WhitelistEntry>)
    ensures forall c :: c in CandidatesFor(lib, chords, allNotes, firstTonic, bonuses, tonic, entries) ==>
      WellScored(lib, chords, firstTonic, bonuses, tonic, c)
    decreases |entries|
  {
    if entries != [] {
      var init := entries[..|entries| - 1];
      var last := entries[|entries| - 1];
      CandidatesForFacts(lib, chords, allNotes, firstTonic, bonuses, tonic, init);
      if lib.scaleGet(tonic, last.tonalName).Some? {
        CandidateRatios(lib, chords, allNotes, firstTonic, bonuses, tonic, last);
      }
    }
  }

  /** A candidate list whose entries are a filtered `entries` draws every entry from `entries`. */
  lemma EntriesDrawnFrom(r: seq<ScoredCandidate>, entries: seq<WhitelistEntry>, p: WhitelistEntry -> bool)
    requires EntriesOf(r) == Filter(entries, p)
    ensures forall c :: c in r ==> c.entry in entries
  {
    forall c | c in r
      ensures c.entry in entries
    {
      var i :| 0 <= i < |r| && r[i] == c;
      assert EntriesOf(r)[i] == c.entry;
    }
  }

  /** On a single tonic, scoring is the candidate list of that tonic. */
  lemma OneTonic(lib: Library, chords: seq<ParsedChord>, allNotes: seq<string>,
                 tonic: string, bonuses: map<string, real>)
    ensures ScoredCandidates(lib, chords, allNotes, [tonic], bonuses) ==
            CandidatesFor(lib, chords, allNotes, tonic, bonuses, tonic, WHITELIST)
  {
    assert FirstTonic([tonic]) == tonic;
    assert [tonic][..0] == [];
    assert ScoreAll(lib, chords, allNotes, tonic, bonuses, []) == [];
  }

  /** With the single tonic the analysis passes, the candidates are exactly the
      resolvable catalogue entries on that tonic, in catalogue order, each marked
      as the first chord's tonic. */
  lemma ScoredCandidatesForOneTonic(lib: Library, chords: seq<ParsedChord>, allNotes: seq<string>,
                                    tonic: string, bonuses: map<string, real>)
    ensures var r := ScoredCandidates(lib, chords, allNotes, [tonic], bonuses);
      && EntriesOf(r) == Filter(WHITELIST, Resolves(lib, tonic))
      && |r| <= |WHITELIST|
      && forall c :: c in r ==> (c.isFirstChordTonic && c.entry in WHITELIST &&
           WellScored(lib, chords, tonic, bonuses, tonic, c))
  {
    var r := CandidatesFor(lib, chords, allNotes, tonic, bonuses, tonic, WHITELIST);
    OneTonic(lib, chords, allNotes, tonic, bonuses);
    CandidatesForEntries(lib, chords, allNotes, tonic, bonuses, tonic, WHITELIST);
    CandidatesForFacts(lib, chords, allNotes, tonic, bonuses, tonic, WHITELIST);
    EntriesDrawnFrom(r, WHITELIST, Resolves(lib, tonic));
  }

  /** Every candidate, on any list of tonics, has one of the listed tonics, its
      ratios in range and its score given by the composite. */
  lemma {:induction false} ScoreAllShape(lib: Library, chords: seq<ParsedChord>, allNotes: seq<string>,
                                         firstTonic: string, bonuses: map<string, real>, tonics: seq<string>)
    ensures forall c :: c in ScoreAll(lib, chords, allNotes, firstTonic, bonuses, tonics) ==>
      (c.tonic in tonics && WellScored(lib, chords, firstTonic, bonuses, c.tonic, c))
    decreases |tonics|
  {
    if tonics != [] {
      var init := tonics[..|tonics| - 1];
      ScoreAllShape(lib, chords, allNotes, firstTonic, bonuses, init);
      CandidatesForFacts(lib, chords, allNotes, firstTonic, bonuses, tonics[|tonics| - 1], WHITELIST);
      assert forall t :: t in init ==> t in tonics;
    }
  }

  // ---------------------------------------------------------------------------
  // The scoring loops
  // ---------------------------------------------------------------------------

  /** The body of the inner loop: one entry on one tonic. */
  method ScoreEntry(lib: Library, chords: seq<ParsedChord>, allNotes: seq<string>, firstTonic: string,
                    bonuses: map<string, real>, inputChromas: set<PitchClass>, rootChromas: set<PitchClass>,
                    tonic: string, entry: WhitelistEntry) returns (r: Option<ScoredCandidate>)
    requires inputChromas == ChromaSet(lib, allNotes)
    requires rootChromas == RootChromas(lib, chords)
    ensures r == Candidate(lib, chords, allNotes, firstTonic, bonuses, tonic, entry)
  {
    var scaleData := lib.scaleGet(tonic, entry.tonalName);
    if scaleData.None? {
      return None;
    }
    var scaleChromas := NoteSetToChromaSet(lib, scaleData.value);

    var coveredCount := CountCommon(inputChromas, scaleChromas);
    var coverage := Ratio(coveredCount, |inputChromas|);

    var scaleUsedCount := CountCommon(scaleChromas, inputChromas);
    var scaleRelevance := Ratio(scaleUsedCount, |scaleChromas|);

    var rootCoveredCount := CountCommon(rootChromas, scaleChromas);
    var rootCoverage := Ratio(rootCoveredCount, |rootChromas|);

    var isFirstChordTonic := tonic == firstTonic;

    var score := coverage * 0.4 + scaleRelevance * 0.3 + rootCoverage * 0.3;
    if isFirstChordTonic {
      score := score + 0.05;
    }
    score := score + BaseScaleBonus(entry);
    score := score + DominantBonus(lib, chords, entry, tonic);
    score := score + ModalBonus(bonuses, entry);

    r := Some(ScoredCandidate(entry, tonic, coverage, scaleRelevance, rootCoverage, isFirstChordTonic, score));
  }

  /** The inner loop: every catalogue entry on one tonic, in order. */
  method ScoreTonic(lib: Library, chords: seq<ParsedChord>, allNotes: seq<string>, firstTonic: string,
                    bonuses: map<string, real>, inputChromas: set<PitchClass>, rootChromas: set<PitchClass>,
                    tonic: string) returns (results: seq<ScoredCandidate>)
    requires inputChromas == ChromaSet(lib, allNotes)
    requires rootChromas == RootChromas(lib, chords)
    ensures results == CandidatesFor(lib, chords, allNotes, firstTonic, bonuses, tonic, WHITELIST)
  {
    results := [];
    for e := 0 to |WHITELIST|
      invariant results == CandidatesFor(lib, chords, allNotes, firstTonic, bonuses, tonic, WHITELIST[..e])
    {
      assert WHITELIST[..e + 1][..e] == WHITELIST[..e];
      var c := ScoreEntry(lib, chords, allNotes, firstTonic, bonuses, inputChromas, rootChromas, tonic, WHITELIST[e]);
      if c.Some? {
        results := results + [c.value];
      }
    }
    assert WHITELIST[..|WHITELIST|] == WHITELIST;
  }

  /** `scoreCandidates`: for each tonic, for each catalogue entry in order, push
      the scored candidate when the scale resolves. */
  method ScoreCandidates(lib: Library, chords: seq<ParsedChord>, allNotes: seq<string>,
                         candidateTonics: seq<string>, modalBonuses: map<string, real>)
    returns (results: seq<ScoredCandidate>)
    ensures results == ScoredCandidates(lib, chords, allNotes, candidateTonics, modalBonuses)
  {
    var inputChromas := NoteSetToChromaSet(lib, allNotes);
    var rootChromas := CollectRootChromas(lib, chords);
    var firstTonic := if |candidateTonics| > 0 then candidateTonics[0] else "";
    results := [];
    for t := 0 to |candidateTonics|
      invariant results == ScoreAll(lib, chords, allNotes, firstTonic, modalBonuses, candidateTonics[..t])
    {
      assert candidateTonics[..t + 1][..t] == candidateTonics[..t];
      var forTonic := ScoreTonic(lib, chords, allNotes, firstTonic, modalBonuses, inputChromas, rootChromas,
                                 candidateTonics[t]);
      results := results + forTonic;
    }
    assert candidateTonics[..|candidateTonics|] == candidateTonics;
  }
}
