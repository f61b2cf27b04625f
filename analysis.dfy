/** The public entry point (`analyzeProgression`): parse, pick one tonic, score the
    catalogue on it, rank, post-process, and keep the best three. */
module Analysis {
  import opened Wrappers
  import opened Seqs
  import opened Tonal
  import opened Whitelist
  import opened Parsing
  import opened TonicDetection
  import opened Blues
  import Modal
  import opened Scoring
  import opened Ranking
  import opened PostProcess

  /** One recommendation as the interface shows it. */
  datatype Recommendation = Recommendation(displayName: string, scaleType: string, tonic: string, coverage: real)

  // ---------------------------------------------------------------------------
  // The score-gap cutoff
  // ---------------------------------------------------------------------------

  /** Scored no more than 0.10 below the top score. */
  function WithinGap(topScore: real): ScoredCandidate -> bool
  {
    (c: ScoredCandidate) => topScore - c.score <= 0.10
  }

  /** The cutoff of the non-blues path: with more than one result, the first is kept
      and every later one must lie within 0.10 of its score. */
  function GapCut(ranked: seq<ScoredCandidate>): seq<ScoredCandidate>
  {
    if |ranked| > 1 then [ranked[0]] + Filter(ranked[1..], WithinGap(ranked[0].score)) else ranked
  }

  /** The cutoff keeps the first result, keeps exactly the later results within the
      gap, and adds nothing. */
  lemma GapCutFacts(ranked: seq<ScoredCandidate>)
    ensures var r := GapCut(ranked);
      && |r| <= |ranked|
      && (ranked != [] ==> r != [] && r[0] == ranked[0])
      && (forall c :: c in r ==> c in ranked)
      && (forall i :: 1 <= i < |r| ==> ranked[0].score - r[i].score <= 0.10)
      && (forall i :: 1 <= i < |ranked| && ranked[0].score - ranked[i].score <= 0.10 ==> ranked[i] in r)
  {
    if |ranked| > 1 {
      var tail := Filter(ranked[1..], WithinGap(ranked[0].score));
      var r := [ranked[0]] + tail;
      forall i | 1 <= i < |r|
        ensures ranked[0].score - r[i].score <= 0.10
      {
        assert r[i] == tail[i - 1];
        assert r[i] in tail;
      }
      forall i | 1 <= i < |ranked| && ranked[0].score - ranked[i].score <= 0.10
        ensures ranked[i] in r
      {
        assert ranked[i] == ranked[1..][i - 1];
        assert ranked[i] in tail;
      }
    }
  }

  // ---------------------------------------------------------------------------
  // The analysis as a value
  // ---------------------------------------------------------------------------

  /** The harmonic tonic when the harmonic rules find one, else the positional
      fallback; the analysis stops when neither yields a non-empty name. */
  function ChooseTonic(lib: Library, valid: seq<ParsedChord>): Option<string>
  {
    var harmonic := HarmonicTonic(lib, valid);
    var primary := if harmonic.Some? && harmonic.value != "" then harmonic else PrimaryTonic(valid);
    if primary.Some? && primary.value != "" then primary else None
  }

  /** The ranked candidates after the blues overrides or after the gap cutoff and
      the pentatonic companion. */
  function PostProcessed(lib: Library, valid: seq<ParsedChord>, tonic: string): seq<ScoredCandidate>
  {
    var all := ScoredCandidates(lib, valid, MergeNotes(valid), [tonic], Modal.ModalBonuses(lib, valid, tonic));
    Finish(FilterRank(lib, all), all, tonic, IsBlues(lib, valid))
  }

  /** The blues overrides, or the gap cutoff followed by the companion. */
  function Finish(ranked: seq<ScoredCandidate>, all: seq<ScoredCandidate>, tonic: string, blues: bool): seq<ScoredCandidate>
  {
    if blues then BluesOverrides(ranked, all, tonic)
    else InjectCompanion(GapCut(ranked), all)
  }

  /** The tonic and the display suffix, joined by one space, then the scale type,
      the tonic and the coverage. */
  function Recommend(c: ScoredCandidate): Recommendation
  {
    Recommendation(c.tonic + " " + c.entry.displaySuffix, c.entry.scaleType, c.tonic, c.coverage)
  }

  function Recommendations(cs: seq<ScoredCandidate>): seq<Recommendation>
  {
    seq(|cs|, i requires 0 <= i < |cs| => Recommend(cs[i]))
  }

  /** `analyzeProgression`: `None` stands for the `null` result. */
  function Analysis(lib: Library, input: string): Option<seq<Recommendation>>
  {
    var valid := ValidChords(ParseChords(lib, input));
    if valid == [] then None
    else
      match ChooseTonic(lib, valid)
      case None => None
      case Some(tonic) =>
        var top := Take(PostProcessed(lib, valid, tonic), 3);
        if top == [] then None else Some(Recommendations(top))
  }

  // ---------------------------------------------------------------------------
  // Where the recommendations come from
  // ---------------------------------------------------------------------------

  /** The companion path adds only the companion, which comes from the pool. */
  lemma InjectCompanionFrom(ranked: seq<ScoredCandidate>, all: seq<ScoredCandidate>)
    ensures forall c :: c in InjectCompanion(ranked, all) ==> c in ranked || c in all
  {
    var top := Find(ranked, IsTierOne);
    if top.Some? {
      var companion := FindViableCompanion(all, top.value.tonic, PentatonicFor(top.value.entry.family));
      if companion.Some? {
        InsertAfterMembers(Filter(ranked, OtherName(NameKey(companion.value))), top.value, companion.value);
      }
    }
  }

  /** The blues path takes its prioritised entries from the pool and the rest from the
      ranking. */
  lemma BluesOverridesFrom(ranked: seq<ScoredCandidate>, all: seq<ScoredCandidate>, tonic: string)
    ensures forall c :: c in BluesOverrides(ranked, all, tonic) ==> c in ranked || c in all
  {
    forall c | c in Prioritized(all, tonic)
      ensures c in all
    {
    }
  }

  /** Every post-processed candidate is one of the scored candidates on the tonic. */
  lemma PostProcessedFrom(lib: Library, valid: seq<ParsedChord>, tonic: string)
    ensures var all := ScoredCandidates(lib, valid, MergeNotes(valid), [tonic], Modal.ModalBonuses(lib, valid, tonic));
      forall c :: c in PostProcessed(lib, valid, tonic) ==> c in all
  {
    var all := ScoredCandidates(lib, valid, MergeNotes(valid), [tonic], Modal.ModalBonuses(lib, valid, tonic));
    var ranked := FilterRank(lib, all);
    FilterRankSubset(lib, all);
    if IsBlues(lib, valid) {
      BluesOverridesFrom(ranked, all, tonic);
    } else {
      GapCutFacts(ranked);
      InjectCompanionFrom(GapCut(ranked), all);
    }
  }

  // ---------------------------------------------------------------------------
  // Properties of the analysis
  // ---------------------------------------------------------------------------

  /** `null` exactly for no valid chord, no usable tonic, or nothing left after
      post-processing. */
  lemma AnalysisNull(lib: Library, input: string)
    ensures var valid := ValidChords(ParseChords(lib, input));
      Analysis(lib, input).None? <==>
        valid == [] || ChooseTonic(lib, valid).None? || PostProcessed(lib, valid, ChooseTonic(lib, valid).value) == []
  {
  }

  /** Otherwise one to three recommendations, all on the chosen tonic, each a
      catalogue scale named after the tonic and its display suffix, with a coverage
      between 0 and 1. */
  lemma AnalysisShape(lib: Library, input: string)
    requires Analysis(lib, input).Some?
    ensures var valid := ValidChords(ParseChords(lib, input));
      var r := Analysis(lib, input).value;
      && valid != [] && ChooseTonic(lib, valid).Some?
      && 1 <= |r| <= 3
      && forall i :: 0 <= i < |r| ==> Presentable(r[i], ChooseTonic(lib, valid).value)
  {
    var valid := ValidChords(ParseChords(lib, input));
    var tonic := ChooseTonic(lib, valid).value;
    ChooseTonicFacts(lib, valid);
    var bonuses := Modal.ModalBonuses(lib, valid, tonic);
    PostProcessedFrom(lib, valid, tonic);
    ScoredCandidatesForOneTonic(lib, valid, MergeNotes(valid), tonic, bonuses);
    TopPresentable(PostProcessed(lib, valid, tonic),
                   ScoredCandidates(lib, valid, MergeNotes(valid), [tonic], bonuses), tonic);
  }

  /** A recommendation on `tonic` for a catalogue scale, displayed as the tonic and
      the scale's suffix, with a coverage between 0 and 1. */
  predicate Presentable(rec: Recommendation, tonic: string)
  {
    && rec.tonic == tonic
    && rec.tonic != ""
    && 0.0 <= rec.coverage <= 1.0
    && exists e :: e in WHITELIST && rec.scaleType == e.scaleType &&
         rec.displayName == rec.tonic + " " + e.displaySuffix
  }

  /** The first three of candidates drawn from a well-scored pool on `tonic` make
      presentable recommendations. */
  lemma TopPresentable(post: seq<ScoredCandidate>, all: seq<ScoredCandidate>, tonic: string)
    requires tonic != ""
    requires forall c :: c in post ==> c in all
    requires forall c :: c in all ==> c.tonic == tonic && c.entry in WHITELIST && RatiosInRange(c)
    ensures var r := Recommendations(Take(post, 3));
      |r| <= 3 && forall i :: 0 <= i < |r| ==> Presentable(r[i], tonic)
  {
    var top := Take(post, 3);
    var r := Recommendations(top);
    forall i | 0 <= i < |r|
      ensures Presentable(r[i], tonic)
    {
      assert top[i] == post[i];
      assert top[i] in all;
      assert r[i].scaleType == top[i].entry.scaleType;
    }
  }

  /** A blues progression never yields an Ionian, harmonic minor, melodic minor or
      major blues recommendation. */
  lemma BluesRecommendationsExclude(lib: Library, input: string)
    ensures var valid := ValidChords(ParseChords(lib, input));
      Analysis(lib, input).Some? && IsBlues(lib, valid) ==>
        forall i :: 0 <= i < |Analysis(lib, input).value| ==>
          Analysis(lib, input).value[i].scaleType !in BluesExcluded
  {
    var valid := ValidChords(ParseChords(lib, input));
    if Analysis(lib, input).Some? && IsBlues(lib, valid) {
      var tonic := ChooseTonic(lib, valid).value;
      var all := ScoredCandidates(lib, valid, MergeNotes(valid), [tonic], Modal.ModalBonuses(lib, valid, tonic));
      var post := PostProcessed(lib, valid, tonic);
      BluesOverridesExclude(FilterRank(lib, all), all, tonic);
      var top := Take(post, 3);
      forall i | 0 <= i < |top|
        ensures top[i].entry.scaleType !in BluesExcluded
      {
        assert top[i] == post[i];
      }
    }
  }

  /** The tonic: the harmonic rules' answer when it is a non-empty name, else the
      positional fallback's, which then settles on the first rooted chord's root. */
  lemma ChooseTonicFacts(lib: Library, valid: seq<ParsedChord>)
    ensures var harmonic := HarmonicTonic(lib, valid);
      && (harmonic.Some? && harmonic.value != "" ==> ChooseTonic(lib, valid) == harmonic)
      && (ChooseTonic(lib, valid).Some? ==> ChooseTonic(lib, valid).value != "")
      && (!(harmonic.Some? && harmonic.value != "") && RootedChords(valid) != [] ==>
            ChooseTonic(lib, valid) == Some(RootedChords(valid)[0].tonic))
  {
    if RootedChords(valid) != [] {
      PrimaryTonicIsFirstRoot(valid);
      assert RootedChords(valid)[0] in RootedChords(valid);
    }
  }

  // ---------------------------------------------------------------------------
  // The analysis, step by step
  // ---------------------------------------------------------------------------

  /** `analyzeProgression`, calling each stage in turn. */
  method AnalyzeProgression(lib: Library, input: string) returns (result: Option<seq<Recommendation>>)
    ensures result == Analysis(lib, input)
  {
    var chords := ParseChords(lib, input);
    var validChords := Filter(chords, IsValid);
    if |validChords| == 0 {
      return None;
    }

    var harmonicTonic := DetectTonicFromHarmony(lib, validChords);
    var primaryTonic := harmonicTonic;
    if harmonicTonic.None? || harmonicTonic.value == "" {
      primaryTonic := DetectPrimaryTonic(validChords);
    }
    if primaryTonic.None? || primaryTonic.value == "" {
      assert ChooseTonic(lib, validChords).None?;
      return None;
    }

    assert validChords == ValidChords(ParseChords(lib, input));
    assert ChooseTonic(lib, validChords) == primaryTonic;

    var ranked := RankOnTonic(lib, validChords, primaryTonic.value);
    var top := Take(ranked, 3);
    if |top| == 0 {
      return None;
    }
    result := Some(Recommendations(top));
  }

  /** The stages of `analyzeProgression` once the tonic is known: scoring, ranking
      and the blues or companion post-processing. */
  method RankOnTonic(lib: Library, validChords: seq<ParsedChord>, tonic: string) returns (ranked: seq<ScoredCandidate>)
    ensures ranked == PostProcessed(lib, validChords, tonic)
  {
    var allCandidates, rankedCandidates := ScoreAndRank(lib, validChords, tonic);
    var blues := IsBluesProgression(lib, validChords);
    ranked := ApplyPostProcessing(rankedCandidates, allCandidates, tonic, blues);
  }

  /** The blues branch, or the gap cutoff and the companion. */
  method ApplyPostProcessing(ranked: seq<ScoredCandidate>, allCandidates: seq<ScoredCandidate>, tonic: string, blues: bool)
    returns (r: seq<ScoredCandidate>)
    ensures r == Finish(ranked, allCandidates, tonic, blues)
  {
    r := ranked;
    if blues {
      r := BluesOverrides(r, allCandidates, tonic);
    } else {
      if |r| > 1 {
        var topScore := r[0].score;
        r := [r[0]] + Filter(r[1..], WithinGap(topScore));
      }
      r := InjectCompanion(r, allCandidates);
    }
  }

  /** The scoring and ranking stages on the chosen tonic. */
  method ScoreAndRank(lib: Library, validChords: seq<ParsedChord>, tonic: string)
    returns (allCandidates: seq<ScoredCandidate>, ranked: seq<ScoredCandidate>)
    ensures allCandidates == ScoredCandidates(lib, validChords, MergeNotes(validChords), [tonic],
                                              Modal.ModalBonuses(lib, validChords, tonic))
    ensures ranked == FilterRank(lib, allCandidates)
  {
    var allNotes := MergeNoteSet(validChords);
    var modalBonuses := Modal.GetModalBonuses(lib, validChords, tonic);
    allCandidates := ScoreCandidates(lib, validChords, allNotes, [tonic], modalBonuses);
    ranked := FilterAndRank(lib, allCandidates);
  }
}
