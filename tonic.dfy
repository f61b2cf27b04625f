/** Tonic inference: the harmonic rules (`detectTonicFromHarmony`) and the
    weighted positional fallback (`detectPrimaryTonic`). */
module TonicDetection {
  import opened Wrappers
  import opened Seqs
  import opened Tonal
  import opened Parsing

  const DominantSeventh := "dominant seventh"
  const MinorSeventh := "minor seventh"

  predicate IsDominantSeventh(c: ParsedChord)
  {
    c.chordType == DominantSeventh
  }

  /** Diminished by quality or by chord type. */
  predicate IsDiminishedChord(c: ParsedChord)
  {
    c.quality == Diminished || c.chordType == "diminished"
  }

  function Dominants(prog: seq<ParsedChord>): seq<ParsedChord>
  {
    Filter(prog, IsDominantSeventh)
  }

  // ---------------------------------------------------------------------------
  // Harmonic inference
  // ---------------------------------------------------------------------------

  /** The seven keys a chord rooted at `root` could be diatonic to, in the order
      they are added: the root itself, then up and down a major second, a major
      third and a perfect fourth. */
  function SevenKeys(lib: Library, root: string): seq<string>
  {
    [root,
     lib.transpose(root, MajorSecondUp), lib.transpose(root, MajorSecondDown),
     lib.transpose(root, MajorThirdUp), lib.transpose(root, MajorThirdDown),
     lib.transpose(root, FourthUp), lib.transpose(root, FourthDown)]
  }

  /** How far above a root, in semitones, each of its seven keys lies. */
  const KeyOffsets: seq<int> := [0, 2, 10, 4, 8, 5, 7]

  /** Under the transposition law, a root with a chroma yields seven keys that all
      have one, at 0, 2, 10, 4, 8, 5 and 7 semitones above the root. Heard from
      the key, the root is degree I, VII (flat), II, VI (flat), III, V or IV. */
  lemma SevenKeysChromas(lib: Library, root: string, c: PitchClass)
    requires TransposeLaw(lib)
    requires lib.chroma(root) == Some(c)
    ensures |SevenKeys(lib, root)| == |KeyOffsets|
    ensures forall j :: 0 <= j < |KeyOffsets| ==>
      lib.chroma(SevenKeys(lib, root)[j]) == Some((c + KeyOffsets[j]) % 12)
  {
    forall j | 0 <= j < |KeyOffsets|
      ensures lib.chroma(SevenKeys(lib, root)[j]) == Some((c + KeyOffsets[j]) % 12)
    {
      KeyChroma(lib, root, c, j);
    }
  }

  /** One key of `SevenKeys`: its chroma is its offset above the root. */
  lemma KeyChroma(lib: Library, root: string, c: PitchClass, j: int)
    requires TransposeLaw(lib)
    requires lib.chroma(root) == Some(c)
    requires 0 <= j < 7
    ensures lib.chroma(SevenKeys(lib, root)[j]) == Some((c + KeyOffsets[j]) % 12)
  {
    var ks := SevenKeys(lib, root);
    if j == 0 {
      assert ks[j] == root && KeyOffsets[j] == 0;
      PitchClassMod(c);
    } else {
      var i := if j == 1 then MajorSecondUp else if j == 2 then MajorSecondDown
        else if j == 3 then MajorThirdUp else if j == 4 then MajorThirdDown
        else if j == 5 then FourthUp else FourthDown;
      assert ks[j] == lib.transpose(root, i);
      assert Semitones(i) == KeyOffsets[j] || Semitones(i) + 12 == KeyOffsets[j];
      TransposeChroma(lib, root, i, c);
      DownIsUp(c, Semitones(i), KeyOffsets[j]);
    }
  }

  lemma PitchClassMod(c: PitchClass)
    ensures (c + 0) % 12 == c
  {
  }

  /** Shifting by `s` semitones, or by `s + 12`, reaches the same pitch class. */
  lemma DownIsUp(c: PitchClass, s: int, up: int)
    requires s == up || s + 12 == up
    ensures (c + s) % 12 == (c + up) % 12
  {
  }

  /** `potentialKeys`, an insertion-ordered set built chord by chord. */
  function CandidateKeys(lib: Library, prog: seq<ParsedChord>): (keys: seq<string>)
    ensures Distinct(keys)
    decreases |prog|
  {
    if prog == [] then []
    else InsertAll(CandidateKeys(lib, prog[..|prog| - 1]), SevenKeys(lib, prog[|prog| - 1].tonic))
  }

  /** Every chord's root, and every key its position could imply, is a candidate. */
  lemma {:induction false} CandidateKeysCover(lib: Library, prog: seq<ParsedChord>, i: nat)
    requires i < |prog|
    ensures forall k :: k in SevenKeys(lib, prog[i].tonic) ==> k in CandidateKeys(lib, prog)
    decreases |prog|
  {
    if i < |prog| - 1 {
      CandidateKeysCover(lib, prog[..|prog| - 1], i);
    }
  }

  /** Conversely, every candidate key is one of the seven keys of some chord's root. */
  lemma {:induction false} CandidateKeysFrom(lib: Library, prog: seq<ParsedChord>, k: string)
    requires k in CandidateKeys(lib, prog)
    ensures exists i :: 0 <= i < |prog| && k in SevenKeys(lib, prog[i].tonic)
    decreases |prog|
  {
    var init := prog[..|prog| - 1];
    var last := |prog| - 1;
    if k !in SevenKeys(lib, prog[last].tonic) {
      CandidateKeysFrom(lib, init, k);
      var i :| 0 <= i < |init| && k in SevenKeys(lib, init[i].tonic);
      assert init[i] == prog[i];
    }
  }

  /** The chord's root lies in the key's major scale (compared by spelled name). */
  predicate RootInKey(lib: Library, key: string, c: ParsedChord)
  {
    c.tonic in ScaleNotes(lib, key, "major")
  }

  function InKey(lib: Library, key: string): ParsedChord -> bool
  {
    (c: ParsedChord) => RootInKey(lib, key, c)
  }

  function FitCount(lib: Library, key: string, prog: seq<ParsedChord>): nat
  {
    Count(prog, InKey(lib, key))
  }

  /** A key's score: the number of roots it holds, plus 0.5 when it holds all of them. */
  function KeyScore(lib: Library, key: string, prog: seq<ParsedChord>): real
  {
    var n := FitCount(lib, key, prog);
    if n == |prog| then n as real + 0.5 else n as real
  }

  datatype Best = Best(key: Option<string>, score: real)

  /** The best-key scan: a later key replaces the best only with a strictly greater score. */
  function BestKey(lib: Library, keys: seq<string>, prog: seq<ParsedChord>): Best
    decreases |keys|
  {
    if keys == [] then Best(None, 0.0)
    else
      var b := BestKey(lib, keys[..|keys| - 1], prog);
      var last := keys[|keys| - 1];
      var score := KeyScore(lib, last, prog);
      if score > b.score then Best(Some(last), score) else b
  }

  /** The diatonic-fit search: the best key, when its score reaches the number of chords. */
  function DiatonicFit(lib: Library, prog: seq<ParsedChord>): Option<string>
  {
    var b := BestKey(lib, CandidateKeys(lib, prog), prog);
    if b.score >= |prog| as real then b.key else None
  }

  /** `detectTonicFromHarmony`: the first rule that applies decides. */
  function HarmonicTonic(lib: Library, chords: seq<ParsedChord>): Option<string>
  {
    var prog := RootedChords(chords);
    if prog == [] then None
    else
      var doms := Dominants(prog);
      if |doms| >= 2 then Some(doms[0].tonic)
      else match Find(prog, IsDiminishedChord)
        case Some(d) => Some(lib.transpose(d.tonic, MinorSecondUp))
        case None =>
          match Find(prog, IsDominantSeventh)
          case Some(d) => Some(lib.transpose(d.tonic, FifthDown))
          case None => DiatonicFit(lib, prog)
  }

  /** Every root of the progression lies in the key's major scale. */
  predicate FitsAll(lib: Library, key: string, prog: seq<ParsedChord>)
  {
    forall c :: c in prog ==> RootInKey(lib, key, c)
  }

  /** The first candidate key, in insertion order, that holds every root. */
  function FitsProgression(lib: Library, prog: seq<ParsedChord>): string -> bool
  {
    k => FitsAll(lib, k, prog)
  }

  function FirstFullFit(lib: Library, keys: seq<string>, prog: seq<ParsedChord>): Option<string>
  {
    Find(keys, FitsProgression(lib, prog))
  }

  lemma FitCountFull(lib: Library, key: string, prog: seq<ParsedChord>)
    ensures FitCount(lib, key, prog) == |prog| <==> FitsAll(lib, key, prog)
  {
    CountAll(prog, InKey(lib, key));
  }

  lemma {:induction false} BestKeyIsFirstFullFit(lib: Library, keys: seq<string>, prog: seq<ParsedChord>)
    requires prog != []
    ensures FirstFullFit(lib, keys, prog).Some? ==>
      BestKey(lib, keys, prog) == Best(FirstFullFit(lib, keys, prog), |prog| as real + 0.5)
    ensures FirstFullFit(lib, keys, prog).None? ==> BestKey(lib, keys, prog).score < |prog| as real
    decreases |keys|
  {
    if keys != [] {
      var init, last := keys[..|keys| - 1], keys[|keys| - 1];
      assert keys == init + [last];
      BestKeyIsFirstFullFit(lib, init, prog);
      FindSnoc(init, last, FitsProgression(lib, prog));
      FitCountFull(lib, last, prog);
    }
  }

  /** The diatonic search returns exactly the first candidate key whose major scale
      holds every root, and nothing when no candidate does: the 0.5 bonus makes a
      full fit beat every partial one, and ties among full fits go to the earliest. */
  lemma DiatonicFitIsFirstFullFit(lib: Library, prog: seq<ParsedChord>)
    requires prog != []
    ensures DiatonicFit(lib, prog) == FirstFullFit(lib, CandidateKeys(lib, prog), prog)
  {
    BestKeyIsFirstFullFit(lib, CandidateKeys(lib, prog), prog);
  }

  /** What a diatonic answer guarantees: a candidate key that holds every root,
      preceded by no candidate that does. */
  lemma DiatonicFitSound(lib: Library, prog: seq<ParsedChord>, key: string)
    requires prog != []
    requires DiatonicFit(lib, prog) == Some(key)
    ensures key in CandidateKeys(lib, prog)
    ensures forall c :: c in prog ==> c.tonic in ScaleNotes(lib, key, "major")
    ensures var keys := CandidateKeys(lib, prog);
      forall j :: 0 <= j < |keys| && keys[j] != key && FitsAll(lib, keys[j], prog) ==>
        key in keys[..j]
  {
    DiatonicFitIsFirstFullFit(lib, prog);
    var keys := CandidateKeys(lib, prog);
    FindPrecedes(keys, FitsProgression(lib, prog), key);
  }

  /** No key holds every root: the diatonic search has no answer. */
  lemma DiatonicFitNone(lib: Library, prog: seq<ParsedChord>)
    requires prog != []
    requires forall k :: k in CandidateKeys(lib, prog) ==> !FitsAll(lib, k, prog)
    ensures DiatonicFit(lib, prog) == None
  {
    DiatonicFitIsFirstFullFit(lib, prog);
  }

  /** No element satisfies `p` when its first index is past the end. */
  lemma NoneBeforeEnd(prog: seq<ParsedChord>, p: ParsedChord -> bool)
    requires FirstIndex(prog, p) == |prog|
    ensures Find(prog, p) == None
  {
    forall x | x in prog
      ensures !p(x)
    {
      var j :| 0 <= j < |prog| && prog[j] == x;
    }
  }

  /** An element of `prog` satisfying `p` puts its first index inside `prog`. */
  lemma WitnessBeforeEnd(prog: seq<ParsedChord>, p: ParsedChord -> bool, x: ParsedChord)
    requires x in prog && p(x)
    ensures FirstIndex(prog, p) < |prog|
  {
    var j :| 0 <= j < |prog| && prog[j] == x;
  }

  /** Rule 1: with two or more dominant sevenths the first one's root is the tonic. */
  lemma HarmonicByDominantCount(lib: Library, chords: seq<ParsedChord>)
    requires |Dominants(RootedChords(chords))| >= 2
    ensures var prog := RootedChords(chords);
      var dom := FirstIndex(prog, IsDominantSeventh);
      dom < |prog| && HarmonicTonic(lib, chords) == Some(prog[dom].tonic)
  {
    var prog := RootedChords(chords);
    FindIsFilterHead(prog, IsDominantSeventh);
    WitnessBeforeEnd(prog, IsDominantSeventh, Dominants(prog)[0]);
    FindFirst(prog, IsDominantSeventh, FirstIndex(prog, IsDominantSeventh));
  }

  /** Rule 2: otherwise the first diminished chord's root, raised a minor second. */
  lemma HarmonicByDiminished(lib: Library, chords: seq<ParsedChord>)
    requires |Dominants(RootedChords(chords))| < 2
    requires FirstIndex(RootedChords(chords), IsDiminishedChord) < |RootedChords(chords)|
    ensures var prog := RootedChords(chords);
      var dim := FirstIndex(prog, IsDiminishedChord);
      HarmonicTonic(lib, chords) == Some(lib.transpose(prog[dim].tonic, MinorSecondUp))
  {
    var prog := RootedChords(chords);
    FindFirst(prog, IsDiminishedChord, FirstIndex(prog, IsDiminishedChord));
  }

  /** Rule 3: otherwise the one dominant seventh's root, lowered a perfect fifth. */
  lemma HarmonicBySingleDominant(lib: Library, chords: seq<ParsedChord>)
    requires FirstIndex(RootedChords(chords), IsDiminishedChord) == |RootedChords(chords)|
    requires |Dominants(RootedChords(chords))| == 1
    ensures var prog := RootedChords(chords);
      var dom := FirstIndex(prog, IsDominantSeventh);
      dom < |prog| && HarmonicTonic(lib, chords) == Some(lib.transpose(prog[dom].tonic, FifthDown))
  {
    var prog := RootedChords(chords);
    WitnessBeforeEnd(prog, IsDominantSeventh, Dominants(prog)[0]);
    FindFirst(prog, IsDominantSeventh, FirstIndex(prog, IsDominantSeventh));
    NoneBeforeEnd(prog, IsDiminishedChord);
  }

  /** Rule 4: with neither diminished chords nor dominant sevenths, the diatonic
      search decides, and inference fails without a chord that has a tonic. */
  lemma HarmonicByDiatonicFit(lib: Library, chords: seq<ParsedChord>)
    requires FirstIndex(RootedChords(chords), IsDiminishedChord) == |RootedChords(chords)|
    requires FirstIndex(RootedChords(chords), IsDominantSeventh) == |RootedChords(chords)|
    ensures var prog := RootedChords(chords);
      (prog == [] ==> HarmonicTonic(lib, chords) == None) &&
      (prog != [] ==> HarmonicTonic(lib, chords) == FirstFullFit(lib, CandidateKeys(lib, prog), prog))
  {
    var prog := RootedChords(chords);
    NoneBeforeEnd(prog, IsDiminishedChord);
    NoneBeforeEnd(prog, IsDominantSeventh);
    assert |Dominants(prog)| == 0 by {
      if Dominants(prog) != [] {
        WitnessBeforeEnd(prog, IsDominantSeventh, Dominants(prog)[0]);
      }
    }
    if prog != [] {
      DiatonicFitIsFirstFullFit(lib, prog);
    }
  }

  /** Under the transposition law the diminished rule lands a half step above the
      root and the single-dominant rule a fifth below it (1 and 5 semitones up). */
  lemma HarmonicRuleChromas(lib: Library, root: string, c: PitchClass)
    requires TransposeLaw(lib)
    requires lib.chroma(root) == Some(c)
    ensures lib.chroma(lib.transpose(root, MinorSecondUp)) == Some((c + 1) % 12)
    ensures lib.chroma(lib.transpose(root, FifthDown)) == Some((c + 5) % 12)
  {
    TransposeChroma(lib, root, MinorSecondUp, c);
    TransposeChroma(lib, root, FifthDown, c);
    FifthDownIsFourthUp(c);
  }

  /** A fifth down and a fourth up reach the same pitch class. */
  lemma FifthDownIsFourthUp(c: PitchClass)
    ensures (c - 7) % 12 == (c + 5) % 12
  {
    if c < 7 {
      assert (c - 7) % 12 == c + 5;
      assert (c + 5) % 12 == c + 5;
    } else {
      assert (c - 7) % 12 == c - 7;
      assert (c + 5) % 12 == c - 7;
    }
  }

  /** The `potentialKeys` loop: seven keys per chord, added to an insertion-ordered set. */
  method CollectCandidateKeys(lib: Library, prog: seq<ParsedChord>) returns (keys: seq<string>)
    ensures keys == CandidateKeys(lib, prog)
  {
    keys := [];
    for i := 0 to |prog|
      invariant keys == CandidateKeys(lib, prog[..i])
    {
      assert prog[..i + 1][..i] == prog[..i];
      keys := AddAll(keys, SevenKeys(lib, prog[i].tonic));
    }
    assert prog[..|prog|] == prog;
  }

  /** The inner scoring loop: how many roots lie in the key's major scale. */
  method CountFits(lib: Library, key: string, prog: seq<ParsedChord>) returns (count: nat)
    ensures count == FitCount(lib, key, prog)
  {
    var scaleNotes := ScaleNotes(lib, key, "major");
    count := 0;
    for j := 0 to |prog|
      invariant count == FitCount(lib, key, prog[..j])
    {
      assert prog[..j + 1] == prog[..j] + [prog[j]];
      CountConcat(prog[..j], [prog[j]], InKey(lib, key));
      if prog[j].tonic in scaleNotes {
        count := count + 1;
      }
    }
    assert prog[..|prog|] == prog;
  }

  /** The `keyScores` loop. */
  method ScoreKeys(lib: Library, keys: seq<string>, prog: seq<ParsedChord>) returns (keyScores: map<string, real>)
    ensures forall k :: k in keys ==> k in keyScores && keyScores[k] == KeyScore(lib, k, prog)
  {
    keyScores := map[];
    for i := 0 to |keys|
      invariant forall j :: 0 <= j < i ==> keys[j] in keyScores && keyScores[keys[j]] == KeyScore(lib, keys[j], prog)
    {
      var count := CountFits(lib, keys[i], prog);
      var score := count as real;
      if count == |prog| {
        score := score + 0.5;
      }
      keyScores := keyScores[keys[i] := score];
    }
  }

  /** The best-key scan over `keyScores` in insertion order. */
  method ScanBestKey(lib: Library, keys: seq<string>, keyScores: map<string, real>, prog: seq<ParsedChord>)
    returns (bestKey: Option<string>, bestScore: real)
    requires forall k :: k in keys ==> k in keyScores && keyScores[k] == KeyScore(lib, k, prog)
    ensures Best(bestKey, bestScore) == BestKey(lib, keys, prog)
  {
    bestKey, bestScore := None, 0.0;
    for i := 0 to |keys|
      invariant Best(bestKey, bestScore) == BestKey(lib, keys[..i], prog)
    {
      assert keys[..i + 1][..i] == keys[..i];
      var score := keyScores[keys[i]];
      if score > bestScore {
        bestScore := score;
        bestKey := Some(keys[i]);
      }
    }
    assert keys[..|keys|] == keys;
  }

  /** `detectTonicFromHarmony`, step by step. */
  method DetectTonicFromHarmony(lib: Library, chords: seq<ParsedChord>) returns (r: Option<string>)
    ensures r == HarmonicTonic(lib, chords)
  {
    var prog := RootedChords(chords);
    if |prog| == 0 {
      return None;
    }
    var doms := Dominants(prog);
    if |doms| >= 2 {
      return Some(doms[0].tonic);
    }

    // Strategy 1: a diminished chord points a half step up.
    for i := 0 to |prog|
      invariant forall j :: 0 <= j < i ==> !IsDiminishedChord(prog[j])
    {
      if IsDiminishedChord(prog[i]) {
        FindFirst(prog, IsDiminishedChord, i);
        return Some(lib.transpose(prog[i].tonic, MinorSecondUp));
      }
    }

    // Strategy 2: a single dominant seventh points a fifth down.
    for i := 0 to |prog|
      invariant forall j :: 0 <= j < i ==> !IsDominantSeventh(prog[j])
    {
      if IsDominantSeventh(prog[i]) {
        FindFirst(prog, IsDominantSeventh, i);
        return Some(lib.transpose(prog[i].tonic, FifthDown));
      }
    }

    // Strategy 3: diatonic fit over the candidate keys.
    r := DiatonicStrategy(lib, prog);
  }

  /** The diatonic-fit strategy of `detectTonicFromHarmony`. */
  method DiatonicStrategy(lib: Library, prog: seq<ParsedChord>) returns (r: Option<string>)
    ensures r == DiatonicFit(lib, prog)
  {
    var keys := CollectCandidateKeys(lib, prog);
    var keyScores := ScoreKeys(lib, keys, prog);
    var bestKey, bestScore := ScanBestKey(lib, keys, keyScores, prog);
    if bestScore >= |prog| as real {
      r := bestKey;
    } else {
      r := None;
    }
  }

  // ---------------------------------------------------------------------------
  // Weighted positional fallback
  // ---------------------------------------------------------------------------

  /** The keys of `rootCounts`: the distinct roots in first-occurrence order. */
  function RootOrder(prog: seq<ParsedChord>): (r: seq<string>)
    ensures Distinct(r)
    ensures forall t :: t in r <==> exists j :: 0 <= j < |prog| && prog[j].tonic == t
    decreases |prog|
  {
    if prog == [] then []
    else
      var r := RootOrder(prog[..|prog| - 1]);
      var t := prog[|prog| - 1].tonic;
      assert forall j :: 0 <= j < |prog| - 1 ==> prog[..|prog| - 1][j] == prog[j];
      if t in r then r else r + [t]
  }

  function RootIs(root: string): ParsedChord -> bool
  {
    (c: ParsedChord) => c.tonic == root
  }

  function Occurrences(prog: seq<ParsedChord>, root: string): nat
  {
    Count(prog, RootIs(root))
  }

  /** The largest occurrence count of the given roots. */
  function MaxOccurrence(prog: seq<ParsedChord>, roots: seq<string>): nat
    decreases |roots|
  {
    if roots == [] then 0
    else
      var m := MaxOccurrence(prog, roots[..|roots| - 1]);
      var n := Occurrences(prog, roots[|roots| - 1]);
      if n > m then n else m
  }

  /** 0.5 for the first chord's root, 0.25 for the last's, 0.25 for a most frequent
      root, and 0.3 more for a root that both opens and closes the progression. */
  function PositionalScore(prog: seq<ParsedChord>, maxFreq: nat, root: string): real
    requires prog != []
  {
    var first, last := prog[0].tonic, prog[|prog| - 1].tonic;
    (if root == first then 0.5 else 0.0) +
    (if root == last then 0.25 else 0.0) +
    (if Occurrences(prog, root) == maxFreq then 0.25 else 0.0) +
    (if root == first && root == last then 0.3 else 0.0)
  }

  datatype Pick = Pick(root: string, score: real)

  /** The best-root scan, starting from the first chord's root. */
  function BestRoot(prog: seq<ParsedChord>, maxFreq: nat, roots: seq<string>): Pick
    requires prog != []
    decreases |roots|
  {
    if roots == [] then Pick(prog[0].tonic, PositionalScore(prog, maxFreq, prog[0].tonic))
    else
      var b := BestRoot(prog, maxFreq, roots[..|roots| - 1]);
      var last := roots[|roots| - 1];
      var score := PositionalScore(prog, maxFreq, last);
      if score > b.score then Pick(last, score) else b
  }

  /** `detectPrimaryTonic` as a value. */
  function PrimaryTonic(chords: seq<ParsedChord>): Option<string>
  {
    var prog := RootedChords(chords);
    if prog == [] then None
    else
      var roots := RootOrder(prog);
      Some(BestRoot(prog, MaxOccurrence(prog, roots), roots).root)
  }

  /** No root outscores the first chord's: it earns at least 0.5, any other root at
      most 0.25 + 0.25, and a tie keeps the first chord's root. */
  lemma FirstRootScoresHighest(prog: seq<ParsedChord>, maxFreq: nat, root: string)
    requires prog != []
    ensures PositionalScore(prog, maxFreq, root) <= PositionalScore(prog, maxFreq, prog[0].tonic)
  {
  }

  lemma {:induction false} BestRootStaysFirst(prog: seq<ParsedChord>, maxFreq: nat, roots: seq<string>)
    requires prog != []
    ensures BestRoot(prog, maxFreq, roots) == Pick(prog[0].tonic, PositionalScore(prog, maxFreq, prog[0].tonic))
    decreases |roots|
  {
    if roots != [] {
      BestRootStaysFirst(prog, maxFreq, roots[..|roots| - 1]);
      FirstRootScoresHighest(prog, maxFreq, roots[|roots| - 1]);
    }
  }

  /** The positional fallback fails only without a chord that has a tonic, and then
      always answers the first such chord's root, which scores at least as high as
      every root of the progression. */
  lemma PrimaryTonicIsFirstRoot(chords: seq<ParsedChord>)
    ensures var prog := RootedChords(chords);
      && (PrimaryTonic(chords) == None <==> prog == [])
      && (prog != [] ==> PrimaryTonic(chords) == Some(prog[0].tonic))
      && (prog != [] ==> forall c :: c in prog ==>
            var m := MaxOccurrence(prog, RootOrder(prog));
            PositionalScore(prog, m, c.tonic) <= PositionalScore(prog, m, prog[0].tonic))
  {
    var prog := RootedChords(chords);
    if prog != [] {
      var roots := RootOrder(prog);
      BestRootStaysFirst(prog, MaxOccurrence(prog, roots), roots);
    }
  }

  /** Appending one chord adds one to its root's count and nothing to the others. */
  lemma OccurrencesSnoc(prog: seq<ParsedChord>, c: ParsedChord, u: string)
    ensures Occurrences(prog + [c], u) == Occurrences(prog, u) + (if u == c.tonic then 1 else 0)
  {
    CountConcat(prog, [c], RootIs(u));
  }

  /** A root that does not occur among the first `i` chords has no occurrences there. */
  lemma UncountedRoot(prog: seq<ParsedChord>, i: nat, t: string)
    requires i <= |prog|
    requires t !in RootOrder(prog[..i])
    ensures Occurrences(prog[..i], t) == 0
  {
    CountNone(prog[..i], RootIs(t));
  }

  /** One more chord adds one occurrence of its root and none of any other. */
  lemma OccurrencesStep(prog: seq<ParsedChord>, i: nat)
    requires i < |prog|
    ensures forall u :: Occurrences(prog[..i + 1], u) == Occurrences(prog[..i], u) + (if u == prog[i].tonic then 1 else 0)
  {
    assert prog[..i + 1] == prog[..i] + [prog[i]];
    forall u ensures Occurrences(prog[..i + 1], u) == Occurrences(prog[..i], u) + (if u == prog[i].tonic then 1 else 0) {
      OccurrencesSnoc(prog[..i], prog[i], u);
    }
  }

  /** The `rootCounts` loop: a map and the insertion order of its keys. */
  method CountRoots(prog: seq<ParsedChord>) returns (order: seq<string>, rootCounts: map<string, nat>)
    ensures order == RootOrder(prog)
    ensures forall t :: t in rootCounts <==> t in order
    ensures forall t :: t in rootCounts ==> rootCounts[t] == Occurrences(prog, t)
  {
    order, rootCounts := [], map[];
    for i := 0 to |prog|
      invariant order == RootOrder(prog[..i])
      invariant forall t :: t in rootCounts <==> t in order
      invariant forall t :: t in rootCounts ==> rootCounts[t] == Occurrences(prog[..i], t)
    {
      var t := prog[i].tonic;
      assert prog[..i + 1][..i] == prog[..i];
      OccurrencesStep(prog, i);
      if t !in rootCounts {
        UncountedRoot(prog, i, t);
      }
      var previous := if t in rootCounts then rootCounts[t] else 0;
      rootCounts := rootCounts[t := previous + 1];
      if t !in order {
        order := order + [t];
      }
    }
    assert prog[..|prog|] == prog;
  }

  /** The largest count in the root-count map. */
  method MaxFrequency(prog: seq<ParsedChord>, order: seq<string>, rootCounts: map<string, nat>) returns (maxFreq: nat)
    requires forall t :: t in order ==> t in rootCounts && rootCounts[t] == Occurrences(prog, t)
    ensures maxFreq == MaxOccurrence(prog, order)
  {
    maxFreq := 0;
    for i := 0 to |order|
      invariant maxFreq == MaxOccurrence(prog, order[..i])
    {
      assert order[..i + 1][..i] == order[..i];
      if rootCounts[order[i]] > maxFreq {
        maxFreq := rootCounts[order[i]];
      }
    }
    assert order[..|order|] == order;
  }

  /** The `scores` loop. */
  method ScoreRoots(prog: seq<ParsedChord>, order: seq<string>, rootCounts: map<string, nat>, maxFreq: nat)
    returns (scores: map<string, real>)
    requires prog != []
    requires forall t :: t in order ==> t in rootCounts && rootCounts[t] == Occurrences(prog, t)
    ensures forall t :: t in order ==> t in scores && scores[t] == PositionalScore(prog, maxFreq, t)
  {
    scores := map[];
    for i := 0 to |order|
      invariant forall j :: 0 <= j < i ==> order[j] in scores && scores[order[j]] == PositionalScore(prog, maxFreq, order[j])
    {
      var root := order[i];
      var score := 0.0;
      if root == prog[0].tonic { score := score + 0.5; }
      if root == prog[|prog| - 1].tonic { score := score + 0.25; }
      if rootCounts[root] == maxFreq { score := score + 0.25; }
      if root == prog[0].tonic && root == prog[|prog| - 1].tonic { score := score + 0.3; }
      scores := scores[root := score];
    }
  }

  /** The best-root scan over `scores` in insertion order, starting from the first root. */
  method ScanBestRoot(prog: seq<ParsedChord>, maxFreq: nat, order: seq<string>, scores: map<string, real>)
    returns (bestRoot: string)
    requires prog != []
    requires forall t :: t in order ==> t in scores && scores[t] == PositionalScore(prog, maxFreq, t)
    requires prog[0].tonic in order
    ensures bestRoot == BestRoot(prog, maxFreq, order).root
  {
    bestRoot := prog[0].tonic;
    var bestScore := scores[prog[0].tonic];
    for i := 0 to |order|
      invariant Pick(bestRoot, bestScore) == BestRoot(prog, maxFreq, order[..i])
    {
      assert order[..i + 1][..i] == order[..i];
      if scores[order[i]] > bestScore {
        bestScore := scores[order[i]];
        bestRoot := order[i];
      }
    }
    assert order[..|order|] == order;
  }

  /** `detectPrimaryTonic`. */
  method DetectPrimaryTonic(chords: seq<ParsedChord>) returns (r: Option<string>)
    ensures r == PrimaryTonic(chords)
  {
    var prog := RootedChords(chords);
    if |prog| == 0 {
      return None;
    }
    var order, rootCounts := CountRoots(prog);
    var maxFreq := MaxFrequency(prog, order, rootCounts);
    var scores := ScoreRoots(prog, order, rootCounts, maxFreq);
    var bestRoot := ScanBestRoot(prog, maxFreq, order, scores);
    r := Some(bestRoot);
  }
}
