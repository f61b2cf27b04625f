/** Blues classification (`isBluesProgression`). */
module Blues {
  import opened Wrappers
  import opened Seqs
  import opened Tonal
  import opened Parsing
  import opened TonicDetection

  predicate IsMinorSeventh(c: ParsedChord)
  {
    c.chordType == MinorSeventh
  }

  function MinorSevenths(v: seq<ParsedChord>): seq<ParsedChord>
  {
    Filter(v, IsMinorSeventh)
  }

  /** Some chord of the group has this root; the test compares root names only. */
  predicate SharesRoot(group: seq<ParsedChord>, root: string)
  {
    exists g :: g in group && g.tonic == root
  }

  /** The ii–V test at position `i`: chord `i`'s root is the root of some minor
      seventh, and chord `i + 1`'s root is the root of some dominant seventh. */
  predicate IiVAt(v: seq<ParsedChord>, i: int)
    requires 0 <= i < |v| - 1
  {
    SharesRoot(MinorSevenths(v), v[i].tonic) && SharesRoot(Dominants(v), v[i + 1].tonic)
  }

  /** The I7–IV7 test at position `i`: both roots are dominant-seventh roots with
      known chromas, and the second lies a perfect fourth (5 semitones) above. */
  predicate FourthMotionAt(lib: Library, v: seq<ParsedChord>, i: int)
    requires 0 <= i < |v| - 1
  {
    var doms := Dominants(v);
    SharesRoot(doms, v[i].tonic) && SharesRoot(doms, v[i + 1].tonic) &&
    lib.chroma(v[i].tonic).Some? && lib.chroma(v[i + 1].tonic).Some? &&
    (lib.chroma(v[i + 1].tonic).value as int - lib.chroma(v[i].tonic).value as int + 12) % 12 == 5
  }

  /** The classification, rule by rule: at least two valid chords; no ii–V test
      fires at a position before the last pair; and then either two dominant
      sevenths or one I7–IV7 motion (which, as `IsBluesByDominantCount` shows,
      never applies on its own). */
  predicate IsBlues(lib: Library, chords: seq<ParsedChord>)
  {
    var v := ValidChords(chords);
    && |v| >= 2
    && !(exists i :: 0 <= i < |v| - 2 && IiVAt(v, i))
    && (|Dominants(v)| >= 2 || exists i :: 0 <= i < |v| - 1 && FourthMotionAt(lib, v, i))
  }

  /** The I7–IV7 test needs two dominant sevenths: with at most one, both roots
      are that chord's root, so the interval is 0 and never a fourth. */
  lemma FourthMotionNeedsTwoDominants(lib: Library, v: seq<ParsedChord>, i: int)
    requires 0 <= i < |v| - 1
    requires |Dominants(v)| < 2
    ensures !FourthMotionAt(lib, v, i)
  {
    var doms := Dominants(v);
    if SharesRoot(doms, v[i].tonic) && SharesRoot(doms, v[i + 1].tonic) {
      var g1 :| g1 in doms && g1.tonic == v[i].tonic;
      var g2 :| g2 in doms && g2.tonic == v[i + 1].tonic;
      assert g1 == doms[0] && g2 == doms[0];
    }
  }

  /** The I7–IV7 scan therefore never decides the classification: a progression
      is blues exactly when it has two valid chords, no ii–V before the last pair,
      and two dominant sevenths. */
  lemma IsBluesByDominantCount(lib: Library, chords: seq<ParsedChord>)
    ensures var v := ValidChords(chords);
      IsBlues(lib, chords) <==>
        |v| >= 2 && !(exists i :: 0 <= i < |v| - 2 && IiVAt(v, i)) && |Dominants(v)| >= 2
  {
    var v := ValidChords(chords);
    if |Dominants(v)| < 2 {
      forall i | 0 <= i < |v| - 1
        ensures !FourthMotionAt(lib, v, i)
      {
        FourthMotionNeedsTwoDominants(lib, v, i);
      }
    }
  }

  /** The first scan of `isBluesProgression`: a ii–V test firing before the last pair. */
  method FindIiV(v: seq<ParsedChord>) returns (found: bool)
    requires |v| >= 2
    ensures found <==> exists i :: 0 <= i < |v| - 2 && IiVAt(v, i)
  {
    var doms := Dominants(v);
    var mins := MinorSevenths(v);
    for i := 0 to |v| - 2
      invariant forall j :: 0 <= j < i ==> !IiVAt(v, j)
    {
      var isMinor7 := SharesRoot(mins, v[i].tonic);
      var isDom7 := SharesRoot(doms, v[i + 1].tonic);
      if isMinor7 && isDom7 {
        assert IiVAt(v, i);
        return true;
      }
    }
    return false;
  }

  /** The second scan of `isBluesProgression`: an adjacent I7–IV7 motion. */
  method FindFourthMotion(lib: Library, v: seq<ParsedChord>) returns (found: bool)
    requires |v| >= 2
    ensures found <==> exists i :: 0 <= i < |v| - 1 && FourthMotionAt(lib, v, i)
  {
    var doms := Dominants(v);
    for i := 0 to |v| - 1
      invariant forall j :: 0 <= j < i ==> !FourthMotionAt(lib, v, j)
    {
      var bothDom7 := SharesRoot(doms, v[i].tonic) && SharesRoot(doms, v[i + 1].tonic);
      if bothDom7 {
        var chroma1 := lib.chroma(v[i].tonic);
        var chroma2 := lib.chroma(v[i + 1].tonic);
        if chroma1.Some? && chroma2.Some? {
          var c1: int, c2: int := chroma1.value, chroma2.value;
          var interval := (c2 - c1 + 12) % 12;
          if interval == 5 {
            assert FourthMotionAt(lib, v, i);
            return true;
          }
        }
      }
    }
    return false;
  }

  /** `isBluesProgression`. */
  method IsBluesProgression(lib: Library, chords: seq<ParsedChord>) returns (b: bool)
    ensures b == IsBlues(lib, chords)
  {
    var v := ValidChords(chords);
    if |v| < 2 {
      return false;
    }
    var iiV := FindIiV(v);
    if iiV {
      return false;
    }
    if |Dominants(v)| >= 2 {
      return true;
    }
    b := FindFourthMotion(lib, v);
  }

  /** The ii–V exclusion never looks at the last pair: with exactly two valid
      chords, only the dominant-seventh rules decide. */
  lemma TwoChordsNeverExcluded(lib: Library, chords: seq<ParsedChord>)
    requires |ValidChords(chords)| == 2
    ensures var v := ValidChords(chords);
      IsBlues(lib, chords) <==> |Dominants(v)| >= 2 || FourthMotionAt(lib, v, 0)
  {
  }

  /** A ii–V exclusion fires only when a minor seventh and a dominant seventh are
      both present among the valid chords. */
  lemma {:induction false} ExclusionNeedsBothSevenths(lib: Library, chords: seq<ParsedChord>, i: int)
    requires 0 <= i < |ValidChords(chords)| - 1
    requires IiVAt(ValidChords(chords), i)
    ensures exists m :: m in ValidChords(chords) && IsMinorSeventh(m) && m.tonic == ValidChords(chords)[i].tonic
    ensures exists d :: d in ValidChords(chords) && IsDominantSeventh(d) && d.tonic == ValidChords(chords)[i + 1].tonic
  {
    var v := ValidChords(chords);
    var m :| m in MinorSevenths(v) && m.tonic == v[i].tonic;
    var d :| d in Dominants(v) && d.tonic == v[i + 1].tonic;
    assert m in v && IsMinorSeventh(m);
    assert d in v && IsDominantSeventh(d);
  }

  // Concrete readings of the rules.

  lemma ValidThree(a: ParsedChord, b: ParsedChord, c: ParsedChord)
    requires a.valid && b.valid && c.valid
    ensures ValidChords([a, b, c]) == [a, b, c]
  {
    FilterOfThree(a, b, c, IsValid);
  }

  lemma DominantsOfThree(a: ParsedChord, b: ParsedChord, c: ParsedChord)
    requires IsDominantSeventh(a) && IsMinorSeventh(b) && IsDominantSeventh(c)
    ensures Dominants([a, b, c]) == [a, c]
  {
    assert !IsDominantSeventh(b) by { assert MinorSeventh[0] != DominantSeventh[0]; }
    FilterOfThree(a, b, c, IsDominantSeventh);
    assert Filter([a, b, c], IsDominantSeventh) == [a] + ([] + [c]);
    assert [a] + ([] + [c]) == [a, c];
  }

  lemma MinorSeventhsOfThree(a: ParsedChord, b: ParsedChord, c: ParsedChord)
    requires IsDominantSeventh(a) && IsMinorSeventh(b) && IsDominantSeventh(c)
    ensures MinorSevenths([a, b, c]) == [b]
  {
    assert !IsMinorSeventh(a) && !IsMinorSeventh(c) by { assert MinorSeventh[0] != DominantSeventh[0]; }
    FilterOfThree(a, b, c, IsMinorSeventh);
  }

  /** A ii–V on the last pair does not exclude: a dominant seventh, then a minor
      seventh on another root, then a dominant seventh (C7 Dm7 G7) is blues, although
      the last two chords pass the ii–V test. */
  lemma TrailingIiVIsBlues(lib: Library, a: ParsedChord, b: ParsedChord, c: ParsedChord)
    requires a.valid && b.valid && c.valid
    requires IsDominantSeventh(a) && IsMinorSeventh(b) && IsDominantSeventh(c)
    requires a.tonic != b.tonic
    ensures IiVAt([a, b, c], 1)
    ensures IsBlues(lib, [a, b, c])
  {
    ValidThree(a, b, c);
    DominantsOfThree(a, b, c);
    MinorSeventhsOfThree(a, b, c);
    assert !IiVAt([a, b, c], 0);
  }

  /** The exclusion at position 0 of D7 G7 Dm7: chord 0's root has a minor seventh. */
  lemma LeadingRootMatch(a: ParsedChord, b: ParsedChord, c: ParsedChord)
    requires IsDominantSeventh(a) && IsDominantSeventh(b) && IsMinorSeventh(c)
    requires c.tonic == a.tonic
    ensures IiVAt([a, b, c], 0)
  {
    assert c in MinorSevenths([a, b, c]) by { FilterOfThree(a, b, c, IsMinorSeventh); }
    assert b in Dominants([a, b, c]) by { FilterOfThree(a, b, c, IsDominantSeventh); }
  }

  /** The test matches root names, not chord types: a dominant seventh that shares
      its root with a later minor seventh (D7 G7 Dm7) triggers the exclusion. */
  lemma RootNameMatchExcludes(lib: Library, a: ParsedChord, b: ParsedChord, c: ParsedChord)
    requires a.valid && b.valid && c.valid
    requires IsDominantSeventh(a) && IsDominantSeventh(b) && IsMinorSeventh(c)
    requires c.tonic == a.tonic
    ensures !IsMinorSeventh(a)
    ensures !IsBlues(lib, [a, b, c])
  {
    assert MinorSeventh[0] != DominantSeventh[0];
    ValidThree(a, b, c);
    LeadingRootMatch(a, b, c);
  }
}
