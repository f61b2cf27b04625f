/** Modal-signature bonuses (`getModalBonuses`): borrowed major chords at fixed
    distances above the tonic favour one mode over its relatives. */
module Modal {
  import opened Wrappers
  import opened Seqs
  import opened Tonal
  import opened Parsing
  import Whitelist

  /** The bonus map is keyed by the catalogue's `scaleType`. */
  const Dorian := Whitelist.Dorian.scaleType
  const Phrygian := Whitelist.Phrygian.scaleType
  const Lydian := Whitelist.Lydian.scaleType
  const Mixolydian := Whitelist.Mixolydian.scaleType

  /** A valid chord rooted at the tonic. */
  function TonicChordOf(tonic: string): ParsedChord -> bool
  {
    (c: ParsedChord) => c.valid && c.tonic == tonic
  }

  /** A chord the signature scan counts: valid, rooted elsewhere than on the
      tonic's name, with a known chroma `k` semitones above the tonic, and major. */
  predicate MajorAt(lib: Library, c: ParsedChord, tonic: string, tc: PitchClass, k: int)
  {
    && c.valid
    && c.tonic != tonic
    && lib.chroma(c.tonic).Some?
    && (lib.chroma(c.tonic).value as int - tc as int + 12) % 12 == k
    && c.quality == Major
  }

  /** Some chord of the progression is a major chord `k` semitones above the tonic. */
  predicate HasMajorAt(lib: Library, chords: seq<ParsedChord>, tonic: string, tc: PitchClass, k: int)
  {
    exists i :: 0 <= i < |chords| && MajorAt(lib, chords[i], tonic, tc, k)
  }

  /** The four rules, given the tonic chord's quality and the four signatures
      (bVII = 10, bII = 1, bVI = 8, II = 2 semitones above the tonic). */
  function Rules(tonicIsMajor: bool, tonicIsMinor: bool,
                 flatVII: bool, flatII: bool, flatVI: bool, majorII: bool): map<string, real>
  {
    var m1: map<string, real> := if tonicIsMinor && flatVII && !flatVI then map[Dorian := 0.15] else map[];
    var m2 := if tonicIsMinor && flatII then m1[Phrygian := 0.15] else m1;
    var m3 := if tonicIsMajor && majorII then m2[Lydian := 0.15] else m2;
    if tonicIsMajor && flatVII then m3[Mixolydian := 0.10] else m3
  }

  /** `getModalBonuses`: nothing when the tonic has no chroma or no valid chord is
      rooted on it; otherwise the rules over the first such chord's quality. */
  function ModalBonuses(lib: Library, chords: seq<ParsedChord>, tonic: string): (r: map<string, real>)
    ensures r.Keys <= {Dorian, Phrygian, Lydian, Mixolydian}
    ensures forall k :: k in r ==> r[k] == (if k == Mixolydian then 0.10 else 0.15)
    ensures (Dorian in r || Phrygian in r) ==> Lydian !in r && Mixolydian !in r
  {
    match lib.chroma(tonic)
    case None => map[]
    case Some(tc) =>
      match Find(chords, TonicChordOf(tonic))
      case None => map[]
      case Some(t) =>
        Rules(t.quality == Major, t.quality == Minor,
              HasMajorAt(lib, chords, tonic, tc, 10), HasMajorAt(lib, chords, tonic, tc, 1),
              HasMajorAt(lib, chords, tonic, tc, 8), HasMajorAt(lib, chords, tonic, tc, 2))
  }

  /** When each mode earns its bonus: Dorian needs a minor tonic chord and a bVII
      without a bVI, Phrygian a minor tonic chord and a bII, Lydian a major tonic
      chord and a major II, Mixolydian a major tonic chord and a bVII. */
  lemma ModalSignatures(lib: Library, chords: seq<ParsedChord>, tonic: string)
    ensures var r := ModalBonuses(lib, chords, tonic);
      match lib.chroma(tonic)
      case None => r == map[]
      case Some(tc) =>
        match Find(chords, TonicChordOf(tonic))
        case None => r == map[]
        case Some(t) =>
          && (Dorian in r <==> t.quality == Minor && HasMajorAt(lib, chords, tonic, tc, 10) && !HasMajorAt(lib, chords, tonic, tc, 8))
          && (Phrygian in r <==> t.quality == Minor && HasMajorAt(lib, chords, tonic, tc, 1))
          && (Lydian in r <==> t.quality == Major && HasMajorAt(lib, chords, tonic, tc, 2))
          && (Mixolydian in r <==> t.quality == Major && HasMajorAt(lib, chords, tonic, tc, 10))
  {
  }

  /** A tonic chord that is neither major nor minor earns no bonus at all. */
  lemma NoBonusWithoutTriadQuality(lib: Library, chords: seq<ParsedChord>, tonic: string)
    requires forall c :: c in chords && c.valid && c.tonic == tonic ==> c.quality != Major && c.quality != Minor
    ensures ModalBonuses(lib, chords, tonic) == map[]
  {
    var t := Find(chords, TonicChordOf(tonic));
    if t.Some? {
      assert t.value in chords && TonicChordOf(tonic)(t.value);
    }
  }

  /** Extending the scanned prefix by one chord. */
  lemma HasMajorAtPrefix(lib: Library, chords: seq<ParsedChord>, tonic: string, tc: PitchClass, k: int, i: nat)
    requires i < |chords|
    ensures HasMajorAt(lib, chords[..i + 1], tonic, tc, k) <==>
      HasMajorAt(lib, chords[..i], tonic, tc, k) || MajorAt(lib, chords[i], tonic, tc, k)
  {
    var p := chords[..i + 1];
    assert forall j :: 0 <= j < i ==> p[j] == chords[..i][j];
    assert p[i] == chords[i];
  }

  /** The flag-setting scan of `getModalBonuses`. */
  method ScanSignatures(lib: Library, chords: seq<ParsedChord>, tonic: string, tc: PitchClass)
    returns (hasFlatVII: bool, hasFlatII: bool, hasFlatVI: bool, hasMajorII: bool)
    ensures hasFlatVII == HasMajorAt(lib, chords, tonic, tc, 10)
    ensures hasFlatII == HasMajorAt(lib, chords, tonic, tc, 1)
    ensures hasFlatVI == HasMajorAt(lib, chords, tonic, tc, 8)
    ensures hasMajorII == HasMajorAt(lib, chords, tonic, tc, 2)
  {
    hasFlatVII, hasFlatII, hasFlatVI, hasMajorII := false, false, false, false;
    for i := 0 to |chords|
      invariant hasFlatVII == HasMajorAt(lib, chords[..i], tonic, tc, 10)
      invariant hasFlatII == HasMajorAt(lib, chords[..i], tonic, tc, 1)
      invariant hasFlatVI == HasMajorAt(lib, chords[..i], tonic, tc, 8)
      invariant hasMajorII == HasMajorAt(lib, chords[..i], tonic, tc, 2)
    {
      HasMajorAtPrefix(lib, chords, tonic, tc, 10, i);
      HasMajorAtPrefix(lib, chords, tonic, tc, 1, i);
      HasMajorAtPrefix(lib, chords, tonic, tc, 8, i);
      HasMajorAtPrefix(lib, chords, tonic, tc, 2, i);
      var chord := chords[i];
      if !chord.valid || chord.tonic == tonic {
        continue;
      }
      var chordChroma := lib.chroma(chord.tonic);
      if chordChroma.None? {
        continue;
      }
      var interval := (chordChroma.value as int - tc as int + 12) % 12;
      if interval == 10 && chord.quality == Major { hasFlatVII := true; }
      if interval == 1 && chord.quality == Major { hasFlatII := true; }
      if interval == 8 && chord.quality == Major { hasFlatVI := true; }
      if interval == 2 && chord.quality == Major { hasMajorII := true; }
    }
    assert chords[..|chords|] == chords;
  }

  /** `getModalBonuses`: the scan, then the four rules setting entries of the map. */
  method GetModalBonuses(lib: Library, chords: seq<ParsedChord>, tonic: string) returns (bonuses: map<string, real>)
    ensures bonuses == ModalBonuses(lib, chords, tonic)
  {
    bonuses := map[];
    var tonicChroma := lib.chroma(tonic);
    if tonicChroma.None? {
      return;
    }
    var tonicChord := Find(chords, TonicChordOf(tonic));
    if tonicChord.None? {
      return;
    }
    var tonicIsMajor := tonicChord.value.quality == Major;
    var tonicIsMinor := tonicChord.value.quality == Minor;
    var hasFlatVII, hasFlatII, hasFlatVI, hasMajorII := ScanSignatures(lib, chords, tonic, tonicChroma.value);

    if tonicIsMinor && hasFlatVII && !hasFlatVI {
      bonuses := bonuses[Dorian := 0.15];
    }
    if tonicIsMinor && hasFlatII {
      bonuses := bonuses[Phrygian := 0.15];
    }
    if tonicIsMajor && hasMajorII {
      bonuses := bonuses[Lydian := 0.15];
    }
    if tonicIsMajor && hasFlatVII {
      bonuses := bonuses[Mixolydian := 0.10];
    }
  }
}
