/** The fixed catalogue of thirteen guitarist-relevant scales, in the order the
    scorer visits them. */
module Whitelist {
  datatype Family = MajorFamily | MinorFamily

  /** `tonalName` is the name the scale lookup knows, `scaleType` the key of the
      theory table, `tier` 1 = modes, 2 = pentatonics, 3 = harmonic and melodic
      minor, 4 = blues. */
  datatype WhitelistEntry = WhitelistEntry(
    tonalName: string,
    scaleType: string,
    displaySuffix: string,
    tier: int,
    family: Family)

  const Ionian := WhitelistEntry("major", "ionian", "Ionian (Major Scale)", 1, MajorFamily)
  const Dorian := WhitelistEntry("dorian", "dorian", "Dorian", 1, MinorFamily)
  const Phrygian := WhitelistEntry("phrygian", "phrygian", "Phrygian", 1, MinorFamily)
  const Lydian := WhitelistEntry("lydian", "lydian", "Lydian", 1, MajorFamily)
  const Mixolydian := WhitelistEntry("mixolydian", "mixolydian", "Mixolydian", 1, MajorFamily)
  const Aeolian := WhitelistEntry("minor", "aeolian", "Aeolian (Natural Minor)", 1, MinorFamily)
  const Locrian := WhitelistEntry("locrian", "locrian", "Locrian", 1, MinorFamily)
  const MajorPentatonic := WhitelistEntry("major pentatonic", "major pentatonic", "Major Pentatonic", 2, MajorFamily)
  const MinorPentatonic := WhitelistEntry("minor pentatonic", "minor pentatonic", "Minor Pentatonic", 2, MinorFamily)
  const HarmonicMinor := WhitelistEntry("harmonic minor", "harmonic minor", "Harmonic Minor", 3, MinorFamily)
  const MelodicMinor := WhitelistEntry("melodic minor", "melodic minor", "Melodic Minor", 3, MinorFamily)
  const MajorBlues := WhitelistEntry("major blues", "major blues", "Major Blues", 4, MajorFamily)
  const MinorBlues := WhitelistEntry("minor blues", "minor blues", "Minor Blues", 4, MinorFamily)

  const WHITELIST: seq<WhitelistEntry> := [
    Ionian, Dorian, Phrygian, Lydian, Mixolydian, Aeolian, Locrian,
    MajorPentatonic, MinorPentatonic,
    HarmonicMinor, MelodicMinor,
    MajorBlues, MinorBlues
  ]

  /** Pentatonic and blues scales have five or six notes and are judged by relevance. */
  predicate IsSmallScale(entry: WhitelistEntry)
  {
    entry.tier == 2 || entry.tier == 4
  }

  /** Every scale name the lookup is asked for is free of `_`, the separator of the
      string keys built from it. */
  lemma NamesHaveNoUnderscore(e: WhitelistEntry)
    requires e in WHITELIST
    ensures '_' !in e.tonalName
  {
    var i :| 0 <= i < |WHITELIST| && WHITELIST[i] == e;
    if i < 5 {
      ModeNamesHaveNoUnderscore(i);
    } else if i < 9 {
      MiddleNamesHaveNoUnderscore(i);
    } else {
      LastNamesHaveNoUnderscore(i);
    }
  }

  lemma ModeNamesHaveNoUnderscore(i: nat)
    requires i < 5
    ensures '_' !in WHITELIST[i].tonalName
  {
  }

  lemma MiddleNamesHaveNoUnderscore(i: nat)
    requires 5 <= i < 9
    ensures '_' !in WHITELIST[i].tonalName
  {
  }

  lemma LastNamesHaveNoUnderscore(i: nat)
    requires 9 <= i < 13
    ensures '_' !in WHITELIST[i].tonalName
  {
  }

  /** The catalogue's shape: seven tier-1 modes, and the small scales are exactly the
      pentatonic and blues tiers. */
  lemma CatalogueShape(e: WhitelistEntry)
    requires e in WHITELIST
    ensures 1 <= e.tier <= 4
    ensures e.tier == 1 <==> e in WHITELIST[..7]
    ensures IsSmallScale(e) <==> e in [MajorPentatonic, MinorPentatonic, MajorBlues, MinorBlues]
    ensures e.tier == 1 ==> e.tonalName != "major pentatonic" && e.tonalName != "minor pentatonic"
  {
    var i :| 0 <= i < |WHITELIST| && WHITELIST[i] == e;
    TierLayout();
    if i < 7 {
      assert e in WHITELIST[..7] by { assert WHITELIST[..7][i] == e; }
      ModeNames(i);
    } else {
      assert e !in WHITELIST[..7];
    }
    SmallScales(i);
  }

  /** The first seven entries are the tier-1 modes; the rest are of tier 2 to 4. */
  lemma TierLayout()
    ensures forall j :: 0 <= j < 7 ==> WHITELIST[j].tier == 1
    ensures forall j :: 7 <= j < |WHITELIST| ==> 2 <= WHITELIST[j].tier <= 4
  {
  }

  lemma ModeNames(i: nat)
    requires i < 7
    ensures WHITELIST[i].tonalName != "major pentatonic" && WHITELIST[i].tonalName != "minor pentatonic"
  {
  }

  lemma SmallScales(i: nat)
    requires i < |WHITELIST|
    ensures IsSmallScale(WHITELIST[i]) <==> WHITELIST[i] in [MajorPentatonic, MinorPentatonic, MajorBlues, MinorBlues]
  {
  }
}
