/** The two post-processing paths after ranking: the pentatonic companion
    (`findViableCompanion`, `injectPentatonicCompanion`) and the blues
    overrides (`applyBluesOverrides`). */
module PostProcess {
  import opened Wrappers
  import opened Seqs
  import opened PitchClasses
  import opened Whitelist
  import opened Scoring
  import opened Ranking

  // ---------------------------------------------------------------------------
  // Pentatonic companion
  // ---------------------------------------------------------------------------

  /** On the given tonic and named like the given pentatonic. */
  function IsCompanionOf(tonic: string, pentatonicName: string): ScoredCandidate -> bool
  {
    (x: ScoredCandidate) => x.tonic == tonic && x.entry.tonalName == pentatonicName
  }

  /** `findViableCompanion`: the first candidate of the pool with that tonic and
      scale name, provided its relevance is at least 0.6. */
  function FindViableCompanion(all: seq<ScoredCandidate>, tonic: string, pentatonicName: string): (r: Option<ScoredCandidate>)
    ensures r.Some? ==> r.value in all && r.value.tonic == tonic && r.value.entry.tonalName == pentatonicName
    ensures r.Some? ==> r.value.scaleRelevance >= 0.6
    ensures r.Some? ==> r == Find(all, IsCompanionOf(tonic, pentatonicName))
    ensures r.None? <==>
      (forall x :: x in all ==> !IsCompanionOf(tonic, pentatonicName)(x)) ||
      Find(all, IsCompanionOf(tonic, pentatonicName)).value.scaleRelevance < 0.6
  {
    match Find(all, IsCompanionOf(tonic, pentatonicName))
    case None => None
    case Some(c) => if c.scaleRelevance >= 0.6 then Some(c) else None
  }

  predicate IsTierOne(c: ScoredCandidate)
  {
    c.entry.tier == 1
  }

  /** Major-flavoured modes get the major pentatonic, minor-flavoured ones the minor. */
  function PentatonicFor(family: Family): string
  {
    if family == MajorFamily then MajorPentatonic.tonalName else MinorPentatonic.tonalName
  }

  /** A tonic-and-name key other than the companion's. */
  function OtherName(key: string): ScoredCandidate -> bool
  {
    (r: ScoredCandidate) => NameKey(r) != key
  }

  function SameName(key: string): ScoredCandidate -> bool
  {
    (r: ScoredCandidate) => !OtherName(key)(r)
  }

  /** The companion for the first tier-1 entry of the ranking, if any. */
  function Companion(ranked: seq<ScoredCandidate>, all: seq<ScoredCandidate>): Option<ScoredCandidate>
  {
    match Find(ranked, IsTierOne)
    case None => None
    case Some(top) => FindViableCompanion(all, top.tonic, PentatonicFor(top.entry.family))
  }

  /** `injectPentatonicCompanion`: remove every entry named like the companion,
      then insert the companion right after the top mode, or at the front when the
      top mode is no longer in the list. */
  function InjectCompanion(ranked: seq<ScoredCandidate>, all: seq<ScoredCandidate>): seq<ScoredCandidate>
  {
    match Find(ranked, IsTierOne)
    case None => ranked
    case Some(top) =>
      match FindViableCompanion(all, top.tonic, PentatonicFor(top.entry.family))
      case None => ranked
      case Some(companion) => InsertAfter(Filter(ranked, OtherName(NameKey(companion))), top, companion)
  }

  /** Without a tier-1 mode, or without a viable companion for it, the ranking is
      returned as it is. */
  lemma InjectWithoutCompanion(ranked: seq<ScoredCandidate>, all: seq<ScoredCandidate>)
    requires (forall c :: c in ranked ==> c.entry.tier != 1) || Companion(ranked, all).None?
    ensures InjectCompanion(ranked, all) == ranked
  {
  }

  /** The tier-1 mode and its pentatonic companion have different name keys. */
  lemma CompanionNameDiffers(top: ScoredCandidate, companion: ScoredCandidate)
    requires top.entry in WHITELIST && companion.entry in WHITELIST
    requires top.entry.tier == 1
    requires companion.entry.tonalName == PentatonicFor(top.entry.family)
    ensures NameKey(top) != NameKey(companion)
  {
    CatalogueShape(top.entry);
    NamesHaveNoUnderscore(top.entry);
    NamesHaveNoUnderscore(companion.entry);
    UnderscoreKeyInjective(top.tonic, top.entry.tonalName, companion.tonic, companion.entry.tonalName);
  }

  /** With a tier-1 mode and a viable companion, the result is the ranking without
      the entries named like the companion, with the companion inserted right after
      the first tier-1 entry; the companion's name then occurs exactly once. */
  lemma InjectPlacesCompanion(ranked: seq<ScoredCandidate>, all: seq<ScoredCandidate>)
    requires forall c :: c in ranked ==> c.entry in WHITELIST
    requires forall c :: c in all ==> c.entry in WHITELIST
    requires Find(ranked, IsTierOne).Some? && Companion(ranked, all).Some?
    ensures var r := InjectCompanion(ranked, all);
      var top := Find(ranked, IsTierOne).value;
      var companion := Companion(ranked, all).value;
      var k := FirstIndex(r, IsTierOne);
      && k + 1 < |r|
      && r[k] == top
      && r[k + 1] == companion
      && Count(r, SameName(NameKey(companion))) == 1
      && Filter(r, OtherName(NameKey(companion))) == Filter(ranked, OtherName(NameKey(companion)))
  {
    var top := Find(ranked, IsTierOne).value;
    var companion := Companion(ranked, all).value;
    var key := NameKey(companion);
    CompanionNameDiffers(top, companion);
    var f1, f2 := FilterSplitAtFound(ranked, IsTierOne, OtherName(key));
    InsertAfterSplit(Filter(ranked, OtherName(key)), f1, top, f2, companion);
    assert forall z :: SameName(key)(z) <==> !OtherName(key)(z);
    InsertAfterFirst(f1, top, companion, f2, IsTierOne, OtherName(key), SameName(key));
  }

  // ---------------------------------------------------------------------------
  // Blues overrides
  // ---------------------------------------------------------------------------

  /** Scale types inappropriate in a blues context. */
  const BluesExcluded: set<string> := {Ionian.scaleType, HarmonicMinor.scaleType, MelodicMinor.scaleType, MajorBlues.scaleType}

  /** The three scale types the blues path puts first, in priority order. */
  const PriorityOrder: seq<string> := [MinorPentatonic.scaleType, Mixolydian.scaleType, MinorBlues.scaleType]

  function NotOfType(types: set<string>): ScoredCandidate -> bool
  {
    (c: ScoredCandidate) => c.entry.scaleType !in types
  }

  function OfType(t: string): ScoredCandidate -> bool
  {
    (c: ScoredCandidate) => c.entry.scaleType == t
  }

  /** On the tonic and of the given scale type: the lookup of the blues path. */
  function OnTonicOfType(tonic: string, t: string): ScoredCandidate -> bool
  {
    (c: ScoredCandidate) => c.tonic == tonic && c.entry.scaleType == t
  }

  function Listed(o: Option<ScoredCandidate>): seq<ScoredCandidate>
  {
    if o.Some? then [o.value] else []
  }

  /** The prioritised list: whichever of the three the pool holds for the tonic, in order. */
  function Prioritized(all: seq<ScoredCandidate>, tonic: string): seq<ScoredCandidate>
  {
    Listed(Find(all, OnTonicOfType(tonic, PriorityOrder[0]))) +
    Listed(Find(all, OnTonicOfType(tonic, PriorityOrder[1]))) +
    Listed(Find(all, OnTonicOfType(tonic, PriorityOrder[2])))
  }

  /** `applyBluesOverrides`. */
  function BluesOverrides(ranked: seq<ScoredCandidate>, all: seq<ScoredCandidate>, tonic: string): seq<ScoredCandidate>
  {
    var result := Filter(ranked, NotOfType(BluesExcluded));
    var rest := Filter(result, NotOfType(set u | u in PriorityOrder));
    Prioritized(all, tonic) + rest
  }

  /** The blues path never recommends an Ionian, harmonic minor, melodic minor or
      major blues scale, and opens with the prioritised list. */
  lemma BluesOverridesExclude(ranked: seq<ScoredCandidate>, all: seq<ScoredCandidate>, tonic: string)
    ensures var r := BluesOverrides(ranked, all, tonic);
      && r[..|Prioritized(all, tonic)|] == Prioritized(all, tonic)
      && forall c :: c in r ==> c.entry.scaleType !in BluesExcluded
  {
    var p := Prioritized(all, tonic);
    forall c | c in p
      ensures c.entry.scaleType in PriorityOrder
    {
    }
    assert forall t :: t in PriorityOrder ==> t !in BluesExcluded;
  }

  /** A ranked candidate the blues path keeps after the prioritised list: neither
      excluded nor one of the three priority types. */
  predicate KeptInBlues(c: ScoredCandidate)
  {
    c.entry.scaleType !in BluesExcluded && c.entry.scaleType !in PriorityOrder
  }

  /** After the prioritised list comes the rest of the ranking, in ranked order:
      every ranked candidate that is neither excluded nor a priority type, and
      nothing else. */
  lemma BluesOverridesKeepsRest(ranked: seq<ScoredCandidate>, all: seq<ScoredCandidate>, tonic: string)
    ensures var r := BluesOverrides(ranked, all, tonic);
      var n := |Prioritized(all, tonic)|;
      && n <= |r|
      && r[n..] == Filter(ranked, KeptInBlues)
      && forall c :: c in ranked && KeptInBlues(c) ==> c in r
  {
    var priority := set u | u in PriorityOrder;
    FilterFilter(ranked, NotOfType(BluesExcluded), NotOfType(priority), KeptInBlues);
    var p := Prioritized(all, tonic);
    var rest := Filter(ranked, KeptInBlues);
    assert BluesOverrides(ranked, all, tonic) == p + rest;
    assert (p + rest)[|p|..] == rest;
  }

  /** Each of the three priority types occurs exactly once when the pool holds a
      candidate of that type on the tonic, and not at all otherwise. */
  lemma BluesOverridesPriority(ranked: seq<ScoredCandidate>, all: seq<ScoredCandidate>, tonic: string, i: nat)
    requires i < 3
    ensures var t := PriorityOrder[i];
      Count(BluesOverrides(ranked, all, tonic), OfType(t)) ==
        if Find(all, OnTonicOfType(tonic, t)).Some? then 1 else 0
  {
    var t := PriorityOrder[i];
    var rest := Filter(Filter(ranked, NotOfType(BluesExcluded)), NotOfType(set u | u in PriorityOrder));
    CountConcat(Prioritized(all, tonic), rest, OfType(t));
    RestCount(Filter(ranked, NotOfType(BluesExcluded)), t);
    PrioritizedCount(all, tonic, i);
  }

  /** Once the priority types are filtered out, none of them is left. */
  lemma RestCount(result: seq<ScoredCandidate>, t: string)
    requires t in PriorityOrder
    ensures Count(Filter(result, NotOfType(set u | u in PriorityOrder)), OfType(t)) == 0
  {
    var rest := Filter(result, NotOfType(set u | u in PriorityOrder));
    assert forall c :: c in rest ==> !OfType(t)(c);
    CountNone(rest, OfType(t));
  }

  /** The prioritised list holds each priority type once when the pool does. */
  lemma PrioritizedCount(all: seq<ScoredCandidate>, tonic: string, i: nat)
    requires i < 3
    ensures var t := PriorityOrder[i];
      Count(Prioritized(all, tonic), OfType(t)) == if Find(all, OnTonicOfType(tonic, t)).Some? then 1 else 0
  {
    var t := PriorityOrder[i];
    var l0 := Listed(Find(all, OnTonicOfType(tonic, PriorityOrder[0])));
    var l1 := Listed(Find(all, OnTonicOfType(tonic, PriorityOrder[1])));
    var l2 := Listed(Find(all, OnTonicOfType(tonic, PriorityOrder[2])));
    CountConcat(l0 + l1, l2, OfType(t));
    CountConcat(l0, l1, OfType(t));
    ListedCount(Find(all, OnTonicOfType(tonic, PriorityOrder[0])), tonic, PriorityOrder[0], t);
    ListedCount(Find(all, OnTonicOfType(tonic, PriorityOrder[1])), tonic, PriorityOrder[1], t);
    ListedCount(Find(all, OnTonicOfType(tonic, PriorityOrder[2])), tonic, PriorityOrder[2], t);
  }

  /** A found candidate of type `u` counts once for `t == u` and never otherwise. */
  lemma ListedCount(o: Option<ScoredCandidate>, tonic: string, u: string, t: string)
    requires o.Some? ==> OnTonicOfType(tonic, u)(o.value)
    ensures Count(Listed(o), OfType(t)) == if o.Some? && t == u then 1 else 0
  {
    if o.Some? {
      assert Listed(o)[1..] == [];
    }
  }
}
