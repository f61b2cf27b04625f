/** Chroma sets and the string fingerprints the ranking deduplicates by. */
module PitchClasses {
  import opened Wrappers
  import opened Tonal

  /** The chromas of the notes that have one (`noteSetToChromaSet`, as a value). */
  function ChromaSet(lib: Library, notes: seq<string>): set<PitchClass>
  {
    set n | n in notes && lib.chroma(n).Some? :: lib.chroma(n).value
  }

  /** `noteSetToChromaSet`: adds the chroma of each note in turn, skipping the
      notes without one. */
  method NoteSetToChromaSet(lib: Library, notes: seq<string>) returns (s: set<PitchClass>)
    ensures s == ChromaSet(lib, notes)
    ensures forall c :: c in s <==> exists n :: n in notes && lib.chroma(n) == Some(c)
  {
    s := {};
    for i := 0 to |notes|
      invariant s == ChromaSet(lib, notes[..i])
    {
      assert notes[..i + 1] == notes[..i] + [notes[i]];
      var c := lib.chroma(notes[i]);
      if c.Some? {
        s := s + {c.value};
      }
    }
    assert notes[..|notes|] == notes;
  }

  /** The decimal text of a chroma, as `Number.prototype.toString` writes it. */
  function Decimal(c: PitchClass): (r: string)
    ensures 1 <= |r| <= 2 && ',' !in r && '_' !in r
  {
    if c < 10 then [('0' as int + c) as char]
    else ['1', ('0' as int + c - 10) as char]
  }

  lemma DecimalInjective(a: PitchClass, b: PitchClass)
    requires Decimal(a) == Decimal(b)
    ensures a == b
  {
    if a < 10 && b < 10 {
      assert Decimal(a)[0] == Decimal(b)[0];
    } else if a >= 10 && b >= 10 {
      assert Decimal(a)[1] == Decimal(b)[1];
    }
  }

  /** The decimal chromas separated by commas. */
  function JoinDecimal(xs: seq<PitchClass>): (r: string)
    ensures '_' !in r
  {
    if xs == [] then ""
    else if |xs| == 1 then Decimal(xs[0])
    else Decimal(xs[0]) + ("," + JoinDecimal(xs[1..]))
  }

  /** A character of a string is in the string. */
  lemma CharAt(s: string, i: int)
    ensures 0 <= i < |s| ==> s[i] in s
  {
  }

  /** A comma-free head followed by an empty or comma-led tail splits uniquely. */
  lemma SplitAtComma(a: string, r1: string, b: string, r2: string)
    requires ',' !in a && ',' !in b
    requires r1 == [] || r1[0] == ','
    requires r2 == [] || r2[0] == ','
    requires a + r1 == b + r2
    ensures a == b && r1 == r2
  {
    if |a| < |b| {
      CharAt(a + r1, |a|);
      CharAt(b, |a|);
    } else if |b| < |a| {
      CharAt(b + r2, |b|);
      CharAt(a, |b|);
    } else {
      assert a == (a + r1)[..|a|];
      assert b == (b + r2)[..|b|];
      assert r1 == (a + r1)[|a|..];
      assert r2 == (b + r2)[|b|..];
    }
  }

  /** The head chroma's text, then nothing or a comma and the rest. */
  lemma JoinDecimalHead(xs: seq<PitchClass>)
    requires xs != []
    ensures var r := if |xs| == 1 then "" else "," + JoinDecimal(xs[1..]);
      JoinDecimal(xs) == Decimal(xs[0]) + r && (r == [] || r[0] == ',')
  {
  }

  lemma {:induction false} JoinDecimalInjective(xs: seq<PitchClass>, ys: seq<PitchClass>)
    requires JoinDecimal(xs) == JoinDecimal(ys)
    ensures xs == ys
  {
    if xs == [] || ys == [] {
      JoinDecimalEmpty(xs);
      JoinDecimalEmpty(ys);
    } else {
      var r1 := if |xs| == 1 then "" else "," + JoinDecimal(xs[1..]);
      var r2 := if |ys| == 1 then "" else "," + JoinDecimal(ys[1..]);
      JoinDecimalHead(xs);
      JoinDecimalHead(ys);
      SplitAtComma(Decimal(xs[0]), r1, Decimal(ys[0]), r2);
      DecimalInjective(xs[0], ys[0]);
      if |xs| == 1 || |ys| == 1 {
        JoinDecimalEmpty(xs[1..]);
        JoinDecimalEmpty(ys[1..]);
      } else {
        assert r1[1..] == JoinDecimal(xs[1..]);
        assert r2[1..] == JoinDecimal(ys[1..]);
        JoinDecimalInjective(xs[1..], ys[1..]);
      }
      assert xs == [xs[0]] + xs[1..];
      assert ys == [ys[0]] + ys[1..];
    }
  }

  lemma JoinDecimalEmpty(xs: seq<PitchClass>)
    ensures JoinDecimal(xs) == "" <==> xs == []
  {
    if xs != [] {
      JoinDecimalHead(xs);
    }
  }

  /** The members of `s` from `from` to 11 in ascending numeric order. */
  function Ascending(s: set<PitchClass>, from: nat): (r: seq<PitchClass>)
    requires from <= 12
    ensures forall c :: c in r <==> c in s && from <= c
    ensures forall i, j :: 0 <= i < j < |r| ==> r[i] < r[j]
    decreases 12 - from
  {
    if from == 12 then []
    else
      var rest := Ascending(s, from + 1);
      assert forall k :: 0 <= k < |rest| ==> rest[k] in rest;
      if from in s then [from as PitchClass] + rest else rest
  }

  /** `pitchClassSetKey`: the ascending, comma-joined chroma set of the notes. */
  function PitchClassSetKey(lib: Library, notes: seq<string>): (r: string)
    ensures '_' !in r
  {
    JoinDecimal(Ascending(ChromaSet(lib, notes), 0))
  }

  /** Two note lists get the same key exactly when they have the same chroma set:
      the key forgets spelling and order and nothing else. */
  lemma PitchClassSetKeyExact(lib: Library, a: seq<string>, b: seq<string>)
    ensures PitchClassSetKey(lib, a) == PitchClassSetKey(lib, b) <==> ChromaSet(lib, a) == ChromaSet(lib, b)
  {
    if PitchClassSetKey(lib, a) == PitchClassSetKey(lib, b) {
      var xs := Ascending(ChromaSet(lib, a), 0);
      var ys := Ascending(ChromaSet(lib, b), 0);
      JoinDecimalInjective(xs, ys);
      forall c: PitchClass ensures c in ChromaSet(lib, a) <==> c in ChromaSet(lib, b) {
        assert c in xs <==> c in ChromaSet(lib, a);
        assert c in ys <==> c in ChromaSet(lib, b);
      }
    }
  }

  /** Two strings joined by an underscore: the string keys of the ranking. */
  function UnderscoreKey(a: string, b: string): string
  {
    a + "_" + b
  }

  /** When both right-hand parts, or both left-hand parts, are free of `_`, an
      underscore key determines both parts. */
  lemma UnderscoreKeyInjective(a1: string, b1: string, a2: string, b2: string)
    requires ('_' !in b1 && '_' !in b2) || ('_' !in a1 && '_' !in a2)
    ensures UnderscoreKey(a1, b1) == UnderscoreKey(a2, b2) <==> a1 == a2 && b1 == b2
  {
    var k1, k2 := UnderscoreKey(a1, b1), UnderscoreKey(a2, b2);
    if k1 == k2 {
      assert k1[|a1|] == '_';
      assert k2[|a2|] == '_';
      if |a1| == |a2| {
        assert a1 == k1[..|a1|] && a2 == k2[..|a2|];
        assert b1 == k1[|a1| + 1..] && b2 == k2[|a2| + 1..];
      }
    }
  }
}
