/** Tokenising a progression, resolving each token to a chord record, and the
    union of the chords' notes (`parseChords`, `mergeNotes`). */
module Parsing {
  import opened Wrappers
  import opened Seqs
  import opened Tonal

  /** A character of the JavaScript class `\s`. */
  predicate IsWhitespace(c: char)
  {
    var n := c as int;
    (0x09 <= n <= 0x0D) || n == 0x20 || n == 0xA0 || n == 0x1680 ||
    (0x2000 <= n <= 0x200A) || n == 0x2028 || n == 0x2029 || n == 0x202F ||
    n == 0x205F || n == 0x3000 || n == 0xFEFF
  }

  /** A character of the separator class `[\s,]`. */
  predicate IsSeparator(c: char)
  {
    c == ',' || IsWhitespace(c)
  }

  /** A token: non-empty and free of separators. */
  predicate IsToken(t: string)
  {
    t != [] && forall i :: 0 <= i < |t| ==> !IsSeparator(t[i])
  }

  /** The length of the separator-free prefix of `s`. */
  function WordLength(s: string): (k: nat)
    ensures k <= |s|
    ensures forall i :: 0 <= i < k ==> !IsSeparator(s[i])
    ensures k < |s| ==> IsSeparator(s[k])
  {
    if s == [] || IsSeparator(s[0]) then 0 else 1 + WordLength(s[1..])
  }

  /** The input split at runs of whitespace and commas, empty pieces dropped: the
      maximal runs of non-separator characters, in order. */
  function Tokens(s: string): (ts: seq<string>)
    ensures forall t :: t in ts ==> IsToken(t)
    decreases |s|
  {
    if s == [] then []
    else if IsSeparator(s[0]) then Tokens(s[1..])
    else
      var k := WordLength(s);
      [s[..k]] + Tokens(s[k..])
  }

  /** The characters of `s` that are not separators. */
  function WithoutSeparators(s: string): string
  {
    if s == [] then []
    else (if IsSeparator(s[0]) then [] else [s[0]]) + WithoutSeparators(s[1..])
  }

  function Concat(ts: seq<string>): string
  {
    if ts == [] then [] else ts[0] + Concat(ts[1..])
  }

  /** A possibly empty run of whitespace and commas. */
  predicate IsSeparatorRun(s: string)
  {
    forall i :: 0 <= i < |s| ==> IsSeparator(s[i])
  }

  /** Tokens with the separator run `gaps[i]` before token `i` and `gaps[|ts|]`
      after the last one: `gaps[0] + ts[0] + gaps[1] + … + ts[n-1] + gaps[n]`. */
  function Separated(ts: seq<string>, gaps: seq<string>): string
    requires |gaps| == |ts| + 1
    decreases |ts|
  {
    if ts == [] then gaps[0] else gaps[0] + ts[0] + Separated(ts[1..], gaps[1..])
  }

  /** Runs that may separate tokens: every gap is a separator run, and the gaps
      between two tokens are not empty (the two ends may be). */
  predicate Gaps(ts: seq<string>, gaps: seq<string>)
  {
    && |gaps| == |ts| + 1
    && (forall i :: 0 <= i < |gaps| ==> IsSeparatorRun(gaps[i]))
    && (forall i :: 0 < i < |ts| ==> gaps[i] != [])
  }

  lemma {:induction false} WithoutSeparatorsConcat(a: string, b: string)
    ensures WithoutSeparators(a + b) == WithoutSeparators(a) + WithoutSeparators(b)
  {
    if a == [] {
      assert a + b == b;
    } else {
      assert (a + b)[1..] == a[1..] + b;
      WithoutSeparatorsConcat(a[1..], b);
    }
  }

  /** Tokenising loses no character but the separators. */
  lemma {:induction false} TokensKeepEveryCharacter(s: string)
    ensures Concat(Tokens(s)) == WithoutSeparators(s)
    decreases |s|
  {
    if s != [] {
      if IsSeparator(s[0]) {
        TokensKeepEveryCharacter(s[1..]);
      } else {
        var k := WordLength(s);
        TokensKeepEveryCharacter(s[k..]);
        assert s == s[..k] + s[k..];
        WithoutSeparatorsConcat(s[..k], s[k..]);
        WordHasNoSeparators(s[..k]);
      }
    }
  }

  lemma {:induction false} WordHasNoSeparators(w: string)
    requires forall i :: 0 <= i < |w| ==> !IsSeparator(w[i])
    ensures WithoutSeparators(w) == w
  {
    if w != [] {
      WordHasNoSeparators(w[1..]);
    }
  }

  lemma {:induction false} WordLengthOfToken(t: string, rest: string)
    requires forall i :: 0 <= i < |t| ==> !IsSeparator(t[i])
    requires rest == [] || IsSeparator(rest[0])
    ensures WordLength(t + rest) == |t|
  {
    if t == [] {
      assert t + rest == rest;
    } else {
      assert (t + rest)[1..] == t[1..] + rest;
      WordLengthOfToken(t[1..], rest);
    }
  }

  /** A word ends at the first separator, so text after one does not change it. */
  lemma {:induction false} WordLengthBeforeSeparator(a: string, t: string)
    requires t != [] && IsSeparator(t[0])
    ensures WordLength(a + t) == WordLength(a)
  {
    if a == [] {
      assert a + t == t;
    } else if !IsSeparator(a[0]) {
      assert (a + t)[1..] == a[1..] + t;
      WordLengthBeforeSeparator(a[1..], t);
    }
  }

  /** Leading separators are skipped. */
  lemma {:induction false} TokensAfterSeparators(s: string, b: string)
    requires IsSeparatorRun(s)
    ensures Tokens(s + b) == Tokens(b)
  {
    if s == [] {
      assert s + b == b;
    } else {
      assert (s + b)[1..] == s[1..] + b;
      TokensAfterSeparators(s[1..], b);
    }
  }

  /** A non-empty run of whitespace and commas splits the input in two: the
      tokens of the whole are the tokens of each side. */
  lemma {:induction false} TokensSplit(a: string, s: string, b: string)
    requires s != [] && IsSeparatorRun(s)
    ensures Tokens(a + s + b) == Tokens(a) + Tokens(b)
    decreases |a|
  {
    if a == [] {
      assert a + s + b == s + b;
      TokensAfterSeparators(s, b);
    } else if IsSeparator(a[0]) {
      assert (a + s + b)[1..] == a[1..] + s + b;
      TokensSplit(a[1..], s, b);
    } else {
      var k := WordLength(a);
      WordLengthBeforeSeparator(a, s + b);
      assert a + s + b == a + (s + b);
      assert (a + s + b)[..k] == a[..k];
      assert (a + s + b)[k..] == a[k..] + s + b;
      TokensSplit(a[k..], s, b);
    }
  }

  lemma {:induction false} TokensOfToken(t: string)
    requires IsToken(t)
    ensures Tokens(t) == [t]
  {
    WordLengthOfToken(t, []);
    assert t + [] == t;
  }

  /** Tokenising tokens separated by runs of whitespace and commas, with
      optional runs at either end, gives back exactly those tokens. */
  lemma {:induction false} TokensOfSeparated(ts: seq<string>, gaps: seq<string>)
    requires forall t :: t in ts ==> IsToken(t)
    requires Gaps(ts, gaps)
    ensures Tokens(Separated(ts, gaps)) == ts
    decreases |ts|
  {
    if ts == [] {
      TokensAfterSeparators(gaps[0], []);
      assert gaps[0] + [] == gaps[0];
    } else {
      var r := Separated(ts[1..], gaps[1..]);
      assert Gaps(ts[1..], gaps[1..]) by {
        forall i | 0 < i < |ts[1..]| ensures gaps[1..][i] != [] {
          assert gaps[1..][i] == gaps[i + 1];
        }
      }
      TokensOfSeparated(ts[1..], gaps[1..]);
      TokensAfterSeparators(gaps[0], ts[0] + r);
      assert Separated(ts, gaps) == gaps[0] + (ts[0] + r);
      TokensOfToken(ts[0]);
      if |ts| == 1 {
        if gaps[1] == [] {
          assert ts[0] + r == ts[0];
        } else {
          TokensSplit(ts[0], gaps[1], []);
          assert ts[0] + r == ts[0] + gaps[1] + [];
        }
      } else {
        var y := ts[1] + Separated(ts[2..], gaps[2..]);
        assert ts[1..][1..] == ts[2..] && gaps[1..][1..] == gaps[2..];
        assert r == gaps[1] + y;
        TokensSplit(ts[0], gaps[1], y);
        TokensAfterSeparators(gaps[1], y);
        assert ts[0] + r == ts[0] + gaps[1] + y;
      }
    }
  }

  /** Commas, runs of separators and separators at both ends all split alike. */
  lemma SeparatorRunsExample()
    ensures Tokens(" C,, F\t") == ["C", "F"]
  {
    var ts, gaps := ["C", "F"], [" ", ",, ", "\t"];
    assert IsToken("C") && IsToken("F");
    assert Separated(ts, gaps) == " C,, F\t" by {
      assert Separated(ts[1..][1..], gaps[1..][1..]) == "\t";
    }
    TokensOfSeparated(ts, gaps);
  }

  /** One resolved token (`ParsedChord`). */
  datatype ParsedChord = ParsedChord(
    input: string,
    valid: bool,
    tonic: string,
    notes: seq<string>,
    quality: Quality,
    chordType: string)

  function ParseToken(lib: Library, token: string): ParsedChord
  {
    var info := lib.chordGet(token);
    ParsedChord(token, !info.empty, info.tonic, info.notes, info.quality, info.chordType)
  }

  function ParseTokens(lib: Library, ts: seq<string>): (cs: seq<ParsedChord>)
    ensures |cs| == |ts|
    ensures forall i :: 0 <= i < |ts| ==> cs[i] == ParseToken(lib, ts[i])
  {
    if ts == [] then [] else [ParseToken(lib, ts[0])] + ParseTokens(lib, ts[1..])
  }

  /** `parseChords`: one record per token, in input order. */
  function ParseChords(lib: Library, input: string): seq<ParsedChord>
  {
    ParseTokens(lib, Tokens(input))
  }

  /** The token each record was read from. */
  function Inputs(cs: seq<ParsedChord>): (ts: seq<string>)
    ensures |ts| == |cs| && forall i :: 0 <= i < |cs| ==> ts[i] == cs[i].input
  {
    if cs == [] then [] else [cs[0].input] + Inputs(cs[1..])
  }

  lemma {:induction false} InputsOfParseTokens(lib: Library, ts: seq<string>)
    ensures Inputs(ParseTokens(lib, ts)) == ts
  {
    if ts != [] {
      InputsOfParseTokens(lib, ts[1..]);
    }
  }

  /** No character of the progression is lost or invented: the records' tokens,
      concatenated, are the input without its whitespace and commas, and
      separator-free tokens between runs of whitespace and commas parse back to
      one record per token. */
  lemma ParseChordsKeepInput(lib: Library, input: string)
    ensures Concat(Inputs(ParseChords(lib, input))) == WithoutSeparators(input)
    ensures forall ts, gaps :: (forall t :: t in ts ==> IsToken(t)) && Gaps(ts, gaps) ==>
      Inputs(ParseChords(lib, Separated(ts, gaps))) == ts
  {
    InputsOfParseTokens(lib, Tokens(input));
    TokensKeepEveryCharacter(input);
    forall ts, gaps | (forall t :: t in ts ==> IsToken(t)) && Gaps(ts, gaps)
      ensures Inputs(ParseChords(lib, Separated(ts, gaps))) == ts
    {
      TokensOfSeparated(ts, gaps);
      InputsOfParseTokens(lib, Tokens(Separated(ts, gaps)));
    }
  }

  predicate IsValid(c: ParsedChord)
  {
    c.valid
  }

  /** Valid and with a non-empty tonic. */
  predicate HasTonic(c: ParsedChord)
  {
    c.valid && c.tonic != ""
  }

  function ValidChords(chords: seq<ParsedChord>): seq<ParsedChord>
  {
    Filter(chords, IsValid)
  }

  function RootedChords(chords: seq<ParsedChord>): seq<ParsedChord>
  {
    Filter(chords, HasTonic)
  }

  /** Some valid chord of `chords` spells note `n`. */
  predicate InValidChord(chords: seq<ParsedChord>, n: string)
  {
    exists i :: 0 <= i < |chords| && chords[i].valid && n in chords[i].notes
  }

  function MergeFrom(acc: seq<string>, chords: seq<ParsedChord>): (r: seq<string>)
    requires Distinct(acc)
    ensures Distinct(r)
    ensures forall n :: n in r <==> n in acc || InValidChord(chords, n)
    decreases |chords|
  {
    if chords == [] then acc
    else
      var next := if chords[0].valid then InsertAll(acc, chords[0].notes) else acc;
      var r := MergeFrom(next, chords[1..]);
      assert forall n :: InValidChord(chords, n) <==>
        (chords[0].valid && n in chords[0].notes) || InValidChord(chords[1..], n) by {
        forall n ensures InValidChord(chords, n) ==>
          (chords[0].valid && n in chords[0].notes) || InValidChord(chords[1..], n) {
          if InValidChord(chords, n) {
            var i :| 0 <= i < |chords| && chords[i].valid && n in chords[i].notes;
            if i > 0 { assert chords[1..][i - 1] == chords[i]; }
          }
        }
        forall n ensures InValidChord(chords[1..], n) ==> InValidChord(chords, n) {
          if InValidChord(chords[1..], n) {
            var i :| 0 <= i < |chords[1..]| && chords[1..][i].valid && n in chords[1..][i].notes;
            assert chords[i + 1] == chords[1..][i];
          }
        }
      }
      r
  }

  /** `mergeNotes`: every note of every valid chord, each once, in first-seen order. */
  function MergeNotes(chords: seq<ParsedChord>): (r: seq<string>)
    ensures Distinct(r)
    ensures forall n :: n in r <==> InValidChord(chords, n)
  {
    MergeFrom([], chords)
  }

  /** The `mergeNotes` loop: each valid chord's notes are added to an
      insertion-ordered set. */
  method MergeNoteSet(chords: seq<ParsedChord>) returns (noteSet: seq<string>)
    ensures noteSet == MergeNotes(chords)
  {
    noteSet := [];
    for i := 0 to |chords|
      invariant Distinct(noteSet)
      invariant MergeFrom(noteSet, chords[i..]) == MergeNotes(chords)
    {
      var chord := chords[i];
      assert chords[i..][0] == chord && chords[i..][1..] == chords[i + 1..];
      if chord.valid {
        noteSet := AddAll(noteSet, chord.notes);
      }
    }
    assert chords[|chords|..] == [];
  }
}
