/** The music-theory collaborator the analysis calls (`Chord.get`, `Scale.get`,
    `Note.chroma`, `Note.transpose`). Its tables are not part of this model:
    a `Library` value bundles the four lookups as given total functions, and
    every stage of the analysis takes it as a parameter. */
module Tonal {
  import opened Wrappers

  /** A pitch class (chroma): C = 0, C#/Db = 1, ..., B = 11. */
  type PitchClass = c: int | 0 <= c < 12

  /** The coarse triad quality the chord interpreter reports. */
  datatype Quality = Major | Minor | Augmented | Diminished | Unknown

  /** What `Chord.get(token)` reports; a missing tonic or type is the empty string. */
  datatype ChordInfo = ChordInfo(
    empty: bool,
    tonic: string,
    notes: seq<string>,
    quality: Quality,
    chordType: string)

  /** The interval arguments the analysis passes to `Note.transpose`. */
  datatype Interval =
    | MinorSecondUp    // "2m"
    | MajorSecondUp    // "2M"
    | MajorSecondDown  // "-2M"
    | MajorThirdUp     // "3M"
    | MajorThirdDown   // "-3M"
    | FourthUp         // "4P"
    | FourthDown       // "-4P"
    | FifthDown        // "-5P"

  /** The signed size of an interval in semitones. */
  function Semitones(i: Interval): int
  {
    match i
    case MinorSecondUp => 1
    case MajorSecondUp => 2
    case MajorSecondDown => -2
    case MajorThirdUp => 4
    case MajorThirdDown => -4
    case FourthUp => 5
    case FourthDown => -5
    case FifthDown => -7
  }

  /** The four lookups. `scaleGet(tonic, name)` stands for `Scale.get` on the tonic
      and the scale name joined by a space, and is `None` where that lookup reports an empty scale; `chroma` is `None`
      where `Note.chroma` gives `undefined`. */
  datatype Library = Library(
    chordGet: string -> ChordInfo,
    scaleGet: (string, string) -> Option<seq<string>>,
    chroma: string -> Option<PitchClass>,
    transpose: (string, Interval) -> string)

  /** The notes of the scale `name` on `tonic`: empty when the lookup fails. */
  function ScaleNotes(lib: Library, tonic: string, name: string): seq<string>
  {
    match lib.scaleGet(tonic, name)
    case None => []
    case Some(notes) => notes
  }

  /** Transposing a note that has a chroma moves its chroma by the interval, mod 12. */
  ghost predicate TransposeLaw(lib: Library)
  {
    forall n: string, i: Interval ::
      lib.chroma(n).Some? ==>
        lib.chroma(lib.transpose(n, i)) == Some((lib.chroma(n).value + Semitones(i)) % 12)
  }

  /** Under `TransposeLaw`, the seven transpositions used by the diatonic search
      and the two used by the harmonic rules all land where the interval says. */
  lemma TransposeChroma(lib: Library, n: string, i: Interval, c: PitchClass)
    requires TransposeLaw(lib)
    requires lib.chroma(n) == Some(c)
    ensures lib.chroma(lib.transpose(n, i)) == Some((c + Semitones(i)) % 12)
  {
  }
}
