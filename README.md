# Scale recommendation for a chord progression — a verified model

scale-stream suggests scales for guitar improvisation over a chord progression.
Its core, `analyzeProgression` in `src/lib/chordAnalysis.ts`, works in stages:

1. It splits the input into chord tokens and resolves each token with the chord
   interpreter.
2. It finds a tonic:
   - first from harmonic rules: several dominant sevenths, a diminished chord,
     a single dominant seventh, or a major key that holds every root;
   - otherwise from a positional vote over the roots.
3. It scores all thirteen catalogue scales on that tonic, adding modal-signature
   bonuses.
4. It filters, deduplicates enharmonic spellings, sorts, and caps the number of
   church modes.
5. It then takes one of two paths:
   - blues progressions get the blues overrides;
   - everything else gets a score-gap cutoff followed by a pentatonic companion.
6. It returns at most three recommendations.

The model follows the source stage by stage. Each file is one module:

| file | contents |
|---|---|
| `wrappers.dfy` | `Option` |
| `seqs.dfy` | filter, find, count, insert-after on sequences, with their laws |
| `tonal.dfy` | the music-theory library interface |
| `pitch_classes.dfy` | chroma sets and their canonical string key |
| `parsing.dfy` | tokenising, `parseChords`, `mergeNotes` |
| `whitelist.dfy` | the scale catalogue |
| `tonic.dfy` | `detectTonicFromHarmony`, `detectPrimaryTonic` |
| `blues.dfy` | `isBluesProgression` |
| `modal.dfy` | `getModalBonuses` |
| `scoring.dfy` | `getDominantBonus`, `scoreCandidates` |
| `ranking.dfy` | `filterAndRank` |
| `postprocess.dfy` | companion injection and blues overrides |
| `analysis.dfy` | `analyzeProgression` |

Each routine that loops in the source is a Dafny `method` with a loop. The
method is proved equal to a specification function, and the properties are then
proved about that function. The sort works in place on an `array`, as
`Array.prototype.sort` does.

## Model

| member | source | states |
|---|---|---|
| Whitelist.CatalogueShape | src/lib/chordAnalysis.ts:37-55 | every catalogue tier is 1..4; tier 1 holds exactly the seven modes; the small scales are exactly the two pentatonics and the two blues scales; no mode carries a pentatonic name |
| Whitelist.NamesHaveNoUnderscore | src/lib/chordAnalysis.ts:37-55 | no catalogue scale name contains `_`, so the `tonic_name` keys are unambiguous |
| PitchClasses.NoteSetToChromaSet | src/lib/chordAnalysis.ts:61-68 | the loop collects exactly the chromas of the notes that have one |
| PitchClasses.PitchClassSetKeyExact | src/lib/chordAnalysis.ts:71-73 | two note lists get the same sorted, comma-joined key exactly when their chroma sets are equal |
| PitchClasses.JoinDecimalInjective | src/lib/chordAnalysis.ts:72 | joining ascending chromas with commas loses no information |
| PitchClasses.UnderscoreKeyInjective | src/lib/chordAnalysis.ts:475 | a tonic and a name joined by `_` determine both parts when the name (or the tonic) has no `_` |
| Parsing.TokensKeepEveryCharacter | src/lib/chordAnalysis.ts:76-79 | the tokens, concatenated, are the input without its whitespace and commas |
| Parsing.TokensSplit | src/lib/chordAnalysis.ts:76-79 | a non-empty run of whitespace and commas splits the input: the tokens of the whole are the tokens before the run followed by the tokens after it |
| Parsing.TokensOfSeparated | src/lib/chordAnalysis.ts:76-79 | tokens separated by non-empty runs of whitespace and commas, with optional runs at either end (which the trim drops), tokenise back to exactly those tokens |
| Parsing.ParseChordsKeepInput | src/lib/chordAnalysis.ts:75-91 | the records' tokens, concatenated, are the input without its whitespace and commas; parsing separator-free tokens between runs of whitespace and commas gives one record per token, carrying that token, in order |
| Parsing.MergeNotes | src/lib/chordAnalysis.ts:93-101 | the merged list has no repeats and holds exactly the notes of the valid chords |
| Parsing.MergeNoteSet | src/lib/chordAnalysis.ts:93-101 | the loop over the chords, adding each valid chord's notes to an insertion-ordered set, computes the merged list |
| TonicDetection.DetectTonicFromHarmony | src/lib/chordAnalysis.ts:107-201 | the method, with all its loops, returns the harmonic-rule tonic |
| TonicDetection.HarmonicByDominantCount | src/lib/chordAnalysis.ts:120-125 | with two or more dominant sevenths the tonic is the first one's root |
| TonicDetection.HarmonicByDiminished | src/lib/chordAnalysis.ts:127-134 | otherwise, the first diminished chord gives its root a half step up |
| TonicDetection.HarmonicBySingleDominant | src/lib/chordAnalysis.ts:136-143 | otherwise, the single dominant seventh gives its root a fifth down |
| TonicDetection.HarmonicByDiatonicFit | src/lib/chordAnalysis.ts:145-200 | with neither rule applying, the tonic is the first candidate key whose major scale holds every root, or none |
| TonicDetection.HarmonicRuleChromas | src/lib/chordAnalysis.ts:127-143 | under the transposition law, the two rules land 1 and 5 semitones above the root |
| TonicDetection.SevenKeysChromas | src/lib/chordAnalysis.ts:149-159 | under the transposition law, the seven keys of a root lie 0, 2, 10, 4, 8, 5 and 7 semitones above it, so the root is read as degree I, bVII, II, bVI, III, V or IV of the key |
| TonicDetection.CandidateKeysCover | src/lib/chordAnalysis.ts:150-160 | all seven transpositions of every root are candidate keys |
| TonicDetection.CandidateKeysFrom | src/lib/chordAnalysis.ts:150-160 | conversely, every candidate key is one of the seven transpositions of some chord's root |
| TonicDetection.BestKeyIsFirstFullFit | src/lib/chordAnalysis.ts:176-198 | the strict-maximum scan picks the first key that fits every root, scoring n + 0.5; with none, the best score is below n |
| TonicDetection.DiatonicFitSound | src/lib/chordAnalysis.ts:162-198 | a returned key is a candidate, its major scale holds every root, and it precedes every other fitting candidate |
| TonicDetection.DiatonicFitNone | src/lib/chordAnalysis.ts:195-200 | when no candidate key holds every root, the diatonic strategy gives nothing |
| TonicDetection.CountRoots | src/lib/chordAnalysis.ts:214-218 | the counting loop yields the roots in first-appearance order, each mapped to its number of occurrences |
| TonicDetection.DetectPrimaryTonic | src/lib/chordAnalysis.ts:210-245 | the method returns the positional-vote tonic |
| TonicDetection.PrimaryTonicIsFirstRoot | src/lib/chordAnalysis.ts:210-245 | the vote has no result exactly when no chord has a root; otherwise it picks the first chord's root, and no root scores higher |
| Blues.IsBluesProgression | src/lib/chordAnalysis.ts:252-303 | the method decides the blues predicate: at least two valid chords, no ii–V test firing before the last pair, then two dominant sevenths or a I7–IV7 step; the I7–IV7 scan never decides the result (see Blues.IsBluesByDominantCount) |
| Blues.FourthMotionNeedsTwoDominants | src/lib/chordAnalysis.ts:281-300 | with fewer than two dominant sevenths the I7–IV7 test never fires: both roots are the one dominant's root, so the interval is 0 |
| Blues.IsBluesByDominantCount | src/lib/chordAnalysis.ts:252-303 | a progression is blues exactly when it has two valid chords, no ii–V before the last pair, and two dominant sevenths |
| Blues.FindIiV | src/lib/chordAnalysis.ts:267-274 | the scan finds a position below n − 2 whose root names a minor seventh and whose successor names a dominant seventh, if and only if one exists |
| Blues.FindFourthMotion | src/lib/chordAnalysis.ts:282-300 | the scan finds two adjacent dominant-seventh roots a perfect fourth apart, if and only if they exist |
| Blues.TwoChordsNeverExcluded | src/lib/chordAnalysis.ts:267 | with two valid chords the ii–V exclusion never applies |
| Blues.ExclusionNeedsBothSevenths | src/lib/chordAnalysis.ts:268-271 | an exclusion at position i implies that chord i's root carries a minor seventh and chord i+1's root a dominant seventh |
| Blues.TrailingIiVIsBlues | src/lib/chordAnalysis.ts:267-279 | a ii–V on the last pair does not exclude: a dominant seventh, a minor seventh on another root and a dominant seventh is blues |
| Blues.RootNameMatchExcludes | src/lib/chordAnalysis.ts:268-273 | the test compares root names only: D7 G7 Dm7 is excluded, although chord 0 is not a minor seventh |
| Modal.GetModalBonuses | src/lib/chordAnalysis.ts:310-359 | the method returns the bonus map of the four rules |
| Modal.ScanSignatures | src/lib/chordAnalysis.ts:321-336 | each flag is set exactly when some other-rooted valid major chord lies at its interval above the tonic |
| Modal.ModalBonuses | src/lib/chordAnalysis.ts:310-359 | only the four mode keys can appear, at 0.15 (0.10 for Mixolydian); a minor-tonic bonus excludes every major-tonic bonus |
| Modal.ModalSignatures | src/lib/chordAnalysis.ts:338-356 | each mode gets its bonus if and only if its signature holds on the first valid tonic chord |
| Modal.NoBonusWithoutTriadQuality | src/lib/chordAnalysis.ts:318-319 | a tonic chord that is neither major nor minor earns no bonus |
| Scoring.DominantBonusHallmark | src/lib/chordAnalysis.ts:376-386 | the 0.02 bonus is given exactly to Mixolydian when the first chord rooted on the tonic is valid and holds the minor seventh above its root |
| Scoring.Ratio | src/lib/chordAnalysis.ts:419-431 | a ratio with an empty denominator is 0; otherwise it lies in [0, 1] and is 1 exactly when the counts agree |
| Scoring.FullShare | src/lib/chordAnalysis.ts:415-419 | the shared fraction is 1 exactly when the set is non-empty and inside the other |
| Scoring.CountCommon | src/lib/chordAnalysis.ts:415-418 | the counting loop returns the size of the intersection |
| Scoring.CollectRootChromas | src/lib/chordAnalysis.ts:396-402 | the loop collects the chromas of the valid chords' roots |
| Scoring.Candidate | src/lib/chordAnalysis.ts:409-452 | a candidate exists exactly when the scale lookup succeeds; it carries its entry and tonic, flags the first tonic, and is scored by the composite 0.4·coverage + 0.3·relevance + 0.3·root coverage plus the first-tonic, base-scale, dominant and modal bonuses |
| Scoring.CandidateRatios | src/lib/chordAnalysis.ts:413-431 | coverage, relevance and root coverage lie in [0, 1], each is 1 exactly when its set is non-empty and inside the scale (or input), and each is 0 for an empty set |
| Scoring.CandidatesForEntries | src/lib/chordAnalysis.ts:409-411 | the candidates for a tonic follow the catalogue order, skipping exactly the entries whose lookup fails |
| Scoring.ScoreAllShape | src/lib/chordAnalysis.ts:408-454 | every candidate's tonic is one of the requested tonics, and it is well scored |
| Scoring.ScoredCandidatesForOneTonic | src/lib/chordAnalysis.ts:405-454 | for one tonic: at most thirteen candidates, in catalogue order, all flagged as first tonic and well scored |
| Scoring.ScoreCandidates | src/lib/chordAnalysis.ts:388-457 | the nested loops return the specified candidate list |
| Ranking.PassesDisjoint | src/lib/chordAnalysis.ts:469-483 | no candidate passes both passes; the combined list is strict then relaxed, drawn from the input |
| Ranking.CombinedRootCoverage | src/lib/chordAnalysis.ts:469-480 | every candidate that passes has a root coverage of at least 0.75 |
| Ranking.EnharmonicKeyMeaning | src/lib/chordAnalysis.ts:488-489 | two candidates share a dedup key exactly when their scales have the same chroma set and the same scale name |
| Ranking.DedupFacts | src/lib/chordAnalysis.ts:486-493 | deduplication keeps a sub-multiset, every key once, no key twice, and the first candidate |
| Ranking.DedupKeepsFirstSeen | src/lib/chordAnalysis.ts:486-493 | every candidate whose key no earlier candidate has survives deduplication |
| Ranking.DedupSubsequence | src/lib/chordAnalysis.ts:486-493 | the survivors of deduplication keep their input order |
| Ranking.DedupEnharmonic | src/lib/chordAnalysis.ts:486-493 | the loop with its seen-set computes the deduplication |
| Ranking.SortByRankPermutes | src/lib/chordAnalysis.ts:496-500 | the sort permutes its input |
| Ranking.SortByRankKeepsOrdered | src/lib/chordAnalysis.ts:496-500 | an input with no pair out of order is left as it is |
| Ranking.SortByRankAdjacent | src/lib/chordAnalysis.ts:496-500 | in the sorted list no element belongs after its right-hand neighbour under the comparator |
| Ranking.InsertInPlace | src/lib/chordAnalysis.ts:496-500 | one insertion pass on the array places element i into the sorted prefix and leaves the rest unchanged |
| Ranking.SortInPlace | src/lib/chordAnalysis.ts:496-500 | sorting the array in place leaves it in the order of the insertion-sort specification |
| Ranking.CapFacts | src/lib/chordAnalysis.ts:503-522 | a cap keeps a sub-multiset, at most two tier-1 candidates per key, every other candidate in order, and the first candidate |
| Ranking.CapCount | src/lib/chordAnalysis.ts:503-522 | per key, the cap keeps as many tier-1 candidates as the input has, up to two |
| Ranking.CapKeepsFirstTwo | src/lib/chordAnalysis.ts:503-522 | a tier-1 candidate preceded by fewer than two tier-1 candidates with its key survives the cap |
| Ranking.CapSubsequence | src/lib/chordAnalysis.ts:503-522 | the survivors of a cap keep their input order |
| Ranking.CapTierOne | src/lib/chordAnalysis.ts:503-512 | the counter-map loop computes the cap |
| Ranking.FilterRankSubset | src/lib/chordAnalysis.ts:467-525 | the ranking is a sub-multiset of the candidates, all with root coverage at least 0.75 |
| Ranking.FilterRankNoEnharmonicDuplicates | src/lib/chordAnalysis.ts:486-493 | no two ranked candidates share a dedup key |
| Ranking.FilterRankCaps | src/lib/chordAnalysis.ts:502-522 | at most two tier-1 candidates per pitch-class set and at most two per tonic |
| Ranking.FilterRankEmpty | src/lib/chordAnalysis.ts:482-483 | the ranking is empty exactly when both passes are empty |
| Ranking.FilterAndRank | src/lib/chordAnalysis.ts:467-525 | the method returns the specified ranking |
| PostProcess.FindViableCompanion | src/lib/chordAnalysis.ts:531-544 | the companion is the first pool candidate with that tonic and name, and it has relevance of at least 0.6; there is none if and only if no such candidate exists or the first one falls short |
| PostProcess.InjectWithoutCompanion | src/lib/chordAnalysis.ts:550-561 | without a tier-1 mode or a viable companion, the ranking is unchanged |
| PostProcess.CompanionNameDiffers | src/lib/chordAnalysis.ts:556-564 | the companion's key never equals the top mode's key, so the filter keeps the top mode |
| PostProcess.InjectPlacesCompanion | src/lib/chordAnalysis.ts:563-568 | the companion sits right after the first tier-1 mode, its name occurs exactly once, and all other entries keep their order |
| PostProcess.BluesOverridesExclude | src/lib/chordAnalysis.ts:580-602 | the blues path opens with the prioritised list and never yields Ionian, harmonic minor, melodic minor or major blues |
| PostProcess.BluesOverridesKeepsRest | src/lib/chordAnalysis.ts:580-602 | after the prioritised list come, in ranked order, exactly the ranked candidates that are neither excluded nor a priority type |
| PostProcess.BluesOverridesPriority | src/lib/chordAnalysis.ts:584-602 | each of minor pentatonic, Mixolydian and minor blues occurs once when the pool holds it on the tonic, and not at all otherwise |
| Analysis.GapCutFacts | src/lib/chordAnalysis.ts:635-641 | the cutoff keeps the top candidate, keeps a later candidate exactly when it is within 0.10 of the top, and adds nothing |
| Analysis.ChooseTonicFacts | src/lib/chordAnalysis.ts:614-616 | a non-empty harmonic tonic wins; otherwise the first root; never the empty string |
| Analysis.PostProcessedFrom | src/lib/chordAnalysis.ts:624-643 | everything left after post-processing is one of the scored candidates |
| Analysis.AnalysisNull | src/lib/chordAnalysis.ts:609-648 | the result is null exactly when there are no valid chords, no tonic, or nothing survives post-processing |
| Analysis.AnalysisShape | src/lib/chordAnalysis.ts:609-656 | a non-null result has 1 to 3 entries, each on the chosen tonic, with coverage in [0, 1], a catalogue scale type and the display name `tonic + " " + suffix` |
| Analysis.BluesRecommendationsExclude | src/lib/chordAnalysis.ts:628-631 | for a blues progression no recommendation is an excluded scale type |
| Analysis.AnalyzeProgression | src/lib/chordAnalysis.ts:609-656 | the method computes the specified analysis |

## Left out

- The tables of the music-theory library (chord symbols, scale spellings,
  chromas, transposition) are not part of this model. `Tonal.Library` takes
  them as given functions. The only fact about them is `Tonal.TransposeLaw`:
  transposing moves the chroma by the interval. It is required only by the
  lemmas that use it.
- Numbers are modelled as real numbers, not IEEE doubles. Ratios, the
  composite score and the 0.10 and 0.001 tolerances are exact, so rounding
  effects near a threshold are not captured.
- `Ranking.SortInPlace`: it models `Array.prototype.sort` as a stable
  insertion sort under the source's comparator. The engine chooses its own
  algorithm. The comparator, with its 0.001 tolerance, is not a total order,
  so for such inputs the engine may give another order. The model proves that
  the sort permutes its input, returns an input already in order unchanged,
  and leaves no element after a neighbour it belongs after. It does not prove
  that equal elements keep their relative order in general, nor a total order.
- `PostProcess.InjectCompanion` works on values. `indexOf` compares by
  reference; the model compares by value. The top mode is the first tier-1
  element of the filtered list, so the first value match has the same index.
  `splice` on the fresh filtered list is modelled as building a new sequence.
- The root-scoring loop of `detectPrimaryTonic` visits the map in insertion
  order. The model visits the roots in first-appearance order, which is the same.
- The user interface, the song database, the video carousel and
  `src/data/scaleTheory.ts` (scale descriptions keyed by `scaleType`) are not
  part of this model.
- The source splits UTF-16 code units; the model's `char` is a Unicode scalar
  value. The split is the same, because every separator (the JavaScript `\s`
  class and the comma) is a single code unit outside the surrogate range, and a
  surrogate half is never a separator. No Unicode normalisation is modelled.
