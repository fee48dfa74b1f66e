# Chord maker: a verified model of chord naming and chord building

The chord maker turns a handful of form selections into a chord. The
selections are a root letter and its accidental, a quality, a suspension, a
size, an optional altered degree with its accidental, and an optional added
tone. From them it produces two things: a chord symbol such as
`E♭9sus4add13(#5)`, and the list of chord tones. Three functions make up its
core:

- `accidental_to_str` renders an accidental option of the form
  (`Natural(♮)`, `Sharp(#)`, `Flat(♭)`) as it is written in a note name
  (`""`, `#`, `-`) or, on request, as it is shown in a chord symbol (`♭` for
  the flat).
- `build_chord` starts from the caller's root note and goes through five
  stages: it appends the chord type's third and fifth (and, for a dominant
  chord, the minor seventh); it overwrites slot 1 for a suspension; it
  appends generic 7th, 9th, … up to the extension ceiling; it appends an
  added tone; and it writes an accidental over the tone at slot
  `int((degree - 1) / 2)`.
- `name_chord` builds the symbol piece by piece, fills in the argument
  dictionary for `build_chord`, and, unless only the name is wanted, builds
  the chord.

The model is in four modules:

- `PyCore` (`PyCore.dfy`) covers the Python built-ins whose edge cases the
  core depends on:
  - list and string indexing with negative positions and IndexError;
  - slicing with clamped bounds;
  - `int()` of a decimal string, which raises ValueError on anything else;
  - `str()` of an int;
  - `int(x / 2)`, which truncates toward zero.

  These come with round-trip lemmas between `int()` and `str()`.
- `Accidentals` (`Accidentals.dfy`) is `accidental_to_str`.
- `ChordBuilder` (`ChordBuilder.dfy`) is `build_chord`, in two layers.
  - The value-level layer, `BuildTones`, goes stage by stage and carries
    the lemmas: the layout of every slot, the failure condition, the
    accidentals, and what a suspension and an alteration may change.
  - The imperative layer, `BuildChord`, keeps the source's note objects and
    the root's aliasing.
    - `Note` is a class whose accidental is updated in place.
    - The list is a `seq<Note>` whose slot 0 is the caller's own root
      object.
    - The extension stage is the source's `while` loop.
    - `BuildChord` is proved to produce notes that show exactly the tones
      `BuildTones` describes.
- `ChordNamer` (`ChordNamer.dfy`) is `name_chord`.
  - `NameChordSpec` is its value-level specification.
  - `NameChord` is the method that accumulates the symbol with successive
    appends, as the source does, and is proved equal to that
    specification.
  - Lemmas relate the symbol to the builder's arguments, and say what the
    form's own option lists guarantee (`FromForm`).

Pitch spelling belongs to the music library, so it is kept abstract. A tone
records how it was derived from the chord root, and which accidental an
alteration wrote over it:

- `Named(s)` is a note built from its name;
- `Semis(k)` is the root transposed by `k` semitones;
- `Generic(n)` is the root transposed by the generic interval `n`.

Python exceptions become `Err(IndexError)` or `Err(ValueError)` results.

Two behaviours of the code are kept as they are:

- The list's slot 0 is the caller's root note object, so an alteration
  whose slot resolves to 0 writes over the caller's note. That is any
  degree from 0 to 2, and a negative degree that wraps around to slot 0
  (degree -5 on a triad). `RootAliasing` exhibits this.
- There is no range guard on the alteration slot. An out-of-range slot
  raises IndexError, and a negative one counts from the end of the list.
  `BuildFailure`, `TriadAlterationRange` and `LowDegreesWrap` state this.

## Model

| member | source | states |
|---|---|---|
| PyCore.PyIndex | chord_maker.py:91 | a list index is valid exactly when it lies in [-n, n); a negative index counts from the end |
| PyCore.PyAt | chord_maker.py:146 | `s[i]` raises IndexError exactly when i is outside [-len, len); otherwise it reads `s[i]`, or `s[len + i]` for a negative i |
| PyCore.SliceBound | chord_maker.py:141-142 | a slice bound resolves into [0, len]: in-range bounds are kept, negative ones count from the end, and bounds past either end are clamped |
| PyCore.PySlice | chord_maker.py:156 | `s[lo:hi]` never raises; it is the run of s between the resolved bounds, and it is empty when they cross |
| PyCore.DropSuffix | chord_maker.py:141-142 | `s[0:-k]` followed by the last k characters is s again; for a string shorter than k it is "" |
| PyCore.TruncHalf | chord_maker.py:91 | `int(x / 2)` truncates toward zero: for x ≥ 0, 2q ≤ x < 2q+2; for x < 0, 2q-2 < x ≤ 2q ≤ 0 |
| PyCore.DigitsValue | chord_maker.py:146 | a single digit stands for its own value |
| PyCore.NatToDecimal | chord_maker.py:151 | `str(n)` is a canonical numeral (no leading zero); it has one digit exactly when n < 10 |
| PyCore.IntToDecimal | chord_maker.py:155 | `str(i)` starts with '-' exactly when i < 0; the digits, after the sign if any, form a canonical numeral |
| PyCore.PyInt | chord_maker.py:142 | `int(s)` succeeds exactly on digits, optionally after one sign; it gives their decimal value, negated after '-'; anything else raises ValueError |
| PyCore.DecimalRoundTrip | chord_maker.py:151 | reading back what `str(n)` wrote gives n |
| PyCore.LeadingDigitPositive | chord_maker.py:142 | a numeral whose first digit is nonzero stands for a positive number |
| PyCore.DigitsRoundTrip | chord_maker.py:141-142 | writing out the value of a canonical numeral gives the numeral back |
| PyCore.PyIntOfDecimal | chord_maker.py:151-152 | `int(str(i)) == i` for every int, negatives included |
| PyCore.DecimalOfPyInt | chord_maker.py:141-142 | `str(int(s)) == s` for every canonical numeral s |
| Accidentals.AccidentalToStr | chord_maker.py:10-28 | the result is "#" exactly for the sharp option; "-" exactly for the flat option in compact form; "♭" exactly for the flat option in display form; "" for every other input |
| Accidentals.RenderingsDifferOnlyOnFlat | chord_maker.py:21-25 | the compact and display renderings differ exactly on the flat option |
| ChordBuilder.Note.constructor | chord_maker.py:109 | a new note has the given pitch and no accidental written over it |
| ChordBuilder.QualityOffsets | chord_maker.py:42-62 | dominant appends 3 tones; major, minor, dim and aug append 2; any other type appends none; the third is 3 or 4 semitones by type; the fifth is 6, 7 or 8; the dominant's seventh is 10; the offsets strictly increase |
| ChordBuilder.SemisTones | chord_maker.py:44-62 | one plain transposition per semitone offset, in order |
| ChordBuilder.GenericTones | chord_maker.py:82 | one plain generic transposition per interval, in order |
| ChordBuilder.Skeleton | chord_maker.py:39-62 | the list after the type stage: the root in slot 0, then one plain transposition per offset of the type |
| ChordBuilder.Suspend | chord_maker.py:65-76 | sus2 or sus4 on a list without slot 1 raises IndexError; otherwise only slot 1 changes, to +2 or +5 semitones; any other value leaves the list alone |
| ChordBuilder.ExtensionRounds | chord_maker.py:79-83 | the loop runs no round below 7; after k rounds the counter 7+2k has just passed the ceiling |
| ChordBuilder.ExtensionDegrees | chord_maker.py:79-83 | round i appends the generic interval 7+2i, for as many rounds as the loop runs |
| ChordBuilder.AddTone | chord_maker.py:86-87 | a nonzero added degree puts one plain generic tone after the list, which is otherwise kept; 0 adds nothing |
| ChordBuilder.AlterSlot | chord_maker.py:91 | the slot of degree d is `int((d-1)/2)`: odd degrees map to (d-1)/2 (1→0, 3→1, 5→2, …); even ones round toward zero; degrees below 1 give slots ≤ 0 |
| ChordBuilder.Alter | chord_maker.py:89-91 | ("", 0) leaves the list alone; otherwise it fails with IndexError exactly when slot `int((d-1)/2)` is not a valid Python index; on success only that slot's accidental changes; no pitch changes |
| ChordBuilder.BuildTones | chord_maker.py:39-91 | the tones `build_chord` produces; its only error is IndexError; a built chord has the tone count of its stages and starts with the root's pitch |
| ChordBuilder.OddsFromSevenAt | chord_maker.py:79-83 | k rounds of the extension loop append 7, 9, …, 7+2(k-1) |
| ChordBuilder.ExtensionDegreesExact | chord_maker.py:79-83 | the extension stage appends exactly the odd intervals from 7 up to the ceiling, in strictly ascending order |
| ChordBuilder.ExtensionStep | chord_maker.py:79-83 | raising an odd ceiling of at least 5 by 2 appends exactly one tone, the new ceiling |
| ChordBuilder.ExtensionSizes | chord_maker.py:79-83 | ceilings 5, 7, 9, 11 and 13 append [], [7], [7,9], [7,9,11] and [7,9,11,13] |
| ChordBuilder.BuildFailure | chord_maker.py:65-91 | building fails exactly when a suspension meets an unknown chord type, or when an alteration slot is outside the tones built so far; the error is IndexError |
| ChordBuilder.SuspendedSkeleton | chord_maker.py:39-76 | after the suspension the list holds the root, the slot 1 offset, then the type's remaining offsets |
| ChordBuilder.UnalteredHead | chord_maker.py:39-76 | before the alteration, slot 0 is the root, slot 1 is the third or its suspension, and the type's other offsets follow |
| ChordBuilder.UnalteredTail | chord_maker.py:78-87 | before the alteration, the generic extensions follow the type's tones in order, and a nonzero added tone comes last |
| ChordBuilder.UnalteredAccidentals | chord_maker.py:39-87 | before the alteration, only the root carries an accidental; every transposition is plain |
| ChordBuilder.BuildLayout | chord_maker.py:39-91 | the pitch of every slot of a built chord, and its length: 1 + type tones + extensions + added tone |
| ChordBuilder.BuildAccidentals | chord_maker.py:89-91 | only the alteration slot carries the written accidental; the root keeps its own accidental; every other tone has none |
| ChordBuilder.SuspensionOnlySlotOne | chord_maker.py:65-76 | on a known chord type, a suspension does not change whether building succeeds, and changes only slot 1's pitch |
| ChordBuilder.AlterationOnlyAccidental | chord_maker.py:89-91 | an alteration changes no pitch and no slot other than the alteration slot |
| ChordBuilder.BuiltAs | chord_maker.py:39-93 | proof device for the worked chords: two tone lists that agree on every slot's pitch and accidental are equal (datatype extensionality), applied to a built chord |
| ChordBuilder.PlainChords | chord_maker.py:39-62 | the exact tones of the major, minor, dim and aug triads and of the four-tone dominant chord; an unknown type leaves the root alone |
| ChordBuilder.PlainChordOf | chord_maker.py:39-62 | with no suspension, extension, alteration or added tone, the chord is the root followed by the type's offsets |
| ChordBuilder.DominantSeventhTwice | chord_maker.py:43-83 | a dominant 7th holds both the +10 seventh and a generic 7th |
| ChordBuilder.DominantAlterationMisses | chord_maker.py:79-91 | altering degree 9 of a dominant 9th writes to the generic 7th; the 9th keeps its spelling |
| ChordBuilder.TriadAlterationRange | chord_maker.py:48-91 | on a major, minor, dim or aug triad, altering the 5th writes to slot 2; altering the 7th or the 9th raises IndexError |
| ChordBuilder.LowDegreesWrap | chord_maker.py:89-91 | degree 0 alters the root; degree -1 alters the last tone |
| ChordBuilder.AppendQuality | chord_maker.py:42-62 | appends new note objects, which show the type's transpositions; earlier notes are kept |
| ChordBuilder.AppendTwo | chord_maker.py:48-62 | appends two new notes showing the third and the fifth; earlier notes are kept |
| ChordBuilder.AppendThree | chord_maker.py:43-46 | appends three new notes showing the third, the fifth and the seventh; earlier notes are kept |
| ChordBuilder.Extend | chord_maker.py:78-83 | the loop appends new notes showing exactly the extension intervals; earlier notes are kept |
| ChordBuilder.SuspendNotes | chord_maker.py:64-76 | it succeeds exactly when the value-level suspension does; only slot 1 is replaced, by a new note |
| ChordBuilder.AddNote | chord_maker.py:85-87 | a nonzero added degree appends one new note showing that generic transposition; earlier notes are kept |
| ChordBuilder.AlterNotes | chord_maker.py:89-91 | the accidental is written in place; it fails exactly when the value-level alteration does, and then changes nothing |
| ChordBuilder.BuildChord | chord_maker.py:30-93 | it succeeds or fails as BuildTones does on the root as it was, with the same error; its notes show BuildTones' tones; slot 0 is the caller's root object; the other notes are new; on failure the root keeps its accidental |
| ChordBuilder.RootAliasing | chord_maker.py:39-91 | altering degree 1 of a major triad writes the accidental onto the caller's root note |
| ChordNamer.QualitySuffix | chord_maker.py:117-136 | Major gives "maj", Minor "m", Augmented "+" and Diminished "dim", each exactly; Dominant and unknown qualities give "" |
| ChordNamer.QualityKind | chord_maker.py:108-136 | Minor, Dominant, Augmented and Diminished map exactly to "minor", "dominant", "aug" and "dim"; Major and any unknown quality give the initial "major" |
| ChordNamer.SizeText | chord_maker.py:138-141 | a triad adds nothing to the symbol; any other size adds itself without its last two characters |
| ChordNamer.SusText | chord_maker.py:144-145 | "No sus" adds nothing; any other option is appended as it is |
| ChordNamer.AddText | chord_maker.py:150-151 | "None" adds nothing; a degree adds "add" followed by a numeral that `int()` reads back as the degree |
| ChordNamer.AddDegree | chord_maker.py:150-152 | the dictionary's `add` is 0 for "None" and the degree otherwise; whenever the builder gets a nonzero added tone, the symbol shows an "add" piece |
| ChordNamer.AlterText | chord_maker.py:154-155 | "None" adds nothing; a degree adds "(", the option's character at position -2, `str(degree)` and ")"; it raises IndexError exactly when the option is shorter than 2 characters |
| ChordNamer.Symbol | chord_maker.py:106-155 | the symbol fails exactly when an alteration is picked with an accidental option shorter than 2 characters, raising IndexError |
| ChordNamer.Extension | chord_maker.py:138-142 | a triad gives ceiling 5; any other size succeeds exactly when its text without the last two characters parses, else ValueError |
| ChordNamer.Suspension | chord_maker.py:144-148 | "No sus" gives 0; otherwise the last character's digit value; an empty string raises IndexError and a non-digit ValueError |
| ChordNamer.AlterPair | chord_maker.py:154-156 | "None" gives ("", 0); a degree gives the option without its last three characters, with the degree; the pair equals ("", 0) exactly for "None" or for degree 0 with an option of at most 3 characters |
| ChordNamer.Parts | chord_maker.py:108-148 | the dictionary fails exactly when the size or the suspension fails to parse, with the size's error first; its chord type is one the builder knows |
| ChordNamer.SymbolAndParts | chord_maker.py:106-156 | succeeds exactly when both the dictionary and the symbol do; dictionary errors come before the symbol's IndexError |
| ChordNamer.NameChordSpec | chord_maker.py:95-169 | the name alone fails exactly when the symbol or the dictionary does; the symbol is the same in both modes; a built chord has its stages' tone count and starts with the root note's pitch |
| ChordNamer.SymbolShape | chord_maker.py:106-155 | the symbol starts with the root and its display accidental; with an alteration it ends in ')' |
| ChordNamer.SizeDigitsAgree | chord_maker.py:138-142 | when the size digits are a canonical numeral, the symbol shows `str()` of the extension ceiling handed to the builder (a size such as "07th" shows "07" while the builder gets 7) |
| ChordNamer.SuspensionDigit | chord_maker.py:144-148 | a parsed suspension is its string's last character, a digit from 0 to 9 |
| ChordNamer.FormAccidentals | chord_maker.py:154-156 | for the three options, position -2 holds the glyph and `[0:-3]` holds the name; the glyph differs from the display accidental only for Natural |
| ChordNamer.FormExtension | chord_maker.py:138-142 | the form's sizes give ceilings 5, 7, 9, 11 and 13 |
| ChordNamer.FormSuspension | chord_maker.py:144-148 | the form's suspensions give 0, 2 and 4 |
| ChordNamer.FormAlteration | chord_maker.py:154-156 | the form's "None" gives ("", 0); a degree gives "Natural", "Sharp" or "Flat" with that degree |
| ChordNamer.FormParts | chord_maker.py:106-156 | every form selection yields a symbol and a filled-in dictionary |
| ChordNamer.FormArguments | chord_maker.py:108-156 | the dictionary from a form selection holds a known chord type, suspension 0/2/4, ceiling 5–13, a real alteration exactly when one was picked, and add 0/9/11/13 |
| ChordNamer.FormFailure | chord_maker.py:158-169 | for form selections the name alone never fails; the full call fails, with IndexError, exactly when the altered degree's slot is past the tones built |
| ChordNamer.NameOnlyAgrees | chord_maker.py:158-169 | the name returned alone is the name returned with the chord |
| ChordNamer.CMajorTriad | chord_maker.py:95-169 | C major triad gives "Cmaj" and the tones C, +4 and +7 |
| ChordNamer.CDominantTriad | chord_maker.py:95-169 | C dominant triad gives "C" and four tones |
| ChordNamer.CFlatMinorSus2 | chord_maker.py:95-169 | C♭ minor sus2 gives "C♭msus2", root note "C-", and +2 in place of the third |
| ChordNamer.CFlatMinorSus2Symbol | chord_maker.py:106-156 | the symbol "C♭msus2" and the dictionary for that selection |
| ChordNamer.EFlatNinthSymbol | chord_maker.py:106-156 | the symbol "E♭9sus4add13(#5)" and the dictionary for that selection |
| ChordNamer.EFlatNinthParts | chord_maker.py:108-156 | the dictionary for that selection: root "E-", dominant, sus 4, ceiling 9, ("Sharp", 5), add 13 |
| ChordNamer.EFlatNinthName | chord_maker.py:106-155 | the symbol for that selection is "E♭9sus4add13(#5)" |
| ChordNamer.EFlatNinthPieces | chord_maker.py:107-155 | the six pieces of that symbol: "♭", "", "9", "sus4", "add13" and "(#5)" |
| ChordNamer.EFlatNinthSus4Add13Sharp5 | chord_maker.py:95-169 | that chord's seven tones, with the sharp on the fifth |
| ChordNamer.NameQuality | chord_maker.py:117-136 | appends the quality's suffix and sets the chord type |
| ChordNamer.BuildName | chord_maker.py:106-156 | the accumulated symbol and dictionary are SymbolAndParts of the selection, errors included |
| ChordNamer.NameChord | chord_maker.py:95-169 | returns or raises what NameChordSpec describes; the built notes show its tones |

## Left out

- `main` and `inject_data` (chord_maker.py:171-266) are the user interface. This covers the web form, the history panel, and the check that every field is filled in. They are not modelled, because they are I/O. Their option lists are stated as the predicate `ChordNamer.FromForm`.
- The console imports are not modelled; the core never uses them.
- The music library's note spelling, transposition, key and chord objects are left abstract. Pitches are the `Pitch` derivations, not note names.
- ChordBuilder.Alter: the library's accidental setter (chord_maker.py:91) accepts only accidental names it knows; the model accepts any string, including the "" that AlterPair gives for an option of 3 characters or fewer, where the library would raise. That error path is not modelled.
  - `chord.Chord(ch)` is modelled as the list of notes it wraps.
  - The unused `key.Key(root.pitch)` at line 38 is left out.
  - Joining the pitch names for display (line 195) is left out.
- ChordNamer.NameChord: the source creates the root note at line 109, before the size and the suspension are parsed and even when only the name is wanted. The model creates it just before building and assumes that creating a note never fails. A root string the music library rejects would raise at line 109; the model does not capture that.
- PyCore.PyInt: Python's `int()` also accepts surrounding whitespace, underscores between digits and non-ASCII digits. The model accepts only an optional sign followed by ASCII digits. The form's options never contain the extra forms.
- PyCore.TruncHalf: `int((d - 1) / 2)` goes through a float, so it rounds for |d| beyond 2^53, and it raises OverflowError once the quotient no longer fits a float (|d| above about 2^1025). The model computes the exact truncated quotient and has no such error path.
- ChordNamer.Pick: `alter` and `add` may be the text "None" or an int. Any other string is not modelled. The model covers "None" and ints, which are the form's only values.
