/** `build_chord`: the list of chord tones built from a root note, a chord
    type, a suspension, an extension ceiling, one alteration and one added
    tone.

    Pitch spelling is the music library's business and is kept abstract: a tone
    records how it was derived from the chord root (a fixed number of
    semitones, or a generic interval such as "a 9th"), and the accidental that
    an alteration wrote over it, if any. Notes are objects, as in the source:
    the first tone of the list is the caller's root note itself, so altering
    degree 1 changes the caller's note. */
module ChordBuilder {
  import opened PyCore

  /** How a note's pitch was obtained. */
  datatype Pitch =
    | Named(name: string)  // a note built from its name, such as "C#" or "B-"
    | Semis(k: int)        // the chord root transposed by k semitones
    | Generic(n: int)      // the chord root transposed by the generic interval n

  /** What can be observed of a note: its pitch and the accidental an
      alteration wrote over it (None: the spelling the pitch came with). */
  datatype Tone = Tone(pitch: Pitch, accidental: Option<string>)

  class Note {
    const pitch: Pitch
    var accidental: Option<string>

    constructor (p: Pitch)
      ensures pitch == p && accidental == None
    {
      pitch := p;
      accidental := None;
    }

    function View(): Tone
      reads this
    {
      Tone(pitch, accidental)
    }
  }

  /** The notes show the tones, in order. */
  ghost predicate Shows(ns: seq<Note>, ts: seq<Tone>)
    reads ns
  {
    |ns| == |ts| && forall i :: 0 <= i < |ns| ==> ns[i].View() == ts[i]
  }

  /** A freshly transposed note: no accidental written over it. */
  function Plain(p: Pitch): Tone {
    Tone(p, None)
  }

  // ---------------------------------------------------------------------
  // The stages of build_chord, on values

  /** The semitone offsets appended after the root for each chord type. */
  function QualityOffsets(kind: string): (r: seq<int>)
    ensures |r| == (if kind == "dominant" then 3
                    else if kind in {"major", "minor", "dim", "aug"} then 2
                    else 0)
    ensures |r| >= 2 ==> (r[0] == 3 <==> kind in {"minor", "dim"}) && (r[0] == 4 <==> kind in {"dominant", "major", "aug"})
    ensures |r| >= 2 ==> (r[1] == 6 <==> kind == "dim") && (r[1] == 8 <==> kind == "aug")
    ensures |r| >= 2 ==> (r[1] == 7 <==> kind in {"dominant", "major", "minor"})
    ensures |r| == 3 ==> r[2] == 10
    ensures forall i, j :: 0 <= i < j < |r| ==> 0 < r[i] < r[j]
  {
    match kind
    case "dominant" => [4, 7, 10]
    case "major" => [4, 7]
    case "minor" => [3, 7]
    case "dim" => [3, 6]
    case "aug" => [4, 8]
    case _ => []
  }

  function SemisTones(ks: seq<int>): (r: seq<Tone>)
    ensures |r| == |ks| && forall i :: 0 <= i < |ks| ==> r[i] == Plain(Semis(ks[i]))
  {
    seq(|ks|, i requires 0 <= i < |ks| => Plain(Semis(ks[i])))
  }

  function GenericTones(ns: seq<int>): (r: seq<Tone>)
    ensures |r| == |ns| && forall i :: 0 <= i < |ns| ==> r[i] == Plain(Generic(ns[i]))
  {
    seq(|ns|, i requires 0 <= i < |ns| => Plain(Generic(ns[i])))
  }

  /** The root followed by the chord type's transpositions. */
  function Skeleton(root: Tone, kind: string): (r: seq<Tone>)
    ensures |r| == 1 + |QualityOffsets(kind)| && r[0] == root
    ensures forall i :: 1 <= i < |r| ==> r[i] == Plain(Semis(QualityOffsets(kind)[i - 1]))
  {
    [root] + SemisTones(QualityOffsets(kind))
  }

  /** Suspension overwrites slot 1 with the root raised by 2 or 5 semitones;
      on a list without a slot 1 Python raises IndexError. */
  function Suspend(ch: seq<Tone>, suspended: int): (r: Result<seq<Tone>>)
    ensures r.Err? <==> (suspended == 2 || suspended == 4) && |ch| < 2
    ensures r.Err? ==> r.error == IndexError
    ensures r.Ok? ==> |r.value| == |ch|
    ensures r.Ok? ==> forall i :: 0 <= i < |ch| && i != 1 ==> r.value[i] == ch[i]
    ensures r.Ok? && suspended == 2 ==> r.value[1] == Plain(Semis(2))
    ensures r.Ok? && suspended == 4 ==> r.value[1] == Plain(Semis(5))
    ensures suspended != 2 && suspended != 4 ==> r == Ok(ch)
  {
    match suspended
    case 0 => Ok(ch)
    case 2 => if |ch| < 2 then Err(IndexError) else Ok(ch[1 := Plain(Semis(2))])
    case 4 => if |ch| < 2 then Err(IndexError) else Ok(ch[1 := Plain(Semis(5))])
    case _ => Ok(ch)
  }

  /** The generic intervals 7, 9, ..., 7 + 2(k-1) that k rounds of the
      extension loop append. */
  function OddsFromSeven(k: nat): seq<int> {
    if k == 0 then [] else OddsFromSeven(k - 1) + [7 + 2 * (k - 1)]
  }

  /** How many rounds the extension loop runs for a ceiling. */
  function ExtensionRounds(extended: int): (k: nat)
    ensures extended < 7 ==> k == 0
    ensures k >= 1 ==> 7 + 2 * (k - 1) <= extended < 7 + 2 * k
    ensures extended < 7 + 2 * k
  {
    if extended < 7 then 0 else (extended - 7) / 2 + 1
  }

  /** The generic intervals the extension stage appends, in order. */
  function ExtensionDegrees(extended: int): (r: seq<int>)
    ensures |r| == ExtensionRounds(extended)
    ensures forall i :: 0 <= i < |r| ==> r[i] == 7 + 2 * i
  {
    OddsFromSevenAt(ExtensionRounds(extended));
    OddsFromSeven(ExtensionRounds(extended))
  }

  /** An added tone is appended at the end unless `add` is 0. */
  function AddTone(ch: seq<Tone>, add: int): (r: seq<Tone>)
    ensures |r| == |ch| + (if add != 0 then 1 else 0)
    ensures r[..|ch|] == ch
    ensures add != 0 ==> r[|ch|] == Plain(Generic(add))
  {
    if add != 0 then ch + [Plain(Generic(add))] else ch
  }

  /** The list position `int((degree - 1) / 2)` that an alteration writes to. */
  function AlterSlot(degree: int): (slot: int)
    ensures degree >= 1 ==> 0 <= slot && 2 * slot + 1 <= degree <= 2 * slot + 2
    ensures degree < 1 ==> 2 * slot - 1 < degree <= 2 * slot + 1 && slot <= 0
    ensures degree % 2 == 1 ==> degree == 2 * slot + 1
  {
    TruncHalf(degree - 1)
  }

  /** The alteration writes its accidental over the tone at the alteration
      slot, which Python resolves like any list index (negative positions
      count from the end); ("", 0) means no alteration. */
  function Alter(ch: seq<Tone>, alter: (string, int)): (r: Result<seq<Tone>>)
    ensures alter == ("", 0) ==> r == Ok(ch)
    ensures alter != ("", 0) ==> (r.Ok? <==> PyIndex(AlterSlot(alter.1), |ch|).Some?)
    ensures r.Err? ==> r.error == IndexError
    ensures r.Ok? ==> |r.value| == |ch|
    ensures r.Ok? ==> forall j :: 0 <= j < |ch| ==> r.value[j].pitch == ch[j].pitch
    ensures r.Ok? && alter != ("", 0) ==>
              var i := PyIndex(AlterSlot(alter.1), |ch|).value;
              r.value[i].accidental == Some(alter.0) &&
              forall j :: 0 <= j < |ch| && j != i ==> r.value[j] == ch[j]
  {
    if alter == ("", 0) then Ok(ch)
    else match PyIndex(AlterSlot(alter.1), |ch|)
      case None => Err(IndexError)
      case Some(i) => Ok(ch[i := ch[i].(accidental := Some(alter.0))])
  }

  /** The tones `build_chord` produces, stage by stage. */
  function BuildTones(root: Tone, kind: string, suspended: int, extended: int,
                      alter: (string, int), add: int): (r: Result<seq<Tone>>)
    ensures r.Err? ==> r.error == IndexError
    ensures r.Ok? ==> |r.value| == ToneCount(kind, extended, add) && r.value[0].pitch == root.pitch
  {
    match Suspend(Skeleton(root, kind), suspended)
    case Err(e) => Err(e)
    case Ok(ch) => Alter(AddTone(ch + GenericTones(ExtensionDegrees(extended)), add), alter)
  }

  // ---------------------------------------------------------------------
  // What the stages promise

  lemma {:induction false} OddsFromSevenAt(k: nat)
    ensures |OddsFromSeven(k)| == k
    ensures forall i :: 0 <= i < k ==> OddsFromSeven(k)[i] == 7 + 2 * i
  {
    if k > 0 {
      OddsFromSevenAt(k - 1);
    }
  }

  /** The extension stage appends exactly the odd generic intervals from 7 up
      to the ceiling, in strictly ascending order. */
  lemma ExtensionDegreesExact(extended: int)
    ensures |ExtensionDegrees(extended)| == ExtensionRounds(extended)
    ensures forall x :: x in ExtensionDegrees(extended) <==> 7 <= x <= extended && x % 2 == 1
    ensures forall i, j :: 0 <= i < j < |ExtensionDegrees(extended)| ==>
              ExtensionDegrees(extended)[i] < ExtensionDegrees(extended)[j]
  {
    var d := ExtensionDegrees(extended);
    OddsFromSevenAt(ExtensionRounds(extended));
    forall x | 7 <= x <= extended && x % 2 == 1
      ensures x in d
    {
      assert d[(x - 7) / 2] == x;
    }
  }

  /** Raising an odd ceiling by one step appends exactly one tone: the new
      ceiling. */
  lemma ExtensionStep(extended: int)
    requires extended >= 5 && extended % 2 == 1
    ensures ExtensionDegrees(extended + 2) == ExtensionDegrees(extended) + [extended + 2]
  {
    assert ExtensionRounds(extended + 2) == ExtensionRounds(extended) + 1;
    assert 7 + 2 * ExtensionRounds(extended) == extended + 2;
  }

  /** The chord sizes the form offers: a triad (5) appends nothing; a 7th, 9th,
      11th and 13th append 1, 2, 3 and 4 tones. */
  lemma ExtensionSizes()
    ensures ExtensionDegrees(5) == []
    ensures ExtensionDegrees(7) == [7]
    ensures ExtensionDegrees(9) == [7, 9]
    ensures ExtensionDegrees(11) == [7, 9, 11]
    ensures ExtensionDegrees(13) == [7, 9, 11, 13]
  {
    ExtensionStep(5);
    ExtensionStep(7);
    ExtensionStep(9);
    ExtensionStep(11);
  }

  /** How many tones `build_chord` has built when it reaches the alteration. */
  function ToneCount(kind: string, extended: int, add: int): nat {
    1 + |QualityOffsets(kind)| + |ExtensionDegrees(extended)| + (if add != 0 then 1 else 0)
  }

  /** The list before the alteration stage, when the suspension succeeded. */
  function Unaltered(root: Tone, kind: string, suspended: int, extended: int, add: int): seq<Tone>
    requires Suspend(Skeleton(root, kind), suspended).Ok?
  {
    AddTone(Suspend(Skeleton(root, kind), suspended).value + GenericTones(ExtensionDegrees(extended)), add)
  }

  /** The semitone offset of slot 1 after the suspension stage. */
  function SlotOneOffset(kind: string, suspended: int): int
    requires |QualityOffsets(kind)| >= 1
  {
    if suspended == 2 then 2 else if suspended == 4 then 5 else QualityOffsets(kind)[0]
  }

  /** The list position the alteration writes to in a list of `n` tones, or
      -1 when there is no alteration or none is written. */
  function AlteredSlot(alter: (string, int), n: nat): int {
    if alter == ("", 0) then -1
    else match PyIndex(AlterSlot(alter.1), n)
      case Some(i) => i
      case None => -1
  }

  /** `build_chord` fails exactly when a suspension meets a chord type it does
      not know (there is no slot 1 to overwrite) or when the alteration slot is
      outside the list built so far; both raise IndexError. */
  lemma BuildFailure(root: Tone, kind: string, suspended: int, extended: int, alter: (string, int), add: int)
    ensures BuildTones(root, kind, suspended, extended, alter, add).Err? <==>
              ((suspended == 2 || suspended == 4) && QualityOffsets(kind) == []) ||
              (alter != ("", 0) && PyIndex(AlterSlot(alter.1), ToneCount(kind, extended, add)).None?)
    ensures BuildTones(root, kind, suspended, extended, alter, add).Err? ==>
              BuildTones(root, kind, suspended, extended, alter, add).error == IndexError
  {
    if Suspend(Skeleton(root, kind), suspended).Ok? {
      assert |Unaltered(root, kind, suspended, extended, add)| == ToneCount(kind, extended, add);
    }
  }

  /** The skeleton after the suspension stage, slot by slot. */
  lemma SuspendedSkeleton(root: Tone, kind: string, suspended: int)
    requires Suspend(Skeleton(root, kind), suspended).Ok?
    ensures var s, q := Suspend(Skeleton(root, kind), suspended).value, QualityOffsets(kind);
            |s| == 1 + |q| && s[0] == root &&
            (|q| >= 1 ==> s[1] == Plain(Semis(SlotOneOffset(kind, suspended)))) &&
            (forall i :: 2 <= i < |s| ==> s[i] == Plain(Semis(q[i - 1])))
  {
    var k := Skeleton(root, kind);
    var q := QualityOffsets(kind);
    assert k[0] == root;
    assert forall i :: 1 <= i < |k| ==> k[i] == Plain(Semis(q[i - 1]));
  }

  /** The list before the alteration stage, first part: the root, slot 1
      after the suspension, and the rest of the chord type's tones. */
  lemma UnalteredHead(root: Tone, kind: string, suspended: int, extended: int, add: int)
    requires Suspend(Skeleton(root, kind), suspended).Ok?
    ensures |Unaltered(root, kind, suspended, extended, add)| == ToneCount(kind, extended, add)
    ensures Unaltered(root, kind, suspended, extended, add)[0] == root
    ensures |QualityOffsets(kind)| >= 1 ==>
              Unaltered(root, kind, suspended, extended, add)[1] == Plain(Semis(SlotOneOffset(kind, suspended)))
    ensures forall i :: 2 <= i <= |QualityOffsets(kind)| ==>
              Unaltered(root, kind, suspended, extended, add)[i] == Plain(Semis(QualityOffsets(kind)[i - 1]))
  {
    SuspendedSkeleton(root, kind, suspended);
    var s := Suspend(Skeleton(root, kind), suspended).value;
    var u := Unaltered(root, kind, suspended, extended, add);
    assert forall i :: 0 <= i < |s| ==> u[i] == s[i];
  }

  /** The list before the alteration stage, second part: the generic
      extensions in ascending order, then the added tone. */
  lemma UnalteredTail(root: Tone, kind: string, suspended: int, extended: int, add: int)
    requires Suspend(Skeleton(root, kind), suspended).Ok?
    ensures |Unaltered(root, kind, suspended, extended, add)| == ToneCount(kind, extended, add)
    ensures forall k :: 0 <= k < |ExtensionDegrees(extended)| ==>
              Unaltered(root, kind, suspended, extended, add)[1 + |QualityOffsets(kind)| + k] == Plain(Generic(ExtensionDegrees(extended)[k]))
    ensures add != 0 ==>
              Unaltered(root, kind, suspended, extended, add)[ToneCount(kind, extended, add) - 1] == Plain(Generic(add))
  {
    var s := Suspend(Skeleton(root, kind), suspended).value;
    var g := GenericTones(ExtensionDegrees(extended));
    var u := Unaltered(root, kind, suspended, extended, add);
    assert |s| == 1 + |QualityOffsets(kind)|;
    assert forall k :: 0 <= k < |g| ==> u[|s| + k] == g[k];
  }

  /** Where every tone of a built chord comes from: the root, the type's
      third (or its suspension) and fifth, the dominant's +10, the generic
      extensions in ascending order, and the added tone last. */
  lemma BuildLayout(root: Tone, kind: string, suspended: int, extended: int, alter: (string, int), add: int)
    requires BuildTones(root, kind, suspended, extended, alter, add).Ok?
    ensures var t := BuildTones(root, kind, suspended, extended, alter, add).value;
            var q, e := QualityOffsets(kind), ExtensionDegrees(extended);
            |t| == ToneCount(kind, extended, add) &&
            t[0].pitch == root.pitch &&
            (|q| >= 1 ==> t[1].pitch == Semis(SlotOneOffset(kind, suspended))) &&
            (forall i :: 2 <= i <= |q| ==> t[i].pitch == Semis(q[i - 1])) &&
            (forall k :: 0 <= k < |e| ==> t[1 + |q| + k].pitch == Generic(e[k])) &&
            (add != 0 ==> t[|t| - 1].pitch == Generic(add))
  {
    UnalteredHead(root, kind, suspended, extended, add);
    UnalteredTail(root, kind, suspended, extended, add);
  }

  /** Accidentals of a built chord: only the tone at the alteration slot
      carries one written by `build_chord`; the root keeps its own, and every
      other tone is a plain transposition. */
  lemma BuildAccidentals(root: Tone, kind: string, suspended: int, extended: int, alter: (string, int), add: int)
    requires BuildTones(root, kind, suspended, extended, alter, add).Ok?
    ensures var t := BuildTones(root, kind, suspended, extended, alter, add).value;
            forall j :: 0 <= j < |t| ==>
              t[j].accidental == (if j == AlteredSlot(alter, |t|) then Some(alter.0)
                                  else if j == 0 then root.accidental else None)
  {
    var u := Unaltered(root, kind, suspended, extended, add);
    UnalteredAccidentals(root, kind, suspended, extended, add);
    var t := Alter(u, alter).value;
    forall j | 0 <= j < |t|
      ensures t[j].accidental == (if j == AlteredSlot(alter, |t|) then Some(alter.0)
                                  else if j == 0 then root.accidental else None)
    {
      if j != AlteredSlot(alter, |t|) {
        assert t[j] == u[j];
      }
    }
  }

  /** Before the alteration stage only the root carries an accidental. */
  lemma UnalteredAccidentals(root: Tone, kind: string, suspended: int, extended: int, add: int)
    requires Suspend(Skeleton(root, kind), suspended).Ok?
    ensures var u := Unaltered(root, kind, suspended, extended, add);
            forall j :: 0 <= j < |u| ==> u[j].accidental == (if j == 0 then root.accidental else None)
  {
    var u := Unaltered(root, kind, suspended, extended, add);
    var q := QualityOffsets(kind);
    UnalteredHead(root, kind, suspended, extended, add);
    UnalteredTail(root, kind, suspended, extended, add);
    forall j | 0 <= j < |u|
      ensures u[j].accidental == (if j == 0 then root.accidental else None)
    {
      if j > |q| && j < 1 + |q| + |ExtensionDegrees(extended)| {
        assert u[1 + |q| + (j - 1 - |q|)] == Plain(Generic(ExtensionDegrees(extended)[j - 1 - |q|]));
      }
    }
  }

  /** A suspension changes only slot 1 of the finished chord: with the same
      other arguments, the chord without suspension succeeds just as often
      and agrees on every other slot. */
  lemma SuspensionOnlySlotOne(root: Tone, kind: string, suspended: int, extended: int, alter: (string, int), add: int)
    requires suspended == 2 || suspended == 4
    requires QualityOffsets(kind) != []
    ensures BuildTones(root, kind, suspended, extended, alter, add).Ok? <==>
            BuildTones(root, kind, 0, extended, alter, add).Ok?
    ensures BuildTones(root, kind, suspended, extended, alter, add).Ok? ==>
              var t, plain := BuildTones(root, kind, suspended, extended, alter, add).value,
                              BuildTones(root, kind, 0, extended, alter, add).value;
              |t| == |plain| &&
              t[1].pitch == Semis(if suspended == 2 then 2 else 5) &&
              t[1].accidental == plain[1].accidental &&
              forall j :: 0 <= j < |t| && j != 1 ==> t[j] == plain[j]
  {
    BuildFailure(root, kind, suspended, extended, alter, add);
    BuildFailure(root, kind, 0, extended, alter, add);
    if BuildTones(root, kind, suspended, extended, alter, add).Ok? {
      var t, plain := BuildTones(root, kind, suspended, extended, alter, add).value,
                      BuildTones(root, kind, 0, extended, alter, add).value;
      BuildLayout(root, kind, suspended, extended, alter, add);
      BuildLayout(root, kind, 0, extended, alter, add);
      BuildAccidentals(root, kind, suspended, extended, alter, add);
      BuildAccidentals(root, kind, 0, extended, alter, add);
      assert |t| == |plain|;
      forall j | 0 <= j < |t| && j != 1
        ensures t[j] == plain[j]
      {
        assert t[j].pitch == plain[j].pitch;
        assert t[j].accidental == plain[j].accidental;
      }
    }
  }

  /** An alteration touches no pitch and no other slot: compared with the same
      chord built without alteration, only the accidental at the alteration
      slot differs. */
  lemma AlterationOnlyAccidental(root: Tone, kind: string, suspended: int, extended: int, alter: (string, int), add: int)
    requires BuildTones(root, kind, suspended, extended, alter, add).Ok?
    ensures BuildTones(root, kind, suspended, extended, ("", 0), add).Ok?
    ensures var t, plain := BuildTones(root, kind, suspended, extended, alter, add).value,
                            BuildTones(root, kind, suspended, extended, ("", 0), add).value;
            |t| == |plain| &&
            (forall j :: 0 <= j < |t| ==> t[j].pitch == plain[j].pitch) &&
            (forall j :: 0 <= j < |t| && j != AlteredSlot(alter, |t|) ==> t[j] == plain[j])
  {
  }

  // ---------------------------------------------------------------------
  // Particular chords, including the source's quirks

  /** A built chord equals the list its layout and accidentals describe. */
  lemma BuiltAs(root: Tone, kind: string, suspended: int, extended: int, alter: (string, int), add: int,
                expected: seq<Tone>)
    requires BuildTones(root, kind, suspended, extended, alter, add).Ok?
    requires |expected| == |BuildTones(root, kind, suspended, extended, alter, add).value|
    requires forall j :: 0 <= j < |expected| ==>
               expected[j].pitch == BuildTones(root, kind, suspended, extended, alter, add).value[j].pitch
    requires forall j :: 0 <= j < |expected| ==>
               expected[j].accidental == BuildTones(root, kind, suspended, extended, alter, add).value[j].accidental
    ensures BuildTones(root, kind, suspended, extended, alter, add) == Ok(expected)
  {
    var t := BuildTones(root, kind, suspended, extended, alter, add).value;
    forall j | 0 <= j < |t|
      ensures t[j] == expected[j]
    {
      assert t[j] == Tone(t[j].pitch, t[j].accidental);
      assert expected[j] == Tone(expected[j].pitch, expected[j].accidental);
    }
    assert t == expected;
  }

  /** Chords without suspension, extension, alteration or added tone: the root
      followed by the type's offsets; a dominant chord has four tones, and an
      unknown type (the builder's types are lower-case) leaves the root alone. */
  lemma PlainChords(root: Tone)
    ensures BuildTones(root, "dominant", 0, 5, ("", 0), 0) == Ok([root, Plain(Semis(4)), Plain(Semis(7)), Plain(Semis(10))])
    ensures BuildTones(root, "major", 0, 5, ("", 0), 0) == Ok([root, Plain(Semis(4)), Plain(Semis(7))])
    ensures BuildTones(root, "minor", 0, 5, ("", 0), 0) == Ok([root, Plain(Semis(3)), Plain(Semis(7))])
    ensures BuildTones(root, "dim", 0, 5, ("", 0), 0) == Ok([root, Plain(Semis(3)), Plain(Semis(6))])
    ensures BuildTones(root, "aug", 0, 5, ("", 0), 0) == Ok([root, Plain(Semis(4)), Plain(Semis(8))])
    ensures BuildTones(root, "Major", 0, 5, ("", 0), 0) == Ok([root])
  {
    ExtensionSizes();
    PlainChordOf(root, "dominant", [root, Plain(Semis(4)), Plain(Semis(7)), Plain(Semis(10))]);
    PlainChordOf(root, "major", [root, Plain(Semis(4)), Plain(Semis(7))]);
    PlainChordOf(root, "minor", [root, Plain(Semis(3)), Plain(Semis(7))]);
    PlainChordOf(root, "dim", [root, Plain(Semis(3)), Plain(Semis(6))]);
    PlainChordOf(root, "aug", [root, Plain(Semis(4)), Plain(Semis(8))]);
    PlainChordOf(root, "Major", [root]);
  }

  lemma PlainChordOf(root: Tone, kind: string, expected: seq<Tone>)
    requires |expected| == 1 + |QualityOffsets(kind)| && expected[0] == root
    requires forall i :: 1 <= i < |expected| ==> expected[i] == Plain(Semis(QualityOffsets(kind)[i - 1]))
    ensures BuildTones(root, kind, 0, 5, ("", 0), 0) == Ok(expected)
  {
    ExtensionSizes();
    BuildFailure(root, kind, 0, 5, ("", 0), 0);
    BuildLayout(root, kind, 0, 5, ("", 0), 0);
    BuildAccidentals(root, kind, 0, 5, ("", 0), 0);
    BuiltAs(root, kind, 0, 5, ("", 0), 0, expected);
  }

  /** A dominant 7th holds the +10 seventh from the type and a second,
      generic 7th from the extension. */
  lemma DominantSeventhTwice(root: Tone)
    ensures BuildTones(root, "dominant", 0, 7, ("", 0), 0) ==
            Ok([root, Plain(Semis(4)), Plain(Semis(7)), Plain(Semis(10)), Plain(Generic(7))])
  {
    ExtensionSizes();
    BuildFailure(root, "dominant", 0, 7, ("", 0), 0);
    BuildLayout(root, "dominant", 0, 7, ("", 0), 0);
    BuildAccidentals(root, "dominant", 0, 7, ("", 0), 0);
    BuiltAs(root, "dominant", 0, 7, ("", 0), 0,
            [root, Plain(Semis(4)), Plain(Semis(7)), Plain(Semis(10)), Plain(Generic(7))]);
  }

  /** On a dominant 9th, altering degree 9 writes to slot 4, which holds the
      generic 7th; the 9th itself keeps its spelling. */
  lemma DominantAlterationMisses(root: Tone, accidental: string)
    ensures BuildTones(root, "dominant", 0, 9, (accidental, 9), 0) ==
            Ok([root, Plain(Semis(4)), Plain(Semis(7)), Plain(Semis(10)),
                Tone(Generic(7), Some(accidental)), Plain(Generic(9))])
  {
    ExtensionSizes();
    assert AlterSlot(9) == 4;
    BuildFailure(root, "dominant", 0, 9, (accidental, 9), 0);
    BuildLayout(root, "dominant", 0, 9, (accidental, 9), 0);
    BuildAccidentals(root, "dominant", 0, 9, (accidental, 9), 0);
    BuiltAs(root, "dominant", 0, 9, (accidental, 9), 0,
            [root, Plain(Semis(4)), Plain(Semis(7)), Plain(Semis(10)),
             Tone(Generic(7), Some(accidental)), Plain(Generic(9))]);
  }

  /** On a triad of the four non-dominant types, altering the 5th writes to
      slot 2, while altering the 7th or 9th is out of range. */
  lemma TriadAlterationRange(root: Tone, kind: string, accidental: string)
    requires kind in {"major", "minor", "dim", "aug"}
    ensures BuildTones(root, kind, 0, 5, (accidental, 5), 0).Ok?
    ensures BuildTones(root, kind, 0, 5, (accidental, 5), 0).value[2].accidental == Some(accidental)
    ensures BuildTones(root, kind, 0, 5, (accidental, 7), 0) == Err(IndexError)
    ensures BuildTones(root, kind, 0, 5, (accidental, 9), 0) == Err(IndexError)
  {
    ExtensionSizes();
    assert AlterSlot(5) == 2 && AlterSlot(7) == 3 && AlterSlot(9) == 4;
    BuildFailure(root, kind, 0, 5, (accidental, 5), 0);
    BuildFailure(root, kind, 0, 5, (accidental, 7), 0);
    BuildFailure(root, kind, 0, 5, (accidental, 9), 0);
    BuildAccidentals(root, kind, 0, 5, (accidental, 5), 0);
  }

  /** Degrees below 1 still land in the list: degree 0 (with an accidental)
      truncates to slot 0, the root, and degree -1 to slot -1, the last tone. */
  lemma LowDegreesWrap(root: Tone, accidental: string)
    requires accidental != ""
    ensures BuildTones(root, "major", 0, 5, (accidental, 0), 0) ==
            Ok([root.(accidental := Some(accidental)), Plain(Semis(4)), Plain(Semis(7))])
    ensures BuildTones(root, "major", 0, 5, (accidental, -1), 0) ==
            Ok([root, Plain(Semis(4)), Tone(Semis(7), Some(accidental))])
  {
    ExtensionSizes();
    assert AlterSlot(0) == 0 && AlterSlot(-1) == -1;
    BuildFailure(root, "major", 0, 5, (accidental, 0), 0);
    BuildLayout(root, "major", 0, 5, (accidental, 0), 0);
    BuildAccidentals(root, "major", 0, 5, (accidental, 0), 0);
    BuiltAs(root, "major", 0, 5, (accidental, 0), 0,
            [root.(accidental := Some(accidental)), Plain(Semis(4)), Plain(Semis(7))]);
    BuildFailure(root, "major", 0, 5, (accidental, -1), 0);
    BuildLayout(root, "major", 0, 5, (accidental, -1), 0);
    BuildAccidentals(root, "major", 0, 5, (accidental, -1), 0);
    BuiltAs(root, "major", 0, 5, (accidental, -1), 0,
            [root, Plain(Semis(4)), Tone(Semis(7), Some(accidental))]);
  }

  // ---------------------------------------------------------------------
  // build_chord itself

  /** No note object occurs twice in the list. */
  ghost predicate Distinct(ns: seq<Note>) {
    forall i, j :: 0 <= i < j < |ns| ==> ns[i] != ns[j]
  }

  /** The chord type's stage of `build_chord`: third, fifth and, for a
      dominant chord, the seventh, each a new transposition of the root. */
  method AppendQuality(ch: seq<Note>, ghost tones: seq<Tone>, kind: string) returns (grown: seq<Note>)
    requires Shows(ch, tones) && Distinct(ch)
    ensures |ch| <= |grown| && grown[..|ch|] == ch
    ensures forall i :: |ch| <= i < |grown| ==> fresh(grown[i])
    ensures Distinct(grown)
    ensures Shows(grown, tones + SemisTones(QualityOffsets(kind)))
  {
    match kind {
      case "dominant" => grown := AppendThree(ch, tones, 4, 7, 10);
      case "major" => grown := AppendTwo(ch, tones, 4, 7);
      case "minor" => grown := AppendTwo(ch, tones, 3, 7);
      case "dim" => grown := AppendTwo(ch, tones, 3, 6);
      case "aug" => grown := AppendTwo(ch, tones, 4, 8);
      case _ =>
        grown := ch;
        assert tones + SemisTones(QualityOffsets(kind)) == tones;
    }
  }

  /** Appends a third and a fifth: two new transpositions of the root. */
  method AppendTwo(ch: seq<Note>, ghost tones: seq<Tone>, third: int, fifth: int) returns (grown: seq<Note>)
    requires Shows(ch, tones) && Distinct(ch)
    ensures |ch| <= |grown| && grown[..|ch|] == ch
    ensures forall i :: |ch| <= i < |grown| ==> fresh(grown[i])
    ensures Distinct(grown)
    ensures Shows(grown, tones + SemisTones([third, fifth]))
  {
    var t := new Note(Semis(third));
    var f := new Note(Semis(fifth));
    grown := ch + [t, f];
  }

  /** Appends a third, a fifth and a seventh: three new transpositions of
      the root. */
  method AppendThree(ch: seq<Note>, ghost tones: seq<Tone>, third: int, fifth: int, seventh: int)
    returns (grown: seq<Note>)
    requires Shows(ch, tones) && Distinct(ch)
    ensures |ch| <= |grown| && grown[..|ch|] == ch
    ensures forall i :: |ch| <= i < |grown| ==> fresh(grown[i])
    ensures Distinct(grown)
    ensures Shows(grown, tones + SemisTones([third, fifth, seventh]))
  {
    var t := new Note(Semis(third));
    var f := new Note(Semis(fifth));
    var s := new Note(Semis(seventh));
    grown := ch + [t, f, s];
  }

  /** The extension stage of `build_chord`: unless the ceiling is 5, a counter
      runs over 7, 9, 11, ... while it stays within the ceiling, appending the
      root transposed by that generic interval each time. */
  method Extend(ch: seq<Note>, ghost tones: seq<Tone>, extended: int) returns (grown: seq<Note>)
    requires Shows(ch, tones) && Distinct(ch)
    ensures |ch| <= |grown| && grown[..|ch|] == ch
    ensures forall i :: |ch| <= i < |grown| ==> fresh(grown[i])
    ensures Distinct(grown)
    ensures Shows(grown, tones + GenericTones(ExtensionDegrees(extended)))
  {
    grown := ch;
    ghost var rounds: nat := 0;
    if extended != 5 {
      var current := 7;
      while current <= extended
        invariant current == 7 + 2 * rounds
        invariant rounds <= ExtensionRounds(extended)
        invariant |ch| <= |grown| && grown[..|ch|] == ch
        invariant forall i :: |ch| <= i < |grown| ==> fresh(grown[i])
        invariant Distinct(grown)
        invariant Shows(grown, tones + GenericTones(OddsFromSeven(rounds)))
      {
        var tone := new Note(Generic(current));
        grown := grown + [tone];
        current := current + 2;
        rounds := rounds + 1;
      }
    }
    assert rounds == ExtensionRounds(extended);
  }

  /** The suspension stage of `build_chord`: slot 1 is overwritten with a new
      transposition of the root by 2 or 5 semitones. */
  method SuspendNotes(ch: seq<Note>, ghost tones: seq<Tone>, suspended: int) returns (r: Result<seq<Note>>)
    requires Shows(ch, tones) && Distinct(ch)
    ensures r.Ok? <==> Suspend(tones, suspended).Ok?
    ensures r.Err? ==> r.error == IndexError
    ensures r.Ok? ==> |r.value| == |ch| && Distinct(r.value)
    ensures r.Ok? ==> forall i :: 0 <= i < |ch| && i != 1 ==> r.value[i] == ch[i]
    ensures r.Ok? && |ch| >= 2 ==> r.value[1] == ch[1] || fresh(r.value[1])
    ensures r.Ok? ==> Shows(r.value, Suspend(tones, suspended).value)
  {
    var grown := ch;
    match suspended {
      case 2 =>
        if |ch| < 2 { return Err(IndexError); }
        var second := new Note(Semis(2));
        grown := grown[1 := second];
      case 4 =>
        if |ch| < 2 { return Err(IndexError); }
        var fourth := new Note(Semis(5));
        grown := grown[1 := fourth];
      case _ =>
    }
    r := Ok(grown);
  }

  /** The added-tone stage of `build_chord`: unless `add` is 0, a new note,
      the root transposed by that generic interval, goes at the end. */
  method AddNote(ch: seq<Note>, ghost tones: seq<Tone>, add: int) returns (grown: seq<Note>)
    requires Shows(ch, tones) && Distinct(ch)
    ensures |ch| <= |grown| && grown[..|ch|] == ch
    ensures forall i :: |ch| <= i < |grown| ==> fresh(grown[i])
    ensures Distinct(grown)
    ensures Shows(grown, AddTone(tones, add))
  {
    grown := ch;
    if add != 0 {
      var added := new Note(Generic(add));
      grown := grown + [added];
    }
  }

  /** The alteration stage of `build_chord`: the accidental of the note at
      the alteration slot is overwritten in place. */
  method AlterNotes(ch: seq<Note>, ghost tones: seq<Tone>, alter: (string, int)) returns (ok: bool)
    requires Shows(ch, tones) && Distinct(ch)
    modifies ch
    ensures ok <==> Alter(tones, alter).Ok?
    ensures ok ==> Shows(ch, Alter(tones, alter).value)
    ensures !ok ==> forall i :: 0 <= i < |ch| ==> ch[i].accidental == old(ch[i].accidental)
  {
    if alter != ("", 0) {
      var slot := PyIndex(AlterSlot(alter.1), |ch|);
      if slot.None? { return false; }
      ch[slot.value].accidental := Some(alter.0);
    }
    ok := true;
  }

  /** `build_chord`. The list starts with the caller's `root` object; every
      other note is new. Only the alteration writes to a note, and when it
      lands on slot 0 that note is the caller's root. */
  method BuildChord(root: Note, kind: string, suspended: int, extended: int,
                    alter: (string, int), add: int)
    returns (r: Result<seq<Note>>)
    modifies root
    ensures r.Ok? <==> BuildTones(old(root.View()), kind, suspended, extended, alter, add).Ok?
    ensures r.Err? ==> r.error == BuildTones(old(root.View()), kind, suspended, extended, alter, add).error
    ensures r.Ok? ==> Shows(r.value, BuildTones(old(root.View()), kind, suspended, extended, alter, add).value)
    ensures r.Ok? ==> |r.value| >= 1 && r.value[0] == root
    ensures r.Ok? ==> forall i :: 1 <= i < |r.value| ==> fresh(r.value[i])
    ensures r.Err? ==> root.accidental == old(root.accidental)
  {
    ghost var rootTone := root.View();
    var ch: seq<Note> := [root];
    ch := AppendQuality(ch, [rootTone], kind);
    ghost var tones := Skeleton(rootTone, kind);

    var suspension := SuspendNotes(ch, tones, suspended);
    if suspension.Err? { return Err(suspension.error); }
    ch, tones := suspension.value, Suspend(tones, suspended).value;

    ch := Extend(ch, tones, extended);
    tones := tones + GenericTones(ExtensionDegrees(extended));

    ch := AddNote(ch, tones, add);
    tones := AddTone(tones, add);

    var ok := AlterNotes(ch, tones, alter);
    if !ok { return Err(IndexError); }
    r := Ok(ch);
  }

  /** Altering degree 1 writes the accidental over the caller's own root
      note, which the returned list holds in slot 0. */
  method RootAliasing(root: Note) returns (r: Result<seq<Note>>)
    modifies root
    ensures r.Ok? && |r.value| >= 1 && r.value[0] == root
    ensures root.accidental == Some("Sharp")
  {
    r := BuildChord(root, "major", 0, 5, ("Sharp", 1), 0);
    ExtensionSizes();
  }
}
