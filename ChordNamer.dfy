/** `name_chord`: from the raw selections of the chord form, build the chord
    symbol by successive appends (root and its accidental, quality, size,
    suspension, added tone, alteration), translate the selections into the
    arguments of `build_chord`, and, unless only the name is wanted, build the
    chord's tones. */
module ChordNamer {
  import opened PyCore
  import opened Accidentals
  import opened ChordBuilder

  /** A form choice that is either the text "None" or a number. */
  datatype Pick = NoPick | Degree(n: int)

  /** The selections `name_chord` receives, as the form delivers them. */
  datatype Selection = Selection(
    root: string,
    rootAccidental: string,
    quality: string,
    sus: string,
    size: string,
    alter: Pick,
    alterAccidental: string,
    add: Pick)

  /** The `chord_parts` dictionary: the arguments handed to `build_chord`. */
  datatype ChordParts = ChordParts(
    root: Pitch,
    kind: string,
    suspended: int,
    extended: int,
    alter: (string, int),
    add: int)

  /** What `name_chord` returns: the symbol alone, or the symbol with the chord. */
  datatype NameResult<T> = NameOnly(symbol: string) | NameAndChord(symbol: string, chord: T)

  // ---------------------------------------------------------------------
  // The pieces of the symbol and the parameter mapping, on values

  /** The quality's piece of the symbol. */
  function QualitySuffix(quality: string): (r: string)
    ensures r == "" <==> quality !in {"Major", "Minor", "Augmented", "Diminished"}
    ensures quality == "Major" <==> r == "maj"
    ensures quality == "Minor" <==> r == "m"
    ensures quality == "Augmented" <==> r == "+"
    ensures quality == "Diminished" <==> r == "dim"
  {
    match quality
    case "Major" => "maj"
    case "Minor" => "m"
    case "Dominant" => ""
    case "Augmented" => "+"
    case "Diminished" => "dim"
    case _ => ""
  }

  /** The chord type handed to `build_chord`: one the builder knows, and
      "major" (the dictionary's initial value) for an unknown quality. */
  function QualityKind(quality: string): (r: string)
    ensures |QualityOffsets(r)| >= 2
    ensures quality !in {"Major", "Minor", "Dominant", "Augmented", "Diminished"} ==> r == "major"
    ensures r in {"major", "minor", "dominant", "aug", "dim"}
    ensures r == "major" <==> quality == "Major" || quality !in {"Minor", "Dominant", "Augmented", "Diminished"}
    ensures r == "minor" <==> quality == "Minor"
    ensures r == "dominant" <==> quality == "Dominant"
    ensures r == "aug" <==> quality == "Augmented"
    ensures r == "dim" <==> quality == "Diminished"
  {
    match quality
    case "Major" => "major"
    case "Minor" => "minor"
    case "Dominant" => "dominant"
    case "Augmented" => "aug"
    case "Diminished" => "dim"
    case _ => "major"
  }

  /** The size's piece of the symbol: nothing for a triad, otherwise the size
      without its last two characters ("13th" gives "13"). */
  function SizeText(size: string): (r: string)
    ensures size == "Triad" ==> r == ""
    ensures size != "Triad" && |size| >= 2 ==> r + size[|size| - 2..] == size
    ensures size != "Triad" && |size| < 2 ==> r == ""
  {
    if size == "Triad" then "" else (DropSuffix(size, 2); PySlice(size, 0, -2))
  }

  /** The suspension's piece: the option itself unless it is "No sus". */
  function SusText(sus: string): (r: string)
    ensures r == "" <==> sus == "No sus" || sus == ""
    ensures r != "" ==> r == sus
  {
    if sus == "No sus" then "" else sus
  }

  /** The added tone's piece: "add" and the degree as `str()` writes it. */
  function AddText(add: Pick): (r: string)
    ensures add.NoPick? <==> r == ""
    ensures add.Degree? ==> |r| >= 4 && r[..3] == "add" && PyInt(r[3..]) == Ok(add.n)
    ensures add.Degree? ==> r[3..] == IntToDecimal(add.n)
  {
    match add
    case NoPick => ""
    case Degree(n) =>
      PyIntOfDecimal(n);
      assert ("add" + IntToDecimal(n))[3..] == IntToDecimal(n);
      "add" + IntToDecimal(n)
  }

  /** The alteration's piece: the glyph at position -2 of the accidental option
      and the degree, in parentheses. */
  function AlterText(alter: Pick, alterAccidental: string): (r: Result<string>)
    ensures alter.NoPick? ==> r == Ok("")
    ensures alter.Degree? ==> (r.Ok? <==> |alterAccidental| >= 2)
    ensures r.Err? ==> r.error == IndexError
    ensures r.Ok? && alter.Degree? ==>
              var t := r.value;
              |t| >= 4 && t[0] == '(' && t[1] == alterAccidental[|alterAccidental| - 2] &&
              t[2..|t| - 1] == IntToDecimal(alter.n) && t[|t| - 1] == ')'
  {
    match alter
    case NoPick => Ok("")
    case Degree(n) =>
      match PyAt(alterAccidental, -2)
      case Err(e) => Err(e)
      case Ok(glyph) => Ok("(" + [glyph] + IntToDecimal(n) + ")")
  }

  /** The chord symbol: the six pieces in order. */
  function Symbol(sel: Selection): (r: Result<string>)
    ensures r.Ok? <==> sel.alter.NoPick? || |sel.alterAccidental| >= 2
    ensures r.Err? ==> r.error == IndexError
  {
    match AlterText(sel.alter, sel.alterAccidental)
    case Err(e) => Err(e)
    case Ok(alterText) =>
      Ok(sel.root + AccidentalToStr(sel.rootAccidental, true) + QualitySuffix(sel.quality)
         + SizeText(sel.size) + SusText(sel.sus) + AddText(sel.add) + alterText)
  }

  /** The extension ceiling: 5 for a triad, otherwise `int(size[0:-2])`. */
  function Extension(size: string): (r: Result<int>)
    ensures size == "Triad" ==> r == Ok(5)
    ensures size != "Triad" ==> (r.Ok? <==> PyInt(SizeText(size)).Ok?)
    ensures r.Err? ==> r.error == ValueError
  {
    if size == "Triad" then Ok(5) else PyInt(PySlice(size, 0, -2))
  }

  /** The suspension: 0 for "No sus", otherwise `int(sus[-1])`. */
  function Suspension(sus: string): (r: Result<int>)
    ensures sus == "No sus" ==> r == Ok(0)
    ensures sus != "No sus" ==> (r.Ok? <==> |sus| >= 1 && IsDigit(sus[|sus| - 1]))
    ensures r.Err? ==> r.error == (if sus == "" then IndexError else ValueError)
    ensures r.Ok? && sus != "No sus" ==> r.value == DigitValue(sus[|sus| - 1])
  {
    if sus == "No sus" then Ok(0)
    else match PyAt(sus, -1)
      case Err(e) => Err(e)
      case Ok(last) => PyInt([last])
  }

  /** The alteration pair: the accidental option without its last three
      characters ("Sharp(#)" gives "Sharp"), and the degree. */
  function AlterPair(alter: Pick, alterAccidental: string): (r: (string, int))
    ensures alter.NoPick? ==> r == ("", 0)
    ensures alter.Degree? ==> r.1 == alter.n
    ensures alter.Degree? && |alterAccidental| >= 3 ==>
              r.0 + alterAccidental[|alterAccidental| - 3..] == alterAccidental
    ensures alter.Degree? && |alterAccidental| < 3 ==> r.0 == ""
    ensures r == ("", 0) <==> alter.NoPick? || (alter.n == 0 && |alterAccidental| <= 3)
  {
    DropSuffix(alterAccidental, 3);
    match alter
    case NoPick => ("", 0)
    case Degree(n) => (PySlice(alterAccidental, 0, -3), n)
  }

  /** The `add` entry of the dictionary: 0 for "None", else the degree. */
  function AddDegree(add: Pick): (r: int)
    ensures add.NoPick? ==> r == 0
    ensures add.Degree? ==> r == add.n
    ensures r != 0 ==> AddText(add) != ""
  {
    match add
    case NoPick => 0
    case Degree(n) => n
  }

  /** The `chord_parts` dictionary once filled in; the root note is built
      from the root letter and the compact accidental. */
  function Parts(sel: Selection): (r: Result<ChordParts>)
    ensures r.Err? <==> Extension(sel.size).Err? || Suspension(sel.sus).Err?
    ensures r.Err? ==> r.error == (if Extension(sel.size).Err? then ValueError else Suspension(sel.sus).error)
    ensures r.Ok? ==> |QualityOffsets(r.value.kind)| >= 2
  {
    match Extension(sel.size)
    case Err(e) => Err(e)
    case Ok(extended) =>
      match Suspension(sel.sus)
      case Err(e) => Err(e)
      case Ok(suspended) =>
        Ok(ChordParts(Named(sel.root + AccidentalToStr(sel.rootAccidental, false)),
                      QualityKind(sel.quality), suspended, extended,
                      AlterPair(sel.alter, sel.alterAccidental), AddDegree(sel.add)))
  }

  /** The symbol and the filled-in dictionary, or the first error raised
      while computing them: the size and the suspension are read before the
      alteration's glyph, so their errors come first. */
  function SymbolAndParts(sel: Selection): (r: Result<(string, ChordParts)>)
    ensures r.Ok? <==> Parts(sel).Ok? && Symbol(sel).Ok?
    ensures r.Err? ==> r.error == (if Parts(sel).Err? then Parts(sel).error else IndexError)
  {
    match Parts(sel)
    case Err(e) => Err(e)
    case Ok(p) =>
      match Symbol(sel)
      case Err(e) => Err(e)
      case Ok(name) => Ok((name, p))
  }

  /** What `name_chord` returns or raises; the chord is built last, and only
      when more than the name is wanted. */
  function NameChordSpec(sel: Selection, onlyChordName: bool): (r: Result<NameResult<seq<Tone>>>)
    ensures onlyChordName ==> (r.Ok? <==> SymbolAndParts(sel).Ok?) && (r.Ok? ==> r.value.NameOnly?)
    ensures r.Ok? ==> SymbolAndParts(sel).Ok? && r.value.symbol == SymbolAndParts(sel).value.0
    ensures !onlyChordName && r.Ok? ==>
              var p := SymbolAndParts(sel).value.1;
              r.value.NameAndChord? && |r.value.chord| == ToneCount(p.kind, p.extended, p.add) &&
              r.value.chord[0].pitch == p.root
  {
    match SymbolAndParts(sel)
    case Err(e) => Err(e)
    case Ok((name, p)) =>
      if onlyChordName then Ok(NameOnly(name))
      else match BuildTones(Plain(p.root), p.kind, p.suspended, p.extended, p.alter, p.add)
        case Err(e) => Err(e)
        case Ok(tones) => Ok(NameAndChord(name, tones))
  }

  // ---------------------------------------------------------------------
  // What the symbol and the parameters promise

  /** The symbol opens with the root letter and its display accidental, and
      an alteration closes it with a parenthesis. */
  lemma SymbolShape(sel: Selection, sym: string)
    requires Symbol(sel) == Ok(sym)
    ensures sel.root + AccidentalToStr(sel.rootAccidental, true) <= sym
    ensures sel.alter.Degree? ==> |sym| >= 1 && sym[|sym| - 1] == ')'
  {
    var alterText := AlterText(sel.alter, sel.alterAccidental).value;
    assert sym == sel.root + AccidentalToStr(sel.rootAccidental, true) + QualitySuffix(sel.quality)
                  + SizeText(sel.size) + SusText(sel.sus) + AddText(sel.add) + alterText;
    if sel.alter.Degree? {
      assert alterText[|alterText| - 1] == ')';
    }
  }

  /** The size digits in the symbol are exactly `str()` of the extension
      ceiling handed to the builder, whenever they are a canonical numeral. */
  lemma SizeDigitsAgree(size: string)
    requires size != "Triad" && Canonical(SizeText(size))
    ensures Extension(size).Ok?
    ensures IntToDecimal(Extension(size).value) == SizeText(size)
  {
    DecimalOfPyInt(SizeText(size));
  }

  /** A suspension other than "No sus" that parses ends in a digit, and that
      digit is the suspension handed to the builder. */
  lemma SuspensionDigit(sus: string)
    requires sus != "No sus" && Suspension(sus).Ok?
    ensures |sus| >= 1 && IsDigit(sus[|sus| - 1])
    ensures 0 <= Suspension(sus).value <= 9
    ensures IntToDecimal(Suspension(sus).value) == [sus[|sus| - 1]]
  {
    var c := sus[|sus| - 1];
    assert PyAt(sus, -1) == Ok(c);
    assert [c][1..] == [];
    assert IsDigit(c);
    DecimalOfPyInt([c]);
  }

  /** The form's accidental options: the glyph at position -2 is the one the
      alteration shows, and dropping the last three characters leaves the
      accidental's name. The alteration shows a natural sign where the root's
      display form shows nothing. */
  lemma FormAccidentals()
    ensures PyAt(Natural, -2) == Ok('♮') && PySlice(Natural, 0, -3) == "Natural"
    ensures PyAt(Sharp, -2) == Ok('#') && PySlice(Sharp, 0, -3) == "Sharp"
    ensures PyAt(Flat, -2) == Ok('♭') && PySlice(Flat, 0, -3) == "Flat"
    ensures forall a :: a in {Natural, Sharp, Flat} ==>
              ([PyAt(a, -2).value] == AccidentalToStr(a, true) <==> a != Natural)
  {
    DropSuffix(Natural, 3);
    DropSuffix(Sharp, 3);
    DropSuffix(Flat, 3);
  }

  /** The selections the form offers. */
  predicate FromForm(sel: Selection) {
    && sel.root in {"A", "B", "C", "D", "E", "F", "G"}
    && sel.rootAccidental in {Natural, Sharp, Flat}
    && sel.quality in {"Major", "Minor", "Dominant", "Diminished", "Augmented"}
    && sel.sus in {"No sus", "sus2", "sus4"}
    && sel.size in {"Triad", "7th", "9th", "11th", "13th"}
    && (sel.alter.Degree? ==> sel.alter.n in {1, 3, 5, 7, 9, 11, 13})
    && sel.alterAccidental in {Natural, Sharp, Flat}
    && (sel.add.Degree? ==> sel.add.n in {9, 11, 13})
  }

  /** The form's sizes give the ceilings 5, 7, 9, 11 and 13. */
  lemma FormExtension(size: string)
    requires size in {"Triad", "7th", "9th", "11th", "13th"}
    ensures Extension(size) == Ok(if size == "Triad" then 5 else DigitsValue(SizeText(size)))
    ensures Extension(size).Ok? && Extension(size).value in {5, 7, 9, 11, 13}
  {
    if size == "7th" {
      assert SizeText(size) == "7";
    } else if size == "9th" {
      assert SizeText(size) == "9";
    } else if size == "11th" {
      assert SizeText(size) == "11";
      assert DigitsValue("11") == 11 by { assert "11"[..1] == "1"; }
    } else if size == "13th" {
      assert SizeText(size) == "13";
      assert DigitsValue("13") == 13 by { assert "13"[..1] == "1"; }
    }
  }

  /** The form's suspensions give 0, 2 and 4. */
  lemma FormSuspension(sus: string)
    requires sus in {"No sus", "sus2", "sus4"}
    ensures Suspension(sus) == Ok(if sus == "No sus" then 0 else DigitValue(sus[3]))
    ensures Suspension(sus).Ok? && Suspension(sus).value in {0, 2, 4}
  {
    assert PyAt("sus2", -1) == Ok('2');
    assert PyAt("sus4", -1) == Ok('4');
  }

  /** The form's alterations: "None" gives ("", 0); a degree gives the
      accidental's name with that degree. */
  lemma FormAlteration(alter: Pick, alterAccidental: string)
    requires alter.Degree? ==> alter.n in {1, 3, 5, 7, 9, 11, 13}
    requires alterAccidental in {Natural, Sharp, Flat}
    ensures alter.NoPick? <==> AlterPair(alter, alterAccidental) == ("", 0)
    ensures alter.Degree? ==> AlterPair(alter, alterAccidental).0 in {"Natural", "Sharp", "Flat"}
    ensures alter.Degree? ==> AlterPair(alter, alterAccidental).1 == alter.n
  {
    FormAccidentals();
  }

  /** Every selection the form offers yields a symbol and a filled-in
      dictionary. */
  lemma FormParts(sel: Selection)
    requires FromForm(sel)
    ensures Symbol(sel).Ok? && Parts(sel).Ok?
  {
    FormExtension(sel.size);
    FormSuspension(sel.sus);
  }

  /** The dictionary filled in from a selection the form offers holds
      builder arguments within the builder's vocabulary. */
  lemma FormArguments(sel: Selection, p: ChordParts)
    requires FromForm(sel) && Parts(sel) == Ok(p)
    ensures p.kind in {"major", "minor", "dominant", "aug", "dim"}
    ensures p.suspended in {0, 2, 4} && p.extended in {5, 7, 9, 11, 13}
    ensures sel.alter.NoPick? <==> p.alter == ("", 0)
    ensures sel.alter.Degree? ==> p.alter.0 in {"Natural", "Sharp", "Flat"} && p.alter.1 == sel.alter.n
    ensures p.add in {0, 9, 11, 13}
  {
    FormExtension(sel.size);
    FormSuspension(sel.sus);
    FormAlteration(sel.alter, sel.alterAccidental);
    assert p.extended == Extension(sel.size).value && p.suspended == Suspension(sel.sus).value;
    assert p.alter == AlterPair(sel.alter, sel.alterAccidental);
    assert p.add == AddDegree(sel.add);
  }

  /** For selections the form offers, asking only for the name never fails,
      and building the chord fails exactly when the altered degree's slot
      lies past the tones built so far. */
  lemma FormFailure(sel: Selection)
    requires FromForm(sel)
    ensures NameChordSpec(sel, true).Ok?
    ensures var p := SymbolAndParts(sel).value.1;
            NameChordSpec(sel, false).Err? <==>
              sel.alter.Degree? && (sel.alter.n - 1) / 2 >= ToneCount(p.kind, p.extended, p.add)
    ensures NameChordSpec(sel, false).Err? ==> NameChordSpec(sel, false).error == IndexError
  {
    FormParts(sel);
    var p := SymbolAndParts(sel).value.1;
    FormArguments(sel, p);
    BuildFailure(Plain(p.root), p.kind, p.suspended, p.extended, p.alter, p.add);
  }

  /** The symbol `name_chord` returns with the chord is the one it returns
      alone. */
  lemma NameOnlyAgrees(sel: Selection)
    requires NameChordSpec(sel, false).Ok?
    ensures NameChordSpec(sel, true) == Ok(NameOnly(NameChordSpec(sel, false).value.symbol))
  {
  }

  // ---------------------------------------------------------------------
  // Particular chords

  /** C major triad: "Cmaj", the root note named "C" and the +4 and +7
      transpositions. */
  lemma CMajorTriad()
    ensures NameChordSpec(Selection("C", Natural, "Major", "No sus", "Triad", NoPick, Natural, NoPick), false)
            == Ok(NameAndChord("Cmaj", [Plain(Named("C")), Plain(Semis(4)), Plain(Semis(7))]))
  {
    var sel := Selection("C", Natural, "Major", "No sus", "Triad", NoPick, Natural, NoPick);
    assert AccidentalToStr(Natural, false) == "" && AccidentalToStr(Natural, true) == "";
    assert QualityKind("Major") == "major" && QualitySuffix("Major") == "maj";
    assert Extension("Triad") == Ok(5) && Suspension("No sus") == Ok(0);
    assert "C" + "" == "C";
    assert Parts(sel) == Ok(ChordParts(Named("C"), "major", 0, 5, ("", 0), 0));
    assert SizeText("Triad") == "" && SusText("No sus") == "" && AddText(NoPick) == "";
    assert AlterText(NoPick, Natural) == Ok("");
    assert "C" + "" + "maj" + "" + "" + "" + "" == "Cmaj";
    assert Symbol(sel) == Ok("Cmaj");
    PlainChords(Plain(Named("C")));
  }

  /** A dominant triad is named by its root alone and still has four tones. */
  lemma CDominantTriad()
    ensures NameChordSpec(Selection("C", Natural, "Dominant", "No sus", "Triad", NoPick, Natural, NoPick), false)
            == Ok(NameAndChord("C", [Plain(Named("C")), Plain(Semis(4)), Plain(Semis(7)), Plain(Semis(10))]))
  {
    var sel := Selection("C", Natural, "Dominant", "No sus", "Triad", NoPick, Natural, NoPick);
    assert AccidentalToStr(Natural, false) == "" && AccidentalToStr(Natural, true) == "";
    assert QualityKind("Dominant") == "dominant" && QualitySuffix("Dominant") == "";
    assert Extension("Triad") == Ok(5) && Suspension("No sus") == Ok(0);
    assert "C" + "" == "C";
    assert Parts(sel) == Ok(ChordParts(Named("C"), "dominant", 0, 5, ("", 0), 0));
    assert SizeText("Triad") == "" && SusText("No sus") == "" && AddText(NoPick) == "";
    assert AlterText(NoPick, Natural) == Ok("");
    assert "C" + "" + "" + "" + "" + "" + "" == "C";
    assert Symbol(sel) == Ok("C");
    PlainChords(Plain(Named("C")));
  }

  /** C-flat minor sus2: the symbol shows the flat glyph, the root note is
      spelled "C-", and the suspension's +2 is taken from that root. */
  lemma CFlatMinorSus2()
    ensures NameChordSpec(Selection("C", Flat, "Minor", "sus2", "Triad", NoPick, Natural, NoPick), false)
            == Ok(NameAndChord("C♭msus2", [Plain(Named("C-")), Plain(Semis(2)), Plain(Semis(7))]))
  {
    CFlatMinorSus2Symbol();
    var root := Plain(Named("C-"));
    ExtensionSizes();
    BuildFailure(root, "minor", 2, 5, ("", 0), 0);
    BuildLayout(root, "minor", 2, 5, ("", 0), 0);
    BuildAccidentals(root, "minor", 2, 5, ("", 0), 0);
    BuiltAs(root, "minor", 2, 5, ("", 0), 0, [root, Plain(Semis(2)), Plain(Semis(7))]);
  }

  /** The symbol and the dictionary for the chord above. */
  lemma CFlatMinorSus2Symbol()
    ensures SymbolAndParts(Selection("C", Flat, "Minor", "sus2", "Triad", NoPick, Natural, NoPick))
            == Ok(("C♭msus2", ChordParts(Named("C-"), "minor", 2, 5, ("", 0), 0)))
  {
    var sel := Selection("C", Flat, "Minor", "sus2", "Triad", NoPick, Natural, NoPick);
    FormSuspension("sus2");
    assert AccidentalToStr(Flat, false) == "-" && AccidentalToStr(Flat, true) == "♭";
    assert QualityKind("Minor") == "minor" && QualitySuffix("Minor") == "m";
    assert Extension("Triad") == Ok(5) && Suspension("sus2") == Ok(2);
    assert "C" + "-" == "C-";
    assert Parts(sel) == Ok(ChordParts(Named("C-"), "minor", 2, 5, ("", 0), 0));
    assert SizeText("Triad") == "" && SusText("sus2") == "sus2" && AddText(NoPick) == "";
    assert AlterText(NoPick, Natural) == Ok("");
    assert "C" + "♭" + "m" + "" + "sus2" + "" + "" == "C♭msus2";
  }

  /** Every piece of the symbol at once: E-flat dominant 9th, sus4, add 13,
      sharp 5th. The sharp lands on slot 2, the fifth. */
  lemma EFlatNinthSus4Add13Sharp5()
    ensures NameChordSpec(Selection("E", Flat, "Dominant", "sus4", "9th", Degree(5), Sharp, Degree(13)), false)
            == Ok(NameAndChord("E♭9sus4add13(#5)",
                               [Plain(Named("E-")), Plain(Semis(5)), Tone(Semis(7), Some("Sharp")),
                                Plain(Semis(10)), Plain(Generic(7)), Plain(Generic(9)), Plain(Generic(13))]))
  {
    EFlatNinthSymbol();
    var root := Plain(Named("E-"));
    assert AlterSlot(5) == 2;
    ExtensionSizes();
    BuildFailure(root, "dominant", 4, 9, ("Sharp", 5), 13);
    BuildLayout(root, "dominant", 4, 9, ("Sharp", 5), 13);
    BuildAccidentals(root, "dominant", 4, 9, ("Sharp", 5), 13);
    BuiltAs(root, "dominant", 4, 9, ("Sharp", 5), 13,
            [root, Plain(Semis(5)), Tone(Semis(7), Some("Sharp")),
             Plain(Semis(10)), Plain(Generic(7)), Plain(Generic(9)), Plain(Generic(13))]);
  }

  /** The symbol and the dictionary for the chord above. */
  lemma EFlatNinthSymbol()
    ensures SymbolAndParts(Selection("E", Flat, "Dominant", "sus4", "9th", Degree(5), Sharp, Degree(13)))
            == Ok(("E♭9sus4add13(#5)", ChordParts(Named("E-"), "dominant", 4, 9, ("Sharp", 5), 13)))
  {
    EFlatNinthParts();
    EFlatNinthName();
  }

  lemma EFlatNinthParts()
    ensures Parts(Selection("E", Flat, "Dominant", "sus4", "9th", Degree(5), Sharp, Degree(13)))
            == Ok(ChordParts(Named("E-"), "dominant", 4, 9, ("Sharp", 5), 13))
  {
    FormAccidentals();
    FormExtension("9th");
    FormSuspension("sus4");
    assert AccidentalToStr(Flat, false) == "-";
    assert QualityKind("Dominant") == "dominant";
    assert AlterPair(Degree(5), Sharp) == ("Sharp", 5) && AddDegree(Degree(13)) == 13;
    assert Extension("9th") == Ok(9) && Suspension("sus4") == Ok(4);
    assert "E" + "-" == "E-";
  }

  lemma EFlatNinthName()
    ensures Symbol(Selection("E", Flat, "Dominant", "sus4", "9th", Degree(5), Sharp, Degree(13)))
            == Ok("E♭9sus4add13(#5)")
  {
    EFlatNinthPieces();
    assert "E" + "♭" + "" + "9" + "sus4" + "add13" + "(#5)" == "E♭9sus4add13(#5)";
  }

  lemma EFlatNinthPieces()
    ensures AccidentalToStr(Flat, true) == "♭" && QualitySuffix("Dominant") == ""
    ensures SizeText("9th") == "9" && SusText("sus4") == "sus4"
    ensures AddText(Degree(13)) == "add13"
    ensures AlterText(Degree(5), Sharp) == Ok("(#5)")
  {
    FormAccidentals();
    assert IntToDecimal(13) == "13" by { assert 13 / 10 == 1 && 13 % 10 == 3; }
    assert IntToDecimal(5) == "5";
    assert "(" + "#" + "5" + ")" == "(#5)";
    assert PySlice("9th", 0, -2) == "9";
  }

  // ---------------------------------------------------------------------
  // name_chord itself

  /** The outcome `r` of `name_chord` is the one `s` describes, with each
      note of a returned chord showing the corresponding tone. */
  ghost predicate Presents(r: Result<NameResult<seq<Note>>>, s: Result<NameResult<seq<Tone>>>)
    reads if r.Ok? && r.value.NameAndChord? then r.value.chord else []
  {
    match r
    case Err(e) => s == Err(e)
    case Ok(NameOnly(name)) => s == Ok(NameOnly(name))
    case Ok(NameAndChord(name, notes)) =>
      s.Ok? && s.value.NameAndChord? && s.value.symbol == name && Shows(notes, s.value.chord)
  }

  /** The quality stage of `name_chord`: append the quality's suffix to the
      symbol and record the builder's chord type in the dictionary, whose
      type is still the initial "major". */
  method NameQuality(chordName: string, parts: ChordParts, quality: string)
    returns (name: string, updated: ChordParts)
    requires parts.kind == "major"
    ensures name == chordName + QualitySuffix(quality)
    ensures updated == parts.(kind := QualityKind(quality))
  {
    name, updated := chordName, parts;
    match quality {
      case "Major" =>
        name := name + "maj";
        updated := updated.(kind := "major");
      case "Minor" =>
        name := name + "m";
        updated := updated.(kind := "minor");
      case "Dominant" =>
        updated := updated.(kind := "dominant");
      case "Augmented" =>
        name := name + "+";
        updated := updated.(kind := "aug");
      case "Diminished" =>
        name := name + "dim";
        updated := updated.(kind := "dim");
      case _ =>
    }
  }

  /** The symbol-building part of `name_chord`: the symbol is accumulated
      piece by piece and the dictionary field by field, in the source's
      order. */
  method BuildName(root: string, rootAccidental: string, quality: string, sus: string,
                   size: string, alter: Pick, alterAccidental: string, add: Pick)
    returns (r: Result<(string, ChordParts)>)
    ensures r == SymbolAndParts(Selection(root, rootAccidental, quality, sus, size,
                                          alter, alterAccidental, add))
  {
    var chordName := "";
    chordName := chordName + (root + AccidentalToStr(rootAccidental, true));
    var parts := ChordParts(Named(root + AccidentalToStr(rootAccidental, false)), "major", 0, 5, ("", 0), 0);

    chordName, parts := NameQuality(chordName, parts, quality);
    ghost var prefix := root + AccidentalToStr(rootAccidental, true) + QualitySuffix(quality);
    assert chordName == prefix;
    assert parts == ChordParts(Named(root + AccidentalToStr(rootAccidental, false)), QualityKind(quality), 0, 5, ("", 0), 0);

    if size == "Triad" {
      parts := parts.(extended := 5);
    } else {
      chordName := chordName + PySlice(size, 0, -2);
      var extended := PyInt(PySlice(size, 0, -2));
      if extended.Err? { return Err(extended.error); }
      parts := parts.(extended := extended.value);
    }
    prefix := prefix + SizeText(size);
    assert chordName == prefix;

    if sus != "No sus" {
      chordName := chordName + sus;
      var last := PyAt(sus, -1);
      if last.Err? { return Err(last.error); }
      var suspended := PyInt([last.value]);
      if suspended.Err? { return Err(suspended.error); }
      parts := parts.(suspended := suspended.value);
    } else {
      parts := parts.(suspended := 0);
    }
    prefix := prefix + SusText(sus);
    assert chordName == prefix;

    if add.Degree? {
      chordName := chordName + ("add" + IntToDecimal(add.n));
      parts := parts.(add := add.n);
    }
    assert chordName == prefix + AddText(add);
    prefix := prefix + AddText(add);

    if alter.Degree? {
      var glyph := PyAt(alterAccidental, -2);
      if glyph.Err? { return Err(glyph.error); }
      chordName := chordName + ("(" + [glyph.value] + IntToDecimal(alter.n) + ")");
      parts := parts.(alter := (PySlice(alterAccidental, 0, -3), alter.n));
    }
    assert chordName == prefix + AlterText(alter, alterAccidental).value;
    r := Ok((chordName, parts));
  }


  /** `name_chord`: the symbol and the dictionary, then, unless only the name
      is wanted, `build_chord` on a new root note. */
  method NameChord(root: string, rootAccidental: string, quality: string, sus: string,
                   size: string, alter: Pick, alterAccidental: string, add: Pick,
                   onlyChordName: bool)
    returns (r: Result<NameResult<seq<Note>>>)
    ensures Presents(r, NameChordSpec(Selection(root, rootAccidental, quality, sus, size,
                                                alter, alterAccidental, add), onlyChordName))
  {
    var named := BuildName(root, rootAccidental, quality, sus, size, alter, alterAccidental, add);
    if named.Err? {
      return Err(named.error);
    }
    var (chordName, parts) := named.value;
    if onlyChordName {
      return Ok(NameOnly(chordName));
    }
    var rootNote := new Note(parts.root);
    var built := BuildChord(rootNote, parts.kind, parts.suspended, parts.extended, parts.alter, parts.add);
    if built.Err? {
      return Err(built.error);
    }
    r := Ok(NameAndChord(chordName, built.value));
  }
}
