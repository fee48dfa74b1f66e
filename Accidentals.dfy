/** Rendering of the accidental options that the form offers. Each option is a
    word followed by its glyph in parentheses; the chord maker needs it either
    in the compact form a note name is spelled with ("", "#", "-") or in the
    display form of the printed chord symbol ("", "#", "♭"). */
module Accidentals {

  const Natural: string := "Natural(♮)"
  const Sharp: string := "Sharp(#)"
  const Flat: string := "Flat(♭)"

  /** `accidental_to_str`: the compact rendering, or with `properFlat` the
      display rendering. An unknown option renders as "". */
  function AccidentalToStr(a: string, properFlat: bool): (r: string)
    ensures |r| <= 1
    ensures r == "#" <==> a == Sharp
    ensures r == "-" <==> a == Flat && !properFlat
    ensures r == "♭" <==> a == Flat && properFlat
    ensures r == "" <==> a != Sharp && a != Flat
  {
    match a
    case "Natural(♮)" => ""
    case "Sharp(#)" => "#"
    case "Flat(♭)" => if properFlat then "♭" else "-"
    case _ => ""
  }

  /** The two renderings agree on every input except the flat option. */
  lemma RenderingsDifferOnlyOnFlat(a: string)
    ensures AccidentalToStr(a, true) != AccidentalToStr(a, false) <==> a == Flat
  {
  }
}
