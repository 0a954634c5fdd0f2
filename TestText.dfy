/** The template texts of the format unit tests, and where their pieces sit. */
module TestText {
  /** The text before the one live marker of the escape test, cut at each '$'. */
  const EscapeText: string := "Lorem \\" + "${ipsum} sit " + "$\\" + "${amet}, adipiscing " + "$"
  const EscapeTemplate: string := EscapeText + "${elit}" + "."

  lemma EscapePieces()
    ensures |EscapeTemplate| == 51
    ensures EscapeTemplate[..43] == EscapeText && EscapeTemplate[43..50] == "${elit}" && EscapeTemplate[50..] == "."
    ensures EscapeTemplate[0..7] == "Lorem \\" && EscapeTemplate[8..20] == "{ipsum} sit "
    ensures EscapeTemplate[23..42] == "{amet}, adipiscing "
    ensures EscapeTemplate[6] == '\\' && EscapeTemplate[7] == '$' && EscapeTemplate[20] == '$'
    ensures EscapeTemplate[21] == '\\' && EscapeTemplate[22] == '$' && EscapeTemplate[42] == '$'
  {
    var t := EscapeText;
    assert |t| == 43;
    assert t[0..7] == "Lorem \\" && t[8..20] == "{ipsum} sit " && t[23..42] == "{amet}, adipiscing ";
    assert EscapeTemplate[..43] == t;
  }

  /** The two-marker templates: literal, marker, literal, marker, literal, each
      marker spelled as "${", its content and "}". */
  const TwoKeywordsTemplate: string := "Lorem " + ("${" + "ipsum" + "}") + " sit " + ("${" + "amet" + "}") + ", adipiscing elit."
  const UnmatchedBracesTemplate: string := "Lorem {" + ("${" + "ipsum" + "}") + " sit " + ("${" + "amet" + "}") + "}, adipiscing elit."
  const NestedBraceTemplate: string := "Lorem {" + ("${" + "ipsum" + "}") + "} sit " + ("${" + "ipsum" + "}") + ", adipiscing elit."
  const BraceTemplate: string := "Lorem " + ("${" + "{ipsum" + "}") + " sit " + ("${" + "amet" + "}") + ", adipiscing elit."
  const DefaultValueTemplate: string :=
    "Lorem " + ("${" + "ipsum" + ":" + "DEFAULT1" + "}") + " sit " + ("${" + "amet" + ":" + "DEFAULT2" + "}") + ", adipiscing elit."
  const DuplicateTemplate: string :=
    "Lorem " + ("${" + "ipsum" + ":" + "DEFAULT1" + "}") + " sit " + ("${" + "ipsum" + ":" + "DEFAULT2" + "}") + ", adipiscing elit."

  /** The literal pieces of the two-marker templates hold no '$' and do not end
      in a backslash. */
  lemma PlainPieces()
    ensures '$' !in "Lorem " && "Lorem "[5] != '\\'
    ensures '$' !in "Lorem {" && "Lorem {"[6] != '\\'
    ensures '$' !in " sit " && " sit "[4] != '\\'
    ensures '$' !in "} sit " && "} sit "[5] != '\\'
    ensures '$' !in ", adipiscing elit." && '$' !in "}, adipiscing elit."
  {
  }

  /** The keywords and defaults of the two-marker templates hold no ':' and no '}'. */
  lemma PlainWords()
    ensures ':' !in "ipsum" && '}' !in "ipsum" && ':' !in "{ipsum" && '}' !in "{ipsum"
    ensures ':' !in "amet" && '}' !in "amet"
    ensures ':' !in "DEFAULT1" && '}' !in "DEFAULT1" && ':' !in "DEFAULT2" && '}' !in "DEFAULT2"
  {
  }
}
