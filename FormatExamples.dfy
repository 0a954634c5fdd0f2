/** The format(template) unit tests of MessageTemplate: the template text goes
    through the scanner and the builder, and process is applied to the result.
    Templates are written as concatenations of their literal pieces and markers. */
module FormatExamples {
  import opened Wrappers
  import opened Layout
  import opened Tokenizer
  import opened Format
  import MessageTemplates
  import opened Examples
  import opened TestText

  lemma ReplayFiveSteps(a: string, k1: string, d1: Option<string>, b: string, k2: string, d2: Option<string>, c: string)
    ensures WellFormed(Empty)
    ensures Replay(Empty, [Literal(a), Placeholder(k1, d1), Literal(b), Placeholder(k2, d2), Literal(c)])
         == FiveCalls(a, k1, d1, b, k2, d2, c)
  {
    EmptyWellFormed();
    var e := [Literal(a), Placeholder(k1, d1), Literal(b), Placeholder(k2, d2), Literal(c)];
    var s1 := AppendStep(Empty, a);
    var s2 := ReserveStep(s1, k1, d1);
    var s3 := AppendStep(s2, b);
    var s4 := ReserveStep(s3, k2, d2);
    var s5 := AppendStep(s4, c);
    assert Replay(Empty, e) == Replay(s1, e[1..]);
    assert Replay(s1, e[1..]) == Replay(s2, e[2..]) by { assert e[1..][1..] == e[2..]; }
    assert Replay(s2, e[2..]) == Replay(s3, e[3..]) by { assert e[2..][1..] == e[3..]; }
    assert Replay(s3, e[3..]) == Replay(s4, e[4..]) by { assert e[3..][1..] == e[4..]; }
    assert Replay(s4, e[4..]) == Replay(s5, e[5..]) by { assert e[4..][1..] == e[5..]; }
    assert e[5..] == [];
  }

  /** Where the pieces of a two-marker template sit. */
  lemma FivePieces(s: string, a: string, m1: string, b: string, m2: string, c: string, i1: nat, j1: nat, i2: nat, j2: nat)
    requires s == a + m1 + b + m2 + c
    requires i1 == |a| && j1 == i1 + |m1| && i2 == j1 + |b| && j2 == i2 + |m2|
    ensures j2 <= |s|
    ensures s[0..i1] == a && s[i1..j1] == m1 && s[j1..i2] == b && s[i2..j2] == m2 && s[j2..] == c
  {
  }

  /** format on '$'-free text, a marker, '$'-free text, a marker and '$'-free
      text, where no marker follows a backslash: two appends around each
      reservation, and no parser failure. */
  lemma TwoMarkerScan(a: string, m1: string, b: string, m2: string, c: string,
                      k1: string, d1: Option<string>, k2: string, d2: Option<string>)
    requires '$' !in a && '$' !in b && '$' !in c
    requires IsMarker(m1) && IsMarker(m2)
    requires ParseMarker(m1) == Success(Reservation(k1, d1)) && ParseMarker(m2) == Success(Reservation(k2, d2))
    requires |a| > 0 ==> a[|a| - 1] != '\\'
    requires |b| > 0 ==> b[|b| - 1] != '\\'
    ensures Scan(a + m1 + b + m2 + c, 0)
         == Scanned([Literal(a), Placeholder(k1, d1), Literal(b), Placeholder(k2, d2), Literal(c)], false)
  {
    var i1 := |a|;
    var j1 := i1 + |m1|;
    var i2 := j1 + |b|;
    var j2 := i2 + |m2|;
    FivePieces(a + m1 + b + m2 + c, a, m1, b, m2, c, i1, j1, i2, j2);
    TwoMarkerScanAt(a + m1 + b + m2 + c, a, m1, b, m2, c, k1, d1, k2, d2, i1, j1, i2, j2);
  }

  lemma TwoMarkerScanAt(s: string, a: string, m1: string, b: string, m2: string, c: string,
                        k1: string, d1: Option<string>, k2: string, d2: Option<string>,
                        i1: nat, j1: nat, i2: nat, j2: nat)
    requires '$' !in a && '$' !in b && '$' !in c
    requires IsMarker(m1) && IsMarker(m2)
    requires ParseMarker(m1) == Success(Reservation(k1, d1)) && ParseMarker(m2) == Success(Reservation(k2, d2))
    requires |a| > 0 ==> a[|a| - 1] != '\\'
    requires |b| > 0 ==> b[|b| - 1] != '\\'
    requires i1 == |a| && j1 == i1 + |m1| && i2 == j1 + |b| && j2 == i2 + |m2| && j2 <= |s|
    requires s[0..i1] == a && s[i1..j1] == m1 && s[j1..i2] == b && s[i2..j2] == m2 && s[j2..] == c
    ensures Scan(s, 0) == Scanned([Literal(a), Placeholder(k1, d1), Literal(b), Placeholder(k2, d2), Literal(c)], false)
  {
    assert s[..i1] == s[0..i1];
    NoEscapeBefore(s, a, m1, b, i1, j1, i2);
    ScanTwoMarkers(s, i1, j1, i2, j2);
  }

  /** Neither marker of a two-marker template follows a backslash. */
  lemma NoEscapeBefore(s: string, a: string, m1: string, b: string, i1: nat, j1: nat, i2: nat)
    requires i1 == |a| && j1 == i1 + |m1| && i2 == j1 + |b| && i2 <= |s|
    requires s[0..i1] == a && s[i1..j1] == m1 && s[j1..i2] == b
    requires IsMarker(m1)
    requires |a| > 0 ==> a[|a| - 1] != '\\'
    requires |b| > 0 ==> b[|b| - 1] != '\\'
    ensures i1 > 0 ==> s[i1 - 1] != '\\'
    ensures s[i2 - 1] != '\\'
  {
    if i1 > 0 {
      assert s[i1 - 1] == s[0..i1][i1 - 1];
    }
    if |b| > 0 {
      assert s[i2 - 1] == s[j1..i2][|b| - 1];
    } else {
      assert s[i2 - 1] == s[i1..j1][|m1| - 1];
    }
  }

  /** The calls format makes for a template holding two markers, each after
      '$'-free text that does not end in a backslash. */
  lemma ScanTwoMarkers(s: string, i1: nat, j1: nat, i2: nat, j2: nat)
    requires i1 < j1 <= i2 < j2 <= |s|
    requires '$' !in s[..i1] && '$' !in s[j1..i2] && '$' !in s[j2..]
    requires IsMarker(s[i1..j1]) && IsMarker(s[i2..j2])
    requires ParseMarker(s[i1..j1]).Success? && ParseMarker(s[i2..j2]).Success?
    requires i1 > 0 ==> s[i1 - 1] != '\\'
    requires s[i2 - 1] != '\\'
    ensures Scan(s, 0)
         == Scanned([Literal(s[..i1]), Placeholder(ParseMarker(s[i1..j1]).value.keyword, ParseMarker(s[i1..j1]).value.defaultValue),
                     Literal(s[j1..i2]), Placeholder(ParseMarker(s[i2..j2]).value.keyword, ParseMarker(s[i2..j2]).value.defaultValue),
                     Literal(s[j2..])], false)
  {
    var r1, r2 := ParseMarker(s[i1..j1]).value, ParseMarker(s[i2..j2]).value;
    var p1, p2 := Placeholder(r1.keyword, r1.defaultValue), Placeholder(r2.keyword, r2.defaultValue);
    assert s[0..i1] == s[..i1];
    ScanLast(s, j2);
    var e2 := Scan(s, j2).events;
    ScanStep(s, j1, i2, j2);
    var e1 := Scan(s, j1).events;
    assert e1 == [Literal(s[j1..i2]), p2] + e2;
    ScanStep(s, 0, i1, j1);
    assert Scan(s, 0).events == [Literal(s[..i1]), p1] + e1;
    FiveEvents(Literal(s[..i1]), p1, Literal(s[j1..i2]), p2, Literal(s[j2..]));
  }

  /** ... and the builder state those calls leave on a fresh builder. */
  lemma TwoMarkerTemplate(a: string, m1: string, b: string, m2: string, c: string,
                          k1: string, d1: Option<string>, k2: string, d2: Option<string>)
    requires '$' !in a && '$' !in b && '$' !in c
    requires IsMarker(m1) && IsMarker(m2)
    requires ParseMarker(m1) == Success(Reservation(k1, d1)) && ParseMarker(m2) == Success(Reservation(k2, d2))
    requires |a| > 0 ==> a[|a| - 1] != '\\'
    requires |b| > 0 ==> b[|b| - 1] != '\\'
    ensures !Scan(a + m1 + b + m2 + c, 0).failed
    ensures WellFormed(Empty)
    ensures Replay(Empty, Scan(a + m1 + b + m2 + c, 0).events) == FiveCalls(a, k1, d1, b, k2, d2, c)
  {
    TwoMarkerScan(a, m1, b, m2, c, k1, d1, k2, d2);
    ReplayFiveSteps(a, k1, d1, b, k2, d2, c);
  }

  lemma FiveEvents(a: Event, b: Event, c: Event, d: Event, e: Event)
    ensures [a, b] + ([c, d] + [e]) == [a, b, c, d, e]
  {
  }

  // ---------------------------------------------------------------------------
  // "Empty template should return an empty string"

  lemma EmptyLayout()
    ensures WellFormed(Empty)
    ensures var st := Replay(Empty, Scan("", 0).events);
            st.segments == [Some("")] && Render(st.segments, st.index, map[]) == ""
  {
    assert Scan("", 0).events == [Literal("")];
    EmptyWellFormed();
    var st := AppendStep(Empty, "");
    assert Replay(Empty, [Literal("")]) == Replay(st, []);
    assert st.segments == [Some("")];
    RenderEmpty(st.segments, st.index);
    assert st.segments[..0] == [];
  }

  method EmptyTemplateTest() returns (r: string)
    ensures r == ""
  {
    var b := new MessageTemplates.Builder();
    var ok := b.AppendTemplate("");
    var t := b.Build();
    EmptyLayout();
    r := t.Process(map[]);
  }

  // ---------------------------------------------------------------------------
  // "Escaped special character should be ignored": a backslash right before "${"
  // hides the marker; "$${" is a '$' followed by a marker.

  lemma EscapeFind()
    ensures FindMarker(EscapeTemplate, 0) == Some(Span(43, 50))
    ensures FindMarker(EscapeTemplate, 50) == None
  {
    var s := EscapeTemplate;
    EscapePieces();
    assert FindMarker(s, 0) == FindMarker(s, 43) by {
      NoDollarNoMarker(s, 0, 7);
      NoDollarNoMarker(s, 8, 20);
      NoDollarNoMarker(s, 23, 42);
      assert !LiveAt(s, 7) && !LiveAt(s, 20) && !LiveAt(s, 21) && !LiveAt(s, 22) && !LiveAt(s, 42);
      FindMarkerSkip(s, 0, 43);
    }
    assert FindMarker(s, 43) == Some(Span(43, 50)) by {
      assert "${elit}" == MarkerText("elit", None);
      ParseMarkerText("elit", None);
      FindMarkerAfter(s, 43, 43, 50);
    }
    FindMarkerNone(s, 50);
  }

  lemma EscapeScan()
    ensures Scan(EscapeTemplate, 0) == Scanned([Literal(EscapeText), Placeholder("elit", None), Literal(".")], false)
  {
    var s := EscapeTemplate;
    EscapeFind();
    EscapePieces();
    assert "${elit}" == MarkerText("elit", None);
    ParseMarkerText("elit", None);
  }

  lemma EscapeLayout()
    ensures WellFormed(Empty)
    ensures var st := Replay(Empty, [Literal(EscapeText), Placeholder("elit", None), Literal(".")]);
            st.segments == [Some(EscapeText), None, Some(".")] && st.index == map["elit" := [1]]
  {
    EmptyWellFormed();
    var e := [Literal(EscapeText), Placeholder("elit", None), Literal(".")];
    var s1 := AppendStep(Empty, EscapeText);
    var s2 := ReserveStep(s1, "elit", None);
    var s3 := AppendStep(s2, ".");
    assert e[1..][1..] == [Literal(".")];
    assert Replay(Empty, e) == Replay(s1, e[1..]);
    assert Replay(s1, e[1..]) == Replay(s2, [Literal(".")]);
    assert Replay(s2, [Literal(".")]) == Replay(s3, []);
    assert s1.segments == [Some(EscapeText)] && s1.index == map[];
    assert s3.index == map["elit" := [1]] by {
      assert s2.index["elit"] == [1];
    }
  }

  lemma EscapeRender()
    ensures Render([Some(EscapeText), None, Some(".")], map["elit" := [1]], map["elit" := "100"])
         == EscapeText + "100" + "."
  {
    var segs, idx, m := [Some(EscapeText), None, Some(".")], map["elit" := [1]], map["elit" := "100"];
    var r := Resolved(segs, idx, m);
    assert r == [Some(EscapeText), Some("100"), Some(".")] by {
      assert forall k, p: nat :: Owns(idx, k, p) <==> k == "elit" && p == 1;
      assert Owns(idx, "elit", 1);
      assert Frozen(segs, idx);
      ResolveOwned(segs, idx, m, "elit", 1);
      LiteralKept(segs, idx, m, 0);
      LiteralKept(segs, idx, m, 2);
    }
    JoinSlot(EscapeText, Some("100"), ".");
  }

  method EscapeTest() returns (r: string)
    ensures r == EscapeText + "100" + "."
  {
    var b := new MessageTemplates.Builder();
    var ok := b.AppendTemplate(EscapeTemplate);
    var t := b.Build();
    EscapeScan();
    EscapeLayout();
    EscapeRender();
    r := t.Process(map["elit" := "100"]);
  }

  // ---------------------------------------------------------------------------
  // The two-marker tests: each template is literal, marker, literal, marker,
  // literal, and the expected text is written piece by piece.

  /** "Template with two keywords should reflect their respective values". */
  lemma TwoKeywordsLayout()
    ensures WellFormed(Empty)
    ensures Replay(Empty, Scan(TwoKeywordsTemplate, 0).events)
         == FiveCalls("Lorem ", "ipsum", None, " sit ", "amet", None, ", adipiscing elit.")
  {
    PlainPieces();
    PlainWords();
    ParseMarkerText("ipsum", None);
    ParseMarkerText("amet", None);
    TwoMarkerTemplate("Lorem ", "${" + "ipsum" + "}", " sit ", "${" + "amet" + "}", ", adipiscing elit.",
                      "ipsum", None, "amet", None);
  }

  method TwoKeywordsTest() returns (r: string)
    ensures r == "Lorem " + "IPSUM" + " sit " + "AMET" + ", adipiscing elit."
  {
    var b := new MessageTemplates.Builder();
    var ok := b.AppendTemplate(TwoKeywordsTemplate);
    var t := b.Build();
    TwoKeywordsLayout();
    FiveCallsRender("Lorem ", "ipsum", None, " sit ", "amet", None, ", adipiscing elit.",
                    map["ipsum" := "IPSUM", "amet" := "AMET"]);
    r := t.Process(map["ipsum" := "IPSUM", "amet" := "AMET"]);
  }

  /** "Unmatched curly braces should be ignored": braces outside markers are
      plain text. */
  lemma UnmatchedBracesLayout()
    ensures WellFormed(Empty)
    ensures Replay(Empty, Scan(UnmatchedBracesTemplate, 0).events)
         == FiveCalls("Lorem {", "ipsum", None, " sit ", "amet", None, "}, adipiscing elit.")
  {
    PlainPieces();
    PlainWords();
    ParseMarkerText("ipsum", None);
    ParseMarkerText("amet", None);
    TwoMarkerTemplate("Lorem {", "${" + "ipsum" + "}", " sit ", "${" + "amet" + "}", "}, adipiscing elit.",
                      "ipsum", None, "amet", None);
  }

  method UnmatchedBracesTest() returns (r: string)
    ensures r == "Lorem {" + "IPSUM" + " sit " + "AMET" + "}, adipiscing elit."
  {
    var b := new MessageTemplates.Builder();
    var ok := b.AppendTemplate(UnmatchedBracesTemplate);
    var t := b.Build();
    UnmatchedBracesLayout();
    FiveCallsRender("Lorem {", "ipsum", None, " sit ", "amet", None, "}, adipiscing elit.",
                    map["ipsum" := "IPSUM", "amet" := "AMET"]);
    r := t.Process(map["ipsum" := "IPSUM", "amet" := "AMET"]);
  }

  /** "Nested curly brace should be captured as reserved keyword": the same
      keyword twice, both positions replaced. */
  lemma NestedBraceLayout()
    ensures WellFormed(Empty)
    ensures Replay(Empty, Scan(NestedBraceTemplate, 0).events)
         == FiveCalls("Lorem {", "ipsum", None, "} sit ", "ipsum", None, ", adipiscing elit.")
  {
    PlainPieces();
    PlainWords();
    ParseMarkerText("ipsum", None);
    TwoMarkerTemplate("Lorem {", "${" + "ipsum" + "}", "} sit ", "${" + "ipsum" + "}", ", adipiscing elit.",
                      "ipsum", None, "ipsum", None);
  }

  method NestedBraceTest() returns (r: string)
    ensures r == "Lorem {" + "IPSUM" + "} sit " + "IPSUM" + ", adipiscing elit."
  {
    var b := new MessageTemplates.Builder();
    var ok := b.AppendTemplate(NestedBraceTemplate);
    var t := b.Build();
    NestedBraceLayout();
    FiveCallsRender("Lorem {", "ipsum", None, "} sit ", "ipsum", None, ", adipiscing elit.", map["ipsum" := "IPSUM"]);
    r := t.Process(map["ipsum" := "IPSUM"]);
  }

  /** "Curly braces should capture all character before closing": the keyword of
      "${{ipsum}" is "{ipsum"; "${amet}" has no default and no value, and
      String.join writes the null segment as "null". */
  lemma BraceLayout()
    ensures WellFormed(Empty)
    ensures Replay(Empty, Scan(BraceTemplate, 0).events)
         == FiveCalls("Lorem ", "{ipsum", None, " sit ", "amet", None, ", adipiscing elit.")
  {
    PlainPieces();
    PlainWords();
    ParseMarkerText("{ipsum", None);
    ParseMarkerText("amet", None);
    TwoMarkerTemplate("Lorem ", "${" + "{ipsum" + "}", " sit ", "${" + "amet" + "}", ", adipiscing elit.",
                      "{ipsum", None, "amet", None);
  }

  method BraceTest() returns (r: string)
    ensures r == "Lorem " + "IPSUM" + " sit " + "null" + ", adipiscing elit."
  {
    var b := new MessageTemplates.Builder();
    var ok := b.AppendTemplate(BraceTemplate);
    var t := b.Build();
    BraceLayout();
    FiveCallsRender("Lorem ", "{ipsum", None, " sit ", "amet", None, ", adipiscing elit.", map["{ipsum" := "IPSUM"]);
    r := t.Process(map["{ipsum" := "IPSUM"]);
  }

  /** "Default value should be used". */
  lemma DefaultValueLayout()
    ensures WellFormed(Empty)
    ensures Replay(Empty, Scan(DefaultValueTemplate, 0).events)
         == FiveCalls("Lorem ", "ipsum", Some("DEFAULT1"), " sit ", "amet", Some("DEFAULT2"), ", adipiscing elit.")
  {
    PlainPieces();
    PlainWords();
    ParseMarkerText("ipsum", Some("DEFAULT1"));
    ParseMarkerText("amet", Some("DEFAULT2"));
    TwoMarkerTemplate("Lorem ", "${" + "ipsum" + ":" + "DEFAULT1" + "}", " sit ", "${" + "amet" + ":" + "DEFAULT2" + "}",
                      ", adipiscing elit.", "ipsum", Some("DEFAULT1"), "amet", Some("DEFAULT2"));
  }

  method DefaultValueTest() returns (r: string)
    ensures r == "Lorem " + "DEFAULT1" + " sit " + "DEFAULT2" + ", adipiscing elit."
  {
    var b := new MessageTemplates.Builder();
    var ok := b.AppendTemplate(DefaultValueTemplate);
    var t := b.Build();
    DefaultValueLayout();
    FiveCallsRender("Lorem ", "ipsum", Some("DEFAULT1"), " sit ", "amet", Some("DEFAULT2"), ", adipiscing elit.", map[]);
    r := t.Process(map[]);
  }

  /** "Duplicated keyword should hold respective default value": one keyword,
      two positions, each with its own default; a value replaces both. */
  lemma DuplicateLayout()
    ensures WellFormed(Empty)
    ensures Replay(Empty, Scan(DuplicateTemplate, 0).events)
         == FiveCalls("Lorem ", "ipsum", Some("DEFAULT1"), " sit ", "ipsum", Some("DEFAULT2"), ", adipiscing elit.")
  {
    PlainPieces();
    PlainWords();
    ParseMarkerText("ipsum", Some("DEFAULT1"));
    ParseMarkerText("ipsum", Some("DEFAULT2"));
    TwoMarkerTemplate("Lorem ", "${" + "ipsum" + ":" + "DEFAULT1" + "}", " sit ", "${" + "ipsum" + ":" + "DEFAULT2" + "}",
                      ", adipiscing elit.", "ipsum", Some("DEFAULT1"), "ipsum", Some("DEFAULT2"));
  }

  method DuplicateKeywordTest() returns (defaults: string, replaced: string)
    ensures defaults == "Lorem " + "DEFAULT1" + " sit " + "DEFAULT2" + ", adipiscing elit."
    ensures replaced == "Lorem " + "IPSUM" + " sit " + "IPSUM" + ", adipiscing elit."
  {
    var b := new MessageTemplates.Builder();
    var ok := b.AppendTemplate(DuplicateTemplate);
    var t := b.Build();
    DuplicateLayout();
    FiveCallsRender("Lorem ", "ipsum", Some("DEFAULT1"), " sit ", "ipsum", Some("DEFAULT2"), ", adipiscing elit.", map[]);
    FiveCallsRender("Lorem ", "ipsum", Some("DEFAULT1"), " sit ", "ipsum", Some("DEFAULT2"), ", adipiscing elit.",
                    map["ipsum" := "IPSUM"]);
    defaults := t.Process(map[]);
    replaced := t.Process(map["ipsum" := "IPSUM"]);
  }
}
