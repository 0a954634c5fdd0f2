/** The placeholder scanner of MessageTemplate.Builder: the one fixed pattern
    (?<!\\)\$\{([^}]*)} searched left to right without overlaps, and the lambda
    that turns a matched marker into a keyword and an optional default. */
module Tokenizer {
  import opened Wrappers
  import opened JavaText
  import opened Layout

  /** A live marker starts at i: "${" not preceded by a backslash, with a '}'
      somewhere after it (the greedy run of non-'}' characters then stops at the
      first one). */
  predicate LiveAt(s: string, i: nat)
  {
    && i + 1 < |s|
    && s[i] == '$' && s[i + 1] == '{'
    && (i == 0 || s[i - 1] != '\\')
    && '}' in s[i + 2..]
  }

  /** The text of one match: "${", a run of non-'}' characters, "}". */
  predicate IsMarker(m: string)
  {
    && |m| >= 3
    && m[0] == '$' && m[1] == '{' && m[|m| - 1] == '}'
    && '}' !in m[2..|m| - 1]
  }

  /** What lies between the braces of a marker. */
  function Content(m: string): string
    requires IsMarker(m)
  {
    m[2..|m| - 1]
  }

  datatype Span = Span(start: nat, end: nat)

  /** Matcher.find() resumed at `from`: the leftmost live marker at or after
      `from`, ending just after the first '}' that follows its "${". */
  function FindMarker(s: string, from: nat): (r: Option<Span>)
    requires from <= |s|
    ensures r.None? ==> forall i: nat :: from <= i < |s| ==> !LiveAt(s, i)
    ensures r.Some? ==>
              && from <= r.value.start < r.value.end <= |s|
              && LiveAt(s, r.value.start)
              && (forall i: nat :: from <= i < r.value.start ==> !LiveAt(s, i))
              && IsMarker(s[r.value.start..r.value.end])
    decreases |s| - from
  {
    if from == |s| then None
    else if LiveAt(s, from) then
      var after := s[from + 2..];
      var k := FirstIndexOf(after, '}');
      var close := from + 2 + k;
      var m := s[from..close + 1];
      assert forall j :: 0 <= j < k ==> m[2..|m| - 1][j] == after[j];
      assert m[2..|m| - 1] == after[..k];
      assert m[|m| - 1] == after[k];
      Some(Span(from, close + 1))
    else FindMarker(s, from + 1)
  }

  /** Positions where no live marker starts are passed over: the search is
      leftmost. */
  lemma {:induction false} FindMarkerSkip(s: string, from: nat, to: nat)
    requires from <= to <= |s|
    requires forall i: nat :: from <= i < to ==> !LiveAt(s, i)
    ensures FindMarker(s, from) == FindMarker(s, to)
    decreases |s| - from
  {
    if from < to {
      FindMarkerSkip(s, from + 1, to);
    }
  }

  /** A live marker at i runs to the first '}' after its "${", and no further. */
  lemma FindMarkerAt(s: string, i: nat, close: nat)
    requires LiveAt(s, i) && i + 2 <= close < |s| && s[close] == '}'
    requires forall j :: i + 2 <= j < close ==> s[j] != '}'
    ensures FindMarker(s, i) == Some(Span(i, close + 1))
  {
    var r := FindMarker(s, i);
    var end := r.value.end;
    var m := s[i..end];
    assert s[end - 1] == m[|m| - 1] == '}';
    forall j | i + 2 <= j < end - 1 ensures s[j] != '}' {
      assert m[2..|m| - 1][j - i - 2] == m[j - i] == s[j];
    }
  }

  /** Text without a '$' holds no marker start. */
  lemma NoDollarNoMarker(s: string, from: nat, to: nat)
    requires from <= to <= |s| && '$' !in s[from..to]
    ensures forall i: nat :: from <= i < to ==> !LiveAt(s, i)
  {
    forall i: nat | from <= i < to ensures !LiveAt(s, i) {
      assert s[i] == s[from..to][i - from];
    }
  }

  /** '$'-free text is passed over. */
  lemma SkipDollarFree(s: string, from: nat, to: nat)
    requires from <= to <= |s| && '$' !in s[from..to]
    ensures FindMarker(s, from) == FindMarker(s, to)
  {
    NoDollarNoMarker(s, from, to);
    FindMarkerSkip(s, from, to);
  }

  /** After '$'-free text, a marker not preceded by a backslash is the next
      match. */
  lemma FindMarkerAfter(s: string, from: nat, start: nat, end: nat)
    requires from <= start < end <= |s|
    requires '$' !in s[from..start]
    requires IsMarker(s[start..end])
    requires start > 0 ==> s[start - 1] != '\\'
    ensures FindMarker(s, from) == Some(Span(start, end))
  {
    SkipDollarFree(s, from, start);
    MarkerStart(s, start, end);
    MarkerClose(s, start, end);
    FindMarkerAt(s, start, end - 1);
  }

  /** A marker not preceded by a backslash starts a live match. */
  lemma MarkerStart(s: string, start: nat, end: nat)
    requires start < end <= |s| && IsMarker(s[start..end])
    requires start > 0 ==> s[start - 1] != '\\'
    ensures LiveAt(s, start) && s[end - 1] == '}'
  {
    var m := s[start..end];
    assert s[end - 1] == m[|m| - 1];
    assert s[start] == m[0] && s[start + 1] == m[1];
    assert s[start + 2..][end - 1 - (start + 2)] == s[end - 1];
  }

  /** Inside a marker there is no '}'. */
  lemma MarkerClose(s: string, start: nat, end: nat)
    requires start < end <= |s| && IsMarker(s[start..end])
    ensures forall j :: start + 2 <= j < end - 1 ==> s[j] != '}'
  {
    var m := s[start..end];
    forall j | start + 2 <= j < end - 1 ensures s[j] != '}' {
      assert m[2..|m| - 1][j - start - 2] == m[j - start] == s[j];
    }
  }

  /** '$'-free text up to the end holds no match. */
  lemma FindMarkerNone(s: string, from: nat)
    requires from <= |s| && '$' !in s[from..]
    ensures FindMarker(s, from) == None
  {
    NoDollarNoMarker(s, from, |s|);
    FindMarkerSkip(s, from, |s|);
  }

  datatype Reservation = Reservation(keyword: string, defaultValue: Option<string>)

  /** The only failure of the parser: the second colon field is empty, and
      substring(0, -1) throws StringIndexOutOfBoundsException. */
  datatype ParseError = EmptyDefaultField

  /** The parts of a marker's split on ':' that the parser reads. */
  lemma MarkerFields(m: string, c: string, i: nat, rest: string)
    requires IsMarker(m) && c == Content(m) && ':' in c
    requires i == FirstIndexOf(c, ':') && rest == c[i + 1..]
    ensures |Split(m, ':')| >= 2 && |Split(m, ':')[0]| >= 2
    ensures Split(m, ':')[0][2..] == c[..i]
    ensures ':' !in rest ==> Split(m, ':')[1] == rest + "}"
    ensures ':' in rest ==> Split(m, ':')[1] == rest[..FirstIndexOf(rest, ':')]
  {
    var tail := m[i + 3..];
    var parted := Split(m, ':');
    assert |parted| >= 2 && parted[0] == m[..i + 2] && parted[1] == Fields(tail, ':')[0] by {
      SplitIsFields(m, ':');
      ColonShift(m);
      assert parted == [m[..i + 2]] + Fields(tail, ':');
    }
    assert tail == rest + "}" && m[..i + 2][2..] == c[..i] by { ColonPieces(m); }
    assert ':' in rest ==> parted[1] == rest[..FirstIndexOf(rest, ':')] by { CloseField(rest); }
    assert ':' !in rest ==> parted[1] == rest + "}" by { CloseField(rest); }
  }

  /** The first ':'-field of the text after a marker's first colon. */
  lemma CloseField(rest: string)
    ensures ':' !in rest ==> Fields(rest + "}", ':')[0] == rest + "}"
    ensures ':' in rest ==> Fields(rest + "}", ':')[0] == rest[..FirstIndexOf(rest, ':')]
  {
    var tail := rest + "}";
    FieldsHead(tail, ':');
    if ':' in rest {
      var j := FirstIndexOf(rest, ':');
      assert tail[..j] == rest[..j];
      assert FirstIndexOf(tail, ':') == j by {
        assert tail[j] == ':';
        FirstIndexOfUnique(tail, ':', j);
      }
    } else {
      assert ':' !in tail by {
        assert forall k :: 0 <= k < |rest| ==> tail[k] == rest[k];
      }
    }
  }

  /** The first colon of a marker is the first colon of its content, two
      characters further on. */
  lemma ColonShift(m: string)
    requires IsMarker(m) && ':' in Content(m)
    ensures ':' in m && FirstIndexOf(m, ':') == FirstIndexOf(Content(m), ':') + 2
  {
    var c := Content(m);
    var i := FirstIndexOf(c, ':');
    assert m[i + 2] == c[i];
    assert ':' !in m[..i + 2] by {
      assert forall k :: 2 <= k < i + 2 ==> m[k] == c[..i][k - 2];
    }
    FirstIndexOfUnique(m, ':', i + 2);
  }

  /** The marker around the first colon of its content. */
  lemma ColonPieces(m: string)
    requires IsMarker(m) && ':' in Content(m)
    ensures var c := Content(m);
            var i := FirstIndexOf(c, ':');
            && m[i + 3..] == c[i + 1..] + "}"
            && m[..i + 2][2..] == c[..i]
  {
    var c := Content(m);
    var i := FirstIndexOf(c, ':');
    assert m[i + 3..] == c[i + 1..] + "}" by {
      assert m[i + 3..] == m[i + 3..|m| - 1] + [m[|m| - 1]];
      var mid := m[i + 3..|m| - 1];
      forall k | 0 <= k < |mid|
        ensures mid[k] == c[i + 1..][k]
      {
        assert mid[k] == m[i + 3 + k] == c[i + 1 + k];
      }
    }
    assert m[..i + 2][2..] == c[..i] by {
      assert forall k :: 0 <= k < i ==> m[..i + 2][2..][k] == m[k + 2] == c[k];
    }
  }

  /** Content parser (CURLY_BRACE_RESERVED_POSITION_PARSER), applied to the whole
      matched text "${...}". */
  function ParseMarker(m: string): (r: Result<Reservation, ParseError>)
    requires IsMarker(m)
    ensures ':' !in Content(m) ==> r == Success(Reservation(Content(m), None))
    ensures ':' in Content(m) ==>
              var c := Content(m);
              var i := FirstIndexOf(c, ':');
              var rest := c[i + 1..];
              if ':' !in rest then
                r == Success(Reservation(c[..i], Some(rest)))
              else
                var j := FirstIndexOf(rest, ':');
                if j == 0 then r == Failure(EmptyDefaultField)
                else r == Success(Reservation(c[..i], Some(rest[..j - 1])))
  {
    ColonInMarker(m);
    if ':' in m then
      var parted := Split(m, ':');
      var c := Content(m);
      var i := FirstIndexOf(c, ':');
      MarkerFields(m, c, i, c[i + 1..]);
      var keyword := parted[0][2..];
      if |parted[1]| == 0 then Failure(EmptyDefaultField)
      else
        var defaultValue := parted[1][..|parted[1]| - 1];
        DefaultField(parted[1], c[i + 1..]);
        Success(Reservation(keyword, Some(defaultValue)))
    else
      Success(Reservation(m[2..|m| - 1], None))
  }

  lemma ColonInMarker(m: string)
    requires IsMarker(m)
    ensures ':' in m <==> ':' in Content(m)
  {
    MarkerShape(m);
  }

  /** The second colon field with its last character dropped, as the parser
      reads it. */
  lemma DefaultField(field: string, rest: string)
    requires |field| > 0
    requires ':' !in rest ==> field == rest + "}"
    requires ':' in rest ==> field == rest[..FirstIndexOf(rest, ':')]
    ensures ':' !in rest ==> field[..|field| - 1] == rest
    ensures ':' in rest ==> field[..|field| - 1] == rest[..FirstIndexOf(rest, ':') - 1]
  {
  }

  /** The builder calls the scanner makes: append(text) or reserve(keyword, default). */
  datatype Event = Literal(text: string) | Placeholder(keyword: string, defaultValue: Option<string>)

  /** The calls made for a template, and whether the parser threw part way. */
  datatype Scanned = Scanned(events: seq<Event>, failed: bool)

  /** Literals and placeholders alternate, starting and ending with a literal. */
  predicate Alternating(events: seq<Event>)
  {
    && |events| % 2 == 1
    && forall i :: 0 <= i < |events| ==> (events[i].Literal? <==> i % 2 == 0)
  }

  lemma AlternatingPrepend(lit: Event, slot: Event, events: seq<Event>)
    requires lit.Literal? && slot.Placeholder? && Alternating(events)
    ensures Alternating([lit, slot] + events)
  {
    var all := [lit, slot] + events;
    forall i | 2 <= i < |all| ensures (all[i].Literal? <==> i % 2 == 0) {
      assert all[i] == events[i - 2];
    }
  }

  /** The calls format(template) makes from position `from` on: the text before
      each live marker, then the marker's reservation, and finally the text after
      the last marker. */
  function Scan(s: string, from: nat): (r: Scanned)
    requires from <= |s|
    ensures Alternating(r.events)
    ensures r.events[0] == Literal(s[from..if FindMarker(s, from).Some? then FindMarker(s, from).value.start else |s|])
    decreases |s| - from
  {
    match FindMarker(s, from)
    case None => Scanned([Literal(s[from..])], false)
    case Some(span) =>
      var piece := Literal(s[from..span.start]);
      match ParseMarker(s[span.start..span.end])
      case Failure(_) => Scanned([piece], true)
      case Success(res) =>
        var rest := Scan(s, span.end);
        var events := [piece, Placeholder(res.keyword, res.defaultValue)] + rest.events;
        AlternatingPrepend(piece, Placeholder(res.keyword, res.defaultValue), rest.events);
        Scanned(events, rest.failed)
  }

  /** One round of format's loop: the next match is found, the text before it
      is appended, and the parser either throws, ending the calls, or gives a
      reservation, after which the loop goes on at the match's end. */
  lemma ScanRound(s: string, from: nat, start: nat, end: nat)
    requires from <= |s| && FindMarker(s, from) == Some(Span(start, end))
    ensures ParseMarker(s[start..end]).Failure? ==> Scan(s, from) == Scanned([Literal(s[from..start])], true)
    ensures ParseMarker(s[start..end]).Success? ==>
              (Scan(s, from)
               == Scanned([Literal(s[from..start]),
                           Placeholder(ParseMarker(s[start..end]).value.keyword, ParseMarker(s[start..end]).value.defaultValue)]
                          + Scan(s, end).events,
                          Scan(s, end).failed))
  {
  }

  /** When no match is left, the rest of the template is appended whole. */
  lemma ScanRest(s: string, from: nat)
    requires from <= |s| && FindMarker(s, from) == None
    ensures Scan(s, from) == Scanned([Literal(s[from..])], false)
  {
  }

  /** ScanRound for a match that follows '$'-free text and parses. */
  lemma ScanStep(s: string, from: nat, start: nat, end: nat)
    requires from <= start < end <= |s|
    requires '$' !in s[from..start]
    requires IsMarker(s[start..end])
    requires start > 0 ==> s[start - 1] != '\\'
    requires ParseMarker(s[start..end]).Success?
    ensures var res := ParseMarker(s[start..end]).value;
            Scan(s, from) == Scanned([Literal(s[from..start]), Placeholder(res.keyword, res.defaultValue)] + Scan(s, end).events,
                                     Scan(s, end).failed)
  {
    FindMarkerAfter(s, from, start, end);
    ScanRound(s, from, start, end);
  }

  /** ScanRest for a '$'-free tail. */
  lemma ScanLast(s: string, from: nat)
    requires from <= |s| && '$' !in s[from..]
    ensures Scan(s, from) == Scanned([Literal(s[from..])], false)
  {
    FindMarkerNone(s, from);
    ScanRest(s, from);
  }

  /** The number of matches found from `from` on. */
  function MarkerCount(s: string, from: nat): nat
    requires from <= |s|
    decreases |s| - from
  {
    match FindMarker(s, from)
    case None => 0
    case Some(span) => 1 + MarkerCount(s, span.end)
  }

  /** A scan that does not fail makes one call per piece of text and one per
      marker: 2m + 1 calls for m markers. */
  lemma {:induction false} ScanLength(s: string, from: nat)
    requires from <= |s|
    requires !Scan(s, from).failed
    ensures |Scan(s, from).events| == 2 * MarkerCount(s, from) + 1
    decreases |s| - from
  {
    match FindMarker(s, from)
    case None =>
    case Some(span) =>
      ScanLength(s, span.end);
  }

  /** No marker met from `from` on holds more than one colon. */
  predicate SimpleMarkers(s: string, from: nat)
    requires from <= |s|
    decreases |s| - from
  {
    match FindMarker(s, from)
    case None => true
    case Some(span) =>
      var c := Content(s[span.start..span.end]);
      && (':' in c ==> ':' !in c[FirstIndexOf(c, ':') + 1..])
      && SimpleMarkers(s, span.end)
  }

  /** The text of one call as a template: the literal itself, or the marker. */
  function EventText(e: Event): string
  {
    match e
    case Literal(t) => t
    case Placeholder(k, d) => MarkerText(k, d)
  }

  function Unparse(events: seq<Event>): string
  {
    if events == [] then "" else EventText(events[0]) + Unparse(events[1..])
  }

  lemma MarkerShape(m: string)
    requires IsMarker(m)
    ensures m == "${" + Content(m) + "}"
  {
  }

  lemma ColonShape(c: string)
    requires ':' in c
    ensures c == c[..FirstIndexOf(c, ':')] + ":" + c[FirstIndexOf(c, ':') + 1..]
  {
    var i := FirstIndexOf(c, ':');
    assert c == c[..i] + [c[i]] + c[i + 1..];
  }

  lemma MarkerRegroup(k: string, d: string)
    ensures "${" + k + ":" + d + "}" == "${" + (k + ":" + d) + "}"
  {
  }

  /** A marker with at most one colon is rebuilt exactly from what the parser
      makes of it. */
  lemma ParseUnparse(m: string)
    requires IsMarker(m)
    requires ':' in Content(m) ==> ':' !in Content(m)[FirstIndexOf(Content(m), ':') + 1..]
    ensures ParseMarker(m).Success?
    ensures EventText(Placeholder(ParseMarker(m).value.keyword, ParseMarker(m).value.defaultValue)) == m
  {
    var c := Content(m);
    if ':' in c {
      var i := FirstIndexOf(c, ':');
      var k, d := c[..i], c[i + 1..];
      assert ParseMarker(m) == Success(Reservation(k, Some(d)));
      assert "${" + k + ":" + d + "}" == m by {
        assert c == k + ":" + d by { ColonShape(c); }
        MarkerShape(m);
        MarkerRegroup(k, d);
      }
    } else {
      assert ParseMarker(m) == Success(Reservation(c, None));
      assert "${" + c + "}" == m by { MarkerShape(m); }
    }
  }

  /** Scanning loses nothing: when every marker has at most one colon, the calls
      written back as template text give the scanned text, byte for byte. */
  lemma {:induction false} ScanUnparse(s: string, from: nat)
    requires from <= |s|
    requires SimpleMarkers(s, from)
    ensures !Scan(s, from).failed
    ensures Unparse(Scan(s, from).events) == s[from..]
    decreases |s| - from
  {
    match FindMarker(s, from)
    case None =>
      assert Unparse(Scan(s, from).events) == s[from..] + Unparse([]);
    case Some(span) =>
      var m := s[span.start..span.end];
      ParseUnparse(m);
      ScanUnparse(s, span.end);
      var res := ParseMarker(m).value;
      var slot := Placeholder(res.keyword, res.defaultValue);
      var rest := Scan(s, span.end).events;
      assert Scan(s, from).events == [Literal(s[from..span.start]), slot] + rest;
      UnparsePair(Literal(s[from..span.start]), slot, rest);
      SliceAround(s, from, span.start, span.end);
  }

  lemma UnparsePair(lit: Event, slot: Event, rest: seq<Event>)
    ensures Unparse([lit, slot] + rest) == EventText(lit) + (EventText(slot) + Unparse(rest))
  {
    var events := [lit, slot] + rest;
    assert events[1..] == [slot] + rest && events[1..][1..] == rest;
  }

  lemma SliceAround(s: string, a: nat, b: nat, c: nat)
    requires a <= b <= c <= |s|
    ensures s[a..] == s[a..b] + (s[b..c] + s[c..])
  {
    assert s[b..] == s[b..c] + s[c..];
    assert s[a..] == s[a..b] + s[b..];
  }
}
