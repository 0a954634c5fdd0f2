/** The few java.lang.String operations the templates rely on, written as functions:
    String.join with null elements, indexOf of one character, and split on a
    one-character separator with Java's removal of trailing empty fields. */
module JavaText {
  import opened Wrappers

  /** Concatenation of the parts, left to right. */
  function Concat(parts: seq<string>): string
  {
    if parts == [] then "" else Concat(parts[..|parts| - 1]) + parts[|parts| - 1]
  }

  /** What Java prints for a String reference: its text, or "null". */
  function NullText(part: Option<string>): string
  {
    match part
    case Some(t) => t
    case None => "null"
  }

  /** String.join("", parts), where a null element is written as "null". */
  function Join(parts: seq<Option<string>>): string
  {
    if parts == [] then "" else Join(parts[..|parts| - 1]) + NullText(parts[|parts| - 1])
  }

  /** One more element adds its text at the end. */
  lemma JoinSnoc(parts: seq<Option<string>>, x: Option<string>)
    ensures Join(parts + [x]) == Join(parts) + NullText(x)
  {
    assert (parts + [x])[..|parts|] == parts;
  }

  /** Joining two lists is joining each and concatenating. */
  lemma {:induction false} JoinAppend(a: seq<Option<string>>, b: seq<Option<string>>)
    ensures Join(a + b) == Join(a) + Join(b)
    decreases |b|
  {
    if b == [] {
      assert a + b == a;
    } else {
      var n := |b| - 1;
      assert a + b == (a + b[..n]) + [b[n]];
      JoinSnoc(a + b[..n], b[n]);
      JoinAppend(a, b[..n]);
      assert b == b[..n] + [b[n]];
      JoinSnoc(b[..n], b[n]);
    }
  }

  /** String.indexOf(c) when c occurs: the first position holding c. */
  function FirstIndexOf(s: string, c: char): (i: nat)
    requires c in s
    ensures i < |s| && s[i] == c
    ensures c !in s[..i]
  {
    if s[0] == c then 0
    else
      var j := FirstIndexOf(s[1..], c);
      assert s[..j + 1] == [s[0]] + s[1..][..j];
      1 + j
  }

  /** The first occurrence is the only position holding c with no c before it. */
  lemma FirstIndexOfUnique(s: string, c: char, i: nat)
    requires i < |s| && s[i] == c && c !in s[..i]
    ensures FirstIndexOf(s, c) == i
  {
  }

  /** The maximal separator-free pieces of s, in order, empty pieces included. */
  function Fields(s: string, sep: char): (r: seq<string>)
    ensures |r| >= 1
    decreases |s|
  {
    if sep !in s then [s]
    else
      var i := FirstIndexOf(s, sep);
      [s[..i]] + Fields(s[i + 1..], sep)
  }

  /** No field holds the separator. */
  lemma {:induction false} FieldsSeparatorFree(s: string, sep: char)
    ensures forall i :: 0 <= i < |Fields(s, sep)| ==> sep !in Fields(s, sep)[i]
    decreases |s|
  {
    if sep in s {
      var i := FirstIndexOf(s, sep);
      var rest := Fields(s[i + 1..], sep);
      FieldsSeparatorFree(s[i + 1..], sep);
      assert Fields(s, sep) == [s[..i]] + rest;
    }
  }

  /** The first field runs up to the first separator. */
  lemma FieldsHead(s: string, sep: char)
    ensures Fields(s, sep)[0] == if sep in s then s[..FirstIndexOf(s, sep)] else s
  {
  }

  /** Puts the pieces back together with the separator between them. */
  function JoinWith(pieces: seq<string>, sep: char): string
    requires |pieces| >= 1
  {
    if |pieces| == 1 then pieces[0] else pieces[0] + [sep] + JoinWith(pieces[1..], sep)
  }

  /** Splitting and re-joining gives back the original text. */
  lemma {:induction false} FieldsJoin(s: string, sep: char)
    ensures JoinWith(Fields(s, sep), sep) == s
    decreases |s|
  {
    if sep in s {
      var i := FirstIndexOf(s, sep);
      var rest := Fields(s[i + 1..], sep);
      var f := Fields(s, sep);
      assert f == [s[..i]] + rest;
      assert |f| > 1 && f[0] == s[..i] && f[1..] == rest;
      assert JoinWith(f, sep) == s[..i] + [sep] + JoinWith(rest, sep);
      FieldsJoin(s[i + 1..], sep);
      assert s == s[..i] + [sep] + s[i + 1..];
    }
  }

  /** The last field of a text that does not end with the separator is not empty. */
  lemma {:induction false} FieldsLastNonEmpty(s: string, sep: char)
    requires |s| > 0 && s[|s| - 1] != sep
    ensures Fields(s, sep)[|Fields(s, sep)| - 1] != ""
    decreases |s|
  {
    if sep in s {
      var i := FirstIndexOf(s, sep);
      var rest := s[i + 1..];
      assert i < |s| - 1;
      assert rest[|rest| - 1] == s[|s| - 1];
      FieldsLastNonEmpty(rest, sep);
      var r, f := Fields(s, sep), Fields(rest, sep);
      assert r == [s[..i]] + f;
      assert r[|r| - 1] == f[|f| - 1];
    }
  }

  /** Drops empty strings from the end, as String.split with limit 0 does. */
  function StripTrailingEmpty(pieces: seq<string>): (r: seq<string>)
    ensures |r| <= |pieces| && r == pieces[..|r|]
    ensures |r| > 0 ==> r[|r| - 1] != ""
    ensures forall i :: |r| <= i < |pieces| ==> pieces[i] == ""
  {
    if pieces == [] || pieces[|pieces| - 1] != "" then pieces
    else StripTrailingEmpty(pieces[..|pieces| - 1])
  }

  /** String.split(String.valueOf(sep)) for a separator that is not a regex
      metacharacter: the whole text when the separator does not occur, otherwise
      the fields without the trailing empty ones. */
  function Split(s: string, sep: char): (r: seq<string>)
    ensures sep !in s ==> r == [s]
    ensures sep in s ==> |r| <= |Fields(s, sep)| && r == Fields(s, sep)[..|r|]
    ensures sep in s && |r| > 0 ==> r[|r| - 1] != ""
    ensures sep in s ==> forall i :: |r| <= i < |Fields(s, sep)| ==> Fields(s, sep)[i] == ""
    ensures forall i :: 0 <= i < |r| ==> sep !in r[i]
  {
    FieldsSeparatorFree(s, sep);
    if sep !in s then [s] else StripTrailingEmpty(Fields(s, sep))
  }

  /** On a text that does not end with the separator nothing is stripped:
      split gives exactly the fields. */
  lemma SplitIsFields(s: string, sep: char)
    requires |s| > 0 && s[|s| - 1] != sep
    ensures Split(s, sep) == Fields(s, sep)
  {
    FieldsLastNonEmpty(s, sep);
  }
}
