/** The array work both template classes share: List.toArray, the loops of
    build() that copy each keyword's position list into an int[], and process(),
    which copies the segment array, overwrites the supplied keywords' positions
    and joins the copy. */
module TemplateArrays {
  import opened Wrappers
  import opened JavaText
  import opened Layout

  /** templateList.toArray(new String[0]). */
  method ToArray(segments: seq<Option<string>>) returns (a: array<Option<string>>)
    ensures fresh(a) && a[..] == segments
  {
    a := new Option<string>[|segments|](i requires 0 <= i < |segments| => segments[i]);
  }

  /** The loops of build(): every keyword's list copied, in order, into a fresh
      int[] stored under the same keyword. */
  method FreezeIndex(reservedKeywords: map<string, seq<nat>>) returns (reservedPositions: map<string, seq<nat>>)
    ensures reservedPositions == reservedKeywords
  {
    reservedPositions := map[];
    var pending := reservedKeywords.Keys;
    while pending != {}
      invariant pending <= reservedKeywords.Keys
      invariant reservedPositions.Keys == reservedKeywords.Keys - pending
      invariant forall k :: k in reservedPositions ==> reservedPositions[k] == reservedKeywords[k]
      decreases pending
    {
      var keyword :| keyword in pending;
      var list := reservedKeywords[keyword];
      var positions := new nat[|list|];
      for i := 0 to |list|
        invariant positions[..i] == list[..i]
      {
        positions[i] := list[i];
      }
      assert positions[..] == list;
      reservedPositions := reservedPositions[keyword := positions[..]];
      pending := pending - {keyword};
    }
  }

  /** The replacements already applied when `pending` keys are still to go. */
  ghost function Applied(replacements: map<string, string>, pending: set<string>): map<string, string>
  {
    map k | k in replacements && k !in pending :: replacements[k]
  }

  /** process(replacements): the stored array itself is never written. */
  method Process(templateArray: array<Option<string>>, reservedPositions: map<string, seq<nat>>,
                 replacements: map<string, string>) returns (r: string)
    requires IndexValid(reservedPositions, templateArray.Length)
    ensures r == Render(templateArray[..], reservedPositions, replacements)
  {
    var n := templateArray.Length;
    ghost var segments := templateArray[..];
    var resultArray := new Option<string>[n];
    forall i | 0 <= i < n {
      resultArray[i] := templateArray[i];
    }
    assert Resolved(segments, reservedPositions, map[]) == segments;
    assert Applied(replacements, replacements.Keys) == map[];
    var pending := replacements.Keys;
    while pending != {}
      invariant pending <= replacements.Keys
      invariant resultArray[..] == Resolved(segments, reservedPositions, Applied(replacements, pending))
      decreases pending
    {
      var key :| key in pending;
      var value := replacements[key];
      ghost var done := Applied(replacements, pending);
      ghost var before := resultArray[..];
      if key in reservedPositions {
        var positions := reservedPositions[key];
        for j := 0 to |positions|
          invariant forall p :: 0 <= p < n ==>
                      resultArray[p] == if p in positions[..j] then Some(value) else before[p]
        {
          assert Owns(reservedPositions, key, positions[j]);
          resultArray[positions[j]] := Some(value);
        }
        assert positions[..|positions|] == positions;
      }
      pending := pending - {key};
      assert Applied(replacements, pending) == done[key := value];
      forall p | 0 <= p < n
        ensures resultArray[p] == Resolved(segments, reservedPositions, done[key := value])[p]
      {
        ResolveExtend(segments, reservedPositions, done, key, value, p);
      }
    }
    assert Applied(replacements, {}) == replacements;
    assert templateArray[..] == segments;
    r := Join(resultArray[..]);
  }
}
