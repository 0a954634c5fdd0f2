/** MessageTemplate and its Builder: a frozen segment array with a keyword index,
    rendered by process and written back as template text by getTemplate; the
    builder accumulates segments through append, reserve and appendTemplate. */
module MessageTemplates {
  import opened Wrappers
  import opened JavaText
  import opened Layout
  import opened Tokenizer
  import opened Format
  import TemplateArrays

  class MessageTemplate {
    const templateArray: array<Option<string>>
    const reservedPositions: map<string, seq<nat>>

    ghost predicate Valid()
      reads templateArray
    {
      Frozen(templateArray[..], reservedPositions)
    }

    constructor (templateArray: array<Option<string>>, reservedPositions: map<string, seq<nat>>)
      requires Frozen(templateArray[..], reservedPositions)
      ensures this.templateArray == templateArray && this.reservedPositions == reservedPositions
      ensures Valid()
    {
      this.templateArray := templateArray;
      this.reservedPositions := reservedPositions;
    }

    /** Replaces every position of each supplied, indexed keyword by its value;
        other positions keep their default or literal text. */
    method Process(replacements: map<string, string>) returns (r: string)
      requires Valid()
      ensures r == Render(templateArray[..], reservedPositions, replacements)
    {
      r := TemplateArrays.Process(templateArray, reservedPositions, replacements);
    }

    /** Writes "${keyword}" or "${keyword:default}" for each placeholder, using the
        position-to-keyword inverse of the index, and literals verbatim. */
    method GetTemplate() returns (r: string)
      requires Valid()
      ensures r == Serialized(templateArray[..], reservedPositions)
    {
      var indexKeywordMap: map<nat, string> := map[];
      var pending := reservedPositions.Keys;
      while pending != {}
        invariant pending <= reservedPositions.Keys
        invariant forall p :: p in indexKeywordMap ==> Owns(reservedPositions, indexKeywordMap[p], p)
        invariant forall k, p: nat :: k !in pending && Owns(reservedPositions, k, p) ==> p in indexKeywordMap
        decreases pending
      {
        var keyword :| keyword in pending;
        var positions := reservedPositions[keyword];
        for j := 0 to |positions|
          invariant forall p :: p in indexKeywordMap ==> Owns(reservedPositions, indexKeywordMap[p], p)
          invariant forall k, p: nat :: k !in pending && Owns(reservedPositions, k, p) ==> p in indexKeywordMap
          invariant forall q :: 0 <= q < j ==> positions[q] in indexKeywordMap
        {
          assert Owns(reservedPositions, keyword, positions[j]);
          indexKeywordMap := indexKeywordMap[positions[j] := keyword];
        }
        pending := pending - {keyword};
      }
      ghost var parts := SerializedParts(templateArray[..], reservedPositions);
      var text := "";
      for i := 0 to templateArray.Length
        invariant text == Concat(parts[..i])
      {
        var piece;
        if i in indexKeywordMap {
          var keyword := indexKeywordMap[i];
          var defaultValue := templateArray[i];
          if defaultValue == None {
            piece := "${" + keyword + "}";
          } else {
            piece := "${" + keyword + ":" + defaultValue.value + "}";
          }
          assert Indexed(reservedPositions, i) && KeywordAt(reservedPositions, i) == keyword;
        } else {
          piece := NullText(templateArray[i]);
          assert !Indexed(reservedPositions, i);
        }
        assert parts[..i + 1][..i] == parts[..i];
        text := text + piece;
      }
      assert parts[..templateArray.Length] == parts;
      r := text;
    }
  }

  class Builder {
    var templateList: seq<Option<string>>
    var reservedKeywords: map<string, seq<nat>>
    var lastAppended: Option<string>

    function State(): BuilderState
      reads this
    {
      BuilderState(templateList, reservedKeywords, lastAppended)
    }

    ghost predicate Valid()
      reads this
    {
      WellFormed(State())
    }

    constructor ()
      ensures Valid() && State() == Empty
    {
      templateList := [];
      reservedKeywords := map[];
      lastAppended := None;
    }

    method Append(str: string)
      requires Valid()
      modifies this
      ensures Valid() && State() == AppendStep(old(State()), str)
    {
      if lastAppended.Some? {
        lastAppended := Some(lastAppended.value + str);
        templateList := templateList[|templateList| - 1 := lastAppended];
      } else {
        lastAppended := Some(str);
        templateList := templateList + [lastAppended];
      }
    }

    method Reserve(keyword: string, defaultValue: Option<string>)
      requires Valid()
      modifies this
      ensures Valid() && State() == ReserveStep(old(State()), keyword, defaultValue)
    {
      ghost var next := ReserveStep(State(), keyword, defaultValue);
      lastAppended := None;
      templateList := templateList + [defaultValue];
      var positions := if keyword in reservedKeywords then reservedKeywords[keyword] else [];
      reservedKeywords := reservedKeywords[keyword := positions + [|templateList| - 1]];
      assert State() == next;
    }

    /** appendTemplate(template) (and the deprecated format(template), which does
        the same): for each live marker, append the text before it, parse it and
        reserve it; then append the rest. When the parser throws, the calls made
        before it stay applied and ok is false. */
    method AppendTemplate(template: string) returns (ok: bool)
      requires Valid()
      modifies this
      ensures Valid()
      ensures State() == Replay(old(State()), Scan(template, 0).events)
      ensures ok == !Scan(template, 0).failed
    {
      var lastIndex := 0;
      var found := FindMarker(template, 0);
      while found.Some?
        invariant lastIndex <= |template| && Valid()
        invariant found == FindMarker(template, lastIndex)
        invariant Replay(State(), Scan(template, lastIndex).events) == Replay(old(State()), Scan(template, 0).events)
        invariant Scan(template, lastIndex).failed == Scan(template, 0).failed
        decreases |template| - lastIndex
      {
        var span := found.value;
        ghost var before := State();
        ghost var events := Scan(template, lastIndex).events;
        Append(template[lastIndex..span.start]);
        var reserved := ParseMarker(template[span.start..span.end]);
        if reserved.Failure? {
          assert events == [Literal(template[lastIndex..span.start])];
          assert Replay(before, events) == Replay(State(), []);
          return false;
        }
        Reserve(reserved.value.keyword, reserved.value.defaultValue);
        assert events[0] == Literal(template[lastIndex..span.start]);
        assert events[1] == Placeholder(reserved.value.keyword, reserved.value.defaultValue);
        assert events[1..][1..] == Scan(template, span.end).events;
        lastIndex := span.end;
        found := FindMarker(template, lastIndex);
      }
      ghost var before := State();
      Append(template[lastIndex..]);
      assert Replay(before, Scan(template, lastIndex).events) == Replay(State(), []);
      ok := true;
    }

    /** Freezes the segment list and the index into a new template; the builder
        itself is left as it was. */
    method Build() returns (t: MessageTemplate)
      requires Valid()
      ensures fresh(t) && fresh(t.templateArray) && t.Valid()
      ensures t.templateArray[..] == templateList && t.reservedPositions == reservedKeywords
    {
      var reservedPositions := TemplateArrays.FreezeIndex(reservedKeywords);
      var templateArray := TemplateArrays.ToArray(templateList);
      t := new MessageTemplate(templateArray, reservedPositions);
    }
  }
}
