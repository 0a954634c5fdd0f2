/** StringTemplate, the earlier copy of the template: the same builder state and
    process, without the template-text scanner and without getTemplate. */
module StringTemplates {
  import opened Wrappers
  import opened Layout
  import TemplateArrays

  class StringTemplate {
    const templateArray: array<Option<string>>
    const reservedPositions: map<string, seq<nat>>

    ghost predicate Valid()
      reads templateArray
    {
      Frozen(templateArray[..], reservedPositions)
    }

    constructor (templateArray: array<Option<string>>, reservedPositions: map<string, seq<nat>>)
      requires Frozen(templateArray[..], reservedPositions)
      ensures this.templateArray == templateArray && this.reservedPositions == reservedPositions
      ensures Valid()
    {
      this.templateArray := templateArray;
      this.reservedPositions := reservedPositions;
    }

    /** Replaces every position of each supplied, indexed keyword by its value;
        other positions keep their default or literal text. */
    method Process(replacements: map<string, string>) returns (r: string)
      requires Valid()
      ensures r == Render(templateArray[..], reservedPositions, replacements)
    {
      r := TemplateArrays.Process(templateArray, reservedPositions, replacements);
    }
  }

  class Builder {
    var templateList: seq<Option<string>>
    var reservedKeywords: map<string, seq<nat>>
    var lastAppended: Option<string>

    function State(): BuilderState
      reads this
    {
      BuilderState(templateList, reservedKeywords, lastAppended)
    }

    ghost predicate Valid()
      reads this
    {
      WellFormed(State())
    }

    constructor ()
      ensures Valid() && State() == Empty
    {
      templateList := [];
      reservedKeywords := map[];
      lastAppended := None;
    }

    method Append(str: string)
      requires Valid()
      modifies this
      ensures Valid() && State() == AppendStep(old(State()), str)
    {
      if lastAppended.Some? {
        lastAppended := Some(lastAppended.value + str);
        templateList := templateList[|templateList| - 1 := lastAppended];
      } else {
        lastAppended := Some(str);
        templateList := templateList + [lastAppended];
      }
    }

    method Reserve(keyword: string, defaultValue: Option<string>)
      requires Valid()
      modifies this
      ensures Valid() && State() == ReserveStep(old(State()), keyword, defaultValue)
    {
      ghost var next := ReserveStep(State(), keyword, defaultValue);
      lastAppended := None;
      templateList := templateList + [defaultValue];
      var positions := if keyword in reservedKeywords then reservedKeywords[keyword] else [];
      reservedKeywords := reservedKeywords[keyword := positions + [|templateList| - 1]];
      assert State() == next;
    }

    /** Freezes the segment list and the index into a new template; the builder
        itself is left as it was. */
    method Build() returns (t: StringTemplate)
      requires Valid()
      ensures fresh(t) && fresh(t.templateArray) && t.Valid()
      ensures t.templateArray[..] == templateList && t.reservedPositions == reservedKeywords
    {
      var reservedPositions := TemplateArrays.FreezeIndex(reservedKeywords);
      var templateArray := TemplateArrays.ToArray(templateList);
      t := new StringTemplate(templateArray, reservedPositions);
    }
  }
}
