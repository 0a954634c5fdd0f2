/** The unit tests of MessageTemplate and StringTemplate, as client code whose
    postconditions pin the expected strings. */
module Examples {
  import opened Wrappers
  import opened JavaText
  import opened Layout
  import MessageTemplates
  import StringTemplates

  /** "Lorem ipsum ", reserve(dolor, sit), " amet, ", reserve(consectetur,
      adipiscing), " elit." */
  const LoremSegments: seq<Option<string>> :=
    [Some("Lorem ipsum "), Some("sit"), Some(" amet, "), Some("adipiscing"), Some(" elit.")]
  const LoremIndex: map<string, seq<nat>> := map["dolor" := [1], "consectetur" := [3]]

  /** append(a), reserve(k1, d1), append(b) on a fresh builder. */
  function ThreeCalls(a: string, k1: string, d1: Option<string>, b: string): (r: BuilderState)
    ensures WellFormed(r)
  {
    AppendStep(ReserveStep(AppendStep(Empty, a), k1, d1), b)
  }

  /** ... followed by reserve(k2, d2), append(c). */
  function FiveCalls(a: string, k1: string, d1: Option<string>, b: string, k2: string, d2: Option<string>, c: string): (r: BuilderState)
    ensures WellFormed(r)
  {
    AppendStep(ReserveStep(ThreeCalls(a, k1, d1, b), k2, d2), c)
  }

  lemma ThreeCallsShape(a: string, k1: string, d1: Option<string>, b: string)
    ensures var st := ThreeCalls(a, k1, d1, b);
            st.segments == [Some(a), d1, Some(b)] && st.index == map[k1 := [1]]
  {
    assert WellFormed(Empty);
    var s1 := AppendStep(Empty, a);
    var s2 := ReserveStep(s1, k1, d1);
    assert s1.segments == [Some(a)] && s1.index == map[];
    ReserveIndex(s1, k1, d1);
    assert [] + [1] == [1];
    assert s2.index == map[k1 := [1]];
  }

  lemma FiveCallsShape(a: string, k1: string, d1: Option<string>, b: string, k2: string, d2: Option<string>, c: string)
    ensures var st := FiveCalls(a, k1, d1, b, k2, d2, c);
            && st.segments == [Some(a), d1, Some(b), d2, Some(c)]
            && st.index == if k1 == k2 then map[k1 := [1, 3]] else map[k1 := [1], k2 := [3]]
  {
    var s3 := ThreeCalls(a, k1, d1, b);
    ThreeCallsShape(a, k1, d1, b);
    assert s3.segments + [d2] + [Some(c)] == [Some(a), d1, Some(b), d2, Some(c)];
    SecondReserve(s3, k1, k2, d2);
  }

  /** A second reservation after one reservation at position 1, with three
      segments so far. */
  lemma SecondReserve(st: BuilderState, k1: string, k2: string, d2: Option<string>)
    requires WellFormed(st) && st.index == map[k1 := [1]] && |st.segments| == 3
    ensures ReserveStep(st, k2, d2).index == if k1 == k2 then map[k1 := [1, 3]] else map[k1 := [1], k2 := [3]]
  {
    ReserveIndex(st, k2, d2);
    if k1 == k2 {
      assert [1] + [3] == [1, 3];
    } else {
      assert [] + [3] == [3];
    }
  }

  /** The index after one reserve, as a map update. */
  lemma ReserveIndex(st: BuilderState, keyword: string, defaultValue: Option<string>)
    requires WellFormed(st)
    ensures ReserveStep(st, keyword, defaultValue).index
         == st.index[keyword := (if keyword in st.index then st.index[keyword] else []) + [|st.segments|]]
  {
  }

  /** The five builder calls of the tests, from a fresh builder. */
  lemma LoremSteps()
    ensures FiveCalls("Lorem ipsum ", "dolor", Some("sit"), " amet, ", "consectetur", Some("adipiscing"), " elit.").segments
         == LoremSegments
    ensures FiveCalls("Lorem ipsum ", "dolor", Some("sit"), " amet, ", "consectetur", Some("adipiscing"), " elit.").index
         == LoremIndex
  {
    FiveCallsShape("Lorem ipsum ", "dolor", Some("sit"), " amet, ", "consectetur", Some("adipiscing"), " elit.");
  }

  /** What process writes at a placeholder position: the supplied value, else the
      position's default, else "null". */
  function SlotText(m: map<string, string>, k: string, d: Option<string>): string
  {
    if k in m then m[k] else NullText(d)
  }

  /** The index after reserving k1 at position 1 and k2 at position 3. */
  lemma TwoSlotOwners(index: map<string, seq<nat>>, k1: string, k2: string)
    requires index == if k1 == k2 then map[k1 := [1, 3]] else map[k1 := [1], k2 := [3]]
    ensures forall k, p: nat :: Owns(index, k, p) <==> (k == k1 && p == 1) || (k == k2 && p == 3)
  {
  }

  /** process on literal, placeholder, literal, placeholder, literal: each
      placeholder position takes its keyword's value or keeps its own default. */
  lemma FiveCallsResolved(a: string, k1: string, d1: Option<string>, b: string, k2: string, d2: Option<string>, c: string,
                          m: map<string, string>)
    ensures Resolved(FiveCalls(a, k1, d1, b, k2, d2, c).segments, FiveCalls(a, k1, d1, b, k2, d2, c).index, m)
         == [Some(a), if k1 in m then Some(m[k1]) else d1, Some(b), if k2 in m then Some(m[k2]) else d2, Some(c)]
  {
    var st := FiveCalls(a, k1, d1, b, k2, d2, c);
    FiveCallsShape(a, k1, d1, b, k2, d2, c);
    TwoSlotResolved(st.segments, st.index, m, a, k1, d1, b, k2, d2, c);
  }

  lemma TwoSlotResolved(segs: seq<Option<string>>, index: map<string, seq<nat>>, m: map<string, string>,
                        a: string, k1: string, d1: Option<string>, b: string, k2: string, d2: Option<string>, c: string)
    requires Frozen(segs, index) && segs == [Some(a), d1, Some(b), d2, Some(c)]
    requires index == if k1 == k2 then map[k1 := [1, 3]] else map[k1 := [1], k2 := [3]]
    ensures Resolved(segs, index, m)
         == [Some(a), if k1 in m then Some(m[k1]) else d1, Some(b), if k2 in m then Some(m[k2]) else d2, Some(c)]
  {
    var r := Resolved(segs, index, m);
    assert Owns(index, k1, 1) && Owns(index, k2, 3);
    ResolveSlot(segs, index, m, k1, 1);
    ResolveSlot(segs, index, m, k2, 3);
    TwoSlotLiterals(segs, index, m, k1, k2);
    assert r == [r[0], r[1], r[2], r[3], r[4]];
  }

  /** The three literal positions between and around two reservations. */
  lemma TwoSlotLiterals(segs: seq<Option<string>>, index: map<string, seq<nat>>, m: map<string, string>, k1: string, k2: string)
    requires Frozen(segs, index) && |segs| == 5
    requires index == if k1 == k2 then map[k1 := [1, 3]] else map[k1 := [1], k2 := [3]]
    ensures Resolved(segs, index, m)[0] == segs[0]
    ensures Resolved(segs, index, m)[2] == segs[2]
    ensures Resolved(segs, index, m)[4] == segs[4]
  {
    TwoSlotOwners(index, k1, k2);
    LiteralKept(segs, index, m, 0);
    LiteralKept(segs, index, m, 2);
    LiteralKept(segs, index, m, 4);
  }

  lemma FiveCallsRender(a: string, k1: string, d1: Option<string>, b: string, k2: string, d2: Option<string>, c: string,
                        m: map<string, string>)
    ensures Render(FiveCalls(a, k1, d1, b, k2, d2, c).segments, FiveCalls(a, k1, d1, b, k2, d2, c).index, m)
         == a + SlotText(m, k1, d1) + b + SlotText(m, k2, d2) + c
  {
    FiveCallsResolved(a, k1, d1, b, k2, d2, c, m);
    JoinSlots(a, if k1 in m then Some(m[k1]) else d1, b, if k2 in m then Some(m[k2]) else d2, c);
  }

  /** The join of a literal, a slot and a literal. */
  lemma JoinSlot(a: string, p1: Option<string>, b: string)
    ensures Join([Some(a), p1, Some(b)]) == a + NullText(p1) + b
  {
    assert Join([Some(a)]) == a by {
      JoinSnoc([], Some(a));
      assert [] + [Some(a)] == [Some(a)];
    }
    assert Join([Some(a), p1]) == a + NullText(p1) by {
      JoinSnoc([Some(a)], p1);
      assert [Some(a)] + [p1] == [Some(a), p1];
    }
    JoinSnoc([Some(a), p1], Some(b));
    assert [Some(a), p1] + [Some(b)] == [Some(a), p1, Some(b)];
  }

  /** The join of the five resolved segments. */
  lemma JoinSlots(a: string, p1: Option<string>, b: string, p3: Option<string>, c: string)
    ensures Join([Some(a), p1, Some(b), p3, Some(c)]) == a + NullText(p1) + b + NullText(p3) + c
  {
    assert Join([Some(a), p1, Some(b), p3]) == a + NullText(p1) + b + NullText(p3) by {
      JoinSlot(a, p1, b);
      JoinSnoc([Some(a), p1, Some(b)], p3);
      assert [Some(a), p1, Some(b)] + [p3] == [Some(a), p1, Some(b), p3];
    }
    JoinSnoc([Some(a), p1, Some(b), p3], Some(c));
    assert [Some(a), p1, Some(b), p3] + [Some(c)] == [Some(a), p1, Some(b), p3, Some(c)];
  }

  /** getTemplate after append(a), reserve(k1, d1), append(b). */
  lemma ThreeCallsSerialized(a: string, k1: string, d1: Option<string>, b: string)
    ensures Serialized(ThreeCalls(a, k1, d1, b).segments, ThreeCalls(a, k1, d1, b).index)
         == a + MarkerText(k1, d1) + b
  {
    assert WellFormed(Empty);
    var s1 := AppendStep(Empty, a);
    var s2 := ReserveStep(s1, k1, d1);
    assert Serialized(Empty.segments, Empty.index) == "";
    SerializeAppend(Empty, a);
    assert "" + a == a;
    SerializeReserve(s1, k1, d1);
    SerializeAppend(s2, b);
  }

  /** getTemplate after the five calls: the literals verbatim and each
      reservation as its marker. */
  lemma FiveCallsSerialized(a: string, k1: string, d1: Option<string>, b: string, k2: string, d2: Option<string>, c: string)
    ensures Serialized(FiveCalls(a, k1, d1, b, k2, d2, c).segments, FiveCalls(a, k1, d1, b, k2, d2, c).index)
         == a + MarkerText(k1, d1) + b + MarkerText(k2, d2) + c
  {
    var s3 := ThreeCalls(a, k1, d1, b);
    var s4 := ReserveStep(s3, k2, d2);
    ThreeCallsSerialized(a, k1, d1, b);
    SerializeReserve(s3, k2, d2);
    SerializeAppend(s4, c);
  }

  /** The builder calls of the tests produce the five segments and the index. */
  method BuildLorem() returns (t: MessageTemplates.MessageTemplate)
    ensures fresh(t) && t.Valid()
    ensures t.templateArray[..] == LoremSegments && t.reservedPositions == LoremIndex
  {
    var b := new MessageTemplates.Builder();
    b.Append("Lorem ipsum ");
    b.Reserve("dolor", Some("sit"));
    b.Append(" amet, ");
    b.Reserve("consectetur", Some("adipiscing"));
    b.Append(" elit.");
    LoremSteps();
    t := b.Build();
  }

  /** processTest: the defaults, then two replacements, then the defaults again:
      processing leaves the template unchanged. */
  method ProcessTest() returns (first: string, second: string, third: string)
    ensures first == "Lorem ipsum " + "sit" + " amet, " + "adipiscing" + " elit."
    ensures second == "Lorem ipsum " + "dolor" + " amet, " + "elit" + " elit."
    ensures third == first
  {
    var t := BuildLorem();
    LoremSteps();
    FiveCallsRender("Lorem ipsum ", "dolor", Some("sit"), " amet, ", "consectetur", Some("adipiscing"), " elit.", map[]);
    FiveCallsRender("Lorem ipsum ", "dolor", Some("sit"), " amet, ", "consectetur", Some("adipiscing"), " elit.",
                    map["dolor" := "dolor", "consectetur" := "elit"]);
    first := t.Process(map[]);
    second := t.Process(map["dolor" := "dolor", "consectetur" := "elit"]);
    third := t.Process(map[]);
  }

  /** getTemplateStringTest: each reservation comes back with its default. */
  method GetTemplateTest() returns (text: string)
    ensures text == "Lorem ipsum " + ("${" + "dolor" + ":" + "sit" + "}") + " amet, "
                    + ("${" + "consectetur" + ":" + "adipiscing" + "}") + " elit."
  {
    var t := BuildLorem();
    LoremSteps();
    FiveCallsSerialized("Lorem ipsum ", "dolor", Some("sit"), " amet, ", "consectetur", Some("adipiscing"), " elit.");
    text := t.GetTemplate();
  }

  /** The same builder test against StringTemplate. */
  method StringTemplateProcessTest() returns (first: string, second: string, third: string)
    ensures first == "Lorem ipsum " + "sit" + " amet, " + "adipiscing" + " elit."
    ensures second == "Lorem ipsum " + "dolor" + " amet, " + "elit" + " elit."
    ensures third == first
  {
    var b := new StringTemplates.Builder();
    b.Append("Lorem ipsum ");
    b.Reserve("dolor", Some("sit"));
    b.Append(" amet, ");
    b.Reserve("consectetur", Some("adipiscing"));
    b.Append(" elit.");
    var t := b.Build();
    FiveCallsRender("Lorem ipsum ", "dolor", Some("sit"), " amet, ", "consectetur", Some("adipiscing"), " elit.", map[]);
    FiveCallsRender("Lorem ipsum ", "dolor", Some("sit"), " amet, ", "consectetur", Some("adipiscing"), " elit.",
                    map["dolor" := "dolor", "consectetur" := "elit"]);
    first := t.Process(map[]);
    second := t.Process(map["dolor" := "dolor", "consectetur" := "elit"]);
    third := t.Process(map[]);
  }
}
