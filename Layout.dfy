/** The state shared by both builders (an ordered segment list, a keyword to
    positions multimap and the coalescing flag), the invariant it keeps, and the
    two readings of a frozen template: rendering against a replacement map and
    serializing back to template text. */
module Layout {
  import opened Wrappers
  import opened JavaText

  /** The builder's three fields: templateList, reservedKeywords, lastAppended.
      A segment is a literal (always present) or a placeholder's default (absent
      when the placeholder has none). */
  datatype BuilderState = BuilderState(
    segments: seq<Option<string>>,
    index: map<string, seq<nat>>,
    lastAppended: Option<string>)

  /** A builder before any operation. */
  const Empty := BuilderState([], map[], None)

  /** Position p is one of the positions reserved under keyword k. */
  ghost predicate Owns(index: map<string, seq<nat>>, k: string, p: nat)
  {
    k in index && p in index[k]
  }

  /** Position p holds a placeholder (some keyword owns it). */
  ghost predicate Indexed(index: map<string, seq<nat>>, p: nat)
  {
    exists k :: Owns(index, k, p)
  }

  ghost predicate Ascending(positions: seq<nat>)
  {
    forall i, j :: 0 <= i < j < |positions| ==> positions[i] < positions[j]
  }

  /** Every indexed position is in range, each keyword's positions are strictly
      increasing, and no position belongs to two keywords. */
  ghost predicate IndexValid(index: map<string, seq<nat>>, n: nat)
  {
    && (forall k, p: nat :: Owns(index, k, p) ==> p < n)
    && (forall k :: k in index ==> Ascending(index[k]))
    && (forall k1, k2, p: nat :: Owns(index, k1, p) && Owns(index, k2, p) ==> k1 == k2)
  }

  /** A segment that no keyword owns is a literal, and literals are never absent. */
  ghost predicate LiteralsPresent(segments: seq<Option<string>>, index: map<string, seq<nat>>)
  {
    forall p :: 0 <= p < |segments| && !Indexed(index, p) ==> segments[p].Some?
  }

  /** What a built template satisfies. */
  ghost predicate Frozen(segments: seq<Option<string>>, index: map<string, seq<nat>>)
  {
    IndexValid(index, |segments|) && LiteralsPresent(segments, index)
  }

  /** The builder invariant: the frozen invariant, plus the coalescing flag, when
      set, mirrors the last segment, which is a literal. */
  ghost predicate WellFormed(st: BuilderState)
  {
    && Frozen(st.segments, st.index)
    && (st.lastAppended.Some? ==>
          && |st.segments| > 0
          && st.segments[|st.segments| - 1] == st.lastAppended
          && !Indexed(st.index, |st.segments| - 1))
  }

  /** Builder.append(str): extends the last segment when the previous operation
      was an append, otherwise adds one literal segment. */
  function AppendStep(st: BuilderState, str: string): (r: BuilderState)
    requires WellFormed(st)
    ensures WellFormed(r)
    ensures r.index == st.index
    ensures |r.segments| > 0 && r.lastAppended.Some? && r.segments[|r.segments| - 1] == r.lastAppended
    ensures !Indexed(r.index, |r.segments| - 1)
    ensures st.lastAppended.Some? ==>
              && |r.segments| == |st.segments|
              && r.segments[..|r.segments| - 1] == st.segments[..|st.segments| - 1]
              && r.segments[|r.segments| - 1] == Some(st.lastAppended.value + str)
    ensures st.lastAppended.None? ==> r.segments == st.segments + [Some(str)]
  {
    match st.lastAppended
    case Some(last) =>
      var joined := last + str;
      BuilderState(st.segments[|st.segments| - 1 := Some(joined)], st.index, Some(joined))
    case None =>
      BuilderState(st.segments + [Some(str)], st.index, Some(str))
  }

  /** Builder.reserve(keyword, defaultValue): one new segment holding the
      default, its position appended to the keyword's list, coalescing reset. */
  function ReserveStep(st: BuilderState, keyword: string, defaultValue: Option<string>): (r: BuilderState)
    requires WellFormed(st)
    ensures WellFormed(r)
    ensures r.segments == st.segments + [defaultValue]
    ensures r.lastAppended.None?
    ensures keyword in r.index
    ensures r.index[keyword] == (if keyword in st.index then st.index[keyword] else []) + [|st.segments|]
    ensures forall k :: k != keyword ==> (k in r.index <==> k in st.index)
    ensures forall k :: k != keyword && k in st.index ==> r.index[k] == st.index[k]
    ensures forall p: nat :: Indexed(r.index, p) <==> Indexed(st.index, p) || p == |st.segments|
  {
    var position := |st.segments|;
    var positions := if keyword in st.index then st.index[keyword] else [];
    var r := BuilderState(st.segments + [defaultValue], st.index[keyword := positions + [position]], None);
    assert forall k, p: nat :: Owns(r.index, k, p) <==> Owns(st.index, k, p) || (k == keyword && p == position) by {
      forall k, p: nat ensures Owns(r.index, k, p) <==> Owns(st.index, k, p) || (k == keyword && p == position) {
        if k == keyword {
          assert r.index[k] == positions + [position];
        }
      }
    }
    forall i | 0 <= i < |positions| ensures positions[i] < position {
      assert Owns(st.index, keyword, positions[i]);
    }
    assert Ascending(r.index[keyword]);
    forall p: nat | Indexed(r.index, p) ensures Indexed(st.index, p) || p == position {
      var k :| Owns(r.index, k, p);
    }
    forall p: nat | Indexed(st.index, p) ensures Indexed(r.index, p) {
      var k :| Owns(st.index, k, p);
      assert Owns(r.index, k, p);
    }
    assert Owns(r.index, keyword, position);
    assert forall k :: k in r.index ==> Ascending(r.index[k]);
    assert forall k1, k2, p: nat :: Owns(r.index, k1, p) && Owns(r.index, k2, p) ==> k1 == k2;
    assert LiteralsPresent(r.segments, r.index);
    r
  }

  // ---------------------------------------------------------------------------
  // Rendering (MessageTemplate.process / StringTemplate.process)

  /** The one keyword owning an indexed position. */
  ghost function KeywordAt(index: map<string, seq<nat>>, p: nat): (k: string)
    requires Indexed(index, p)
    ensures Owns(index, k, p)
  {
    var k :| Owns(index, k, p); k
  }

  /** The value that lands at position p: the replacement of a keyword in m that
      owns p, otherwise the stored segment. */
  ghost function Resolve(segments: seq<Option<string>>, index: map<string, seq<nat>>,
                         m: map<string, string>, p: nat): Option<string>
    requires p < |segments|
  {
    if exists k :: k in m && Owns(index, k, p) then
      var k :| k in m && Owns(index, k, p); Some(m[k])
    else segments[p]
  }

  ghost function Resolved(segments: seq<Option<string>>, index: map<string, seq<nat>>,
                          m: map<string, string>): (r: seq<Option<string>>)
    ensures |r| == |segments|
  {
    seq(|segments|, p requires 0 <= p < |segments| => Resolve(segments, index, m, p))
  }

  /** The text process(m) returns. */
  ghost function Render(segments: seq<Option<string>>, index: map<string, seq<nat>>,
                        m: map<string, string>): string
  {
    Join(Resolved(segments, index, m))
  }

  /** Every position of a keyword supplied in m receives m's value for it, whatever
      default that position had. */
  lemma ResolveOwned(segments: seq<Option<string>>, index: map<string, seq<nat>>,
                     m: map<string, string>, k: string, p: nat)
    requires IndexValid(index, |segments|)
    requires k in m && Owns(index, k, p)
    ensures p < |segments| && Resolved(segments, index, m)[p] == Some(m[k])
  {
  }

  /** A position no supplied keyword owns keeps its stored segment (its default,
      or the literal text). */
  lemma ResolveUnowned(segments: seq<Option<string>>, index: map<string, seq<nat>>,
                       m: map<string, string>, p: nat)
    requires p < |segments|
    requires forall k :: k in m ==> !Owns(index, k, p)
    ensures Resolved(segments, index, m)[p] == segments[p]
  {
  }

  /** A placeholder position receives its keyword's value when the map supplies
      one and keeps its own default otherwise, so every position of a keyword
      gets the same value while unreplaced ones keep their separate defaults. */
  lemma ResolveSlot(segments: seq<Option<string>>, index: map<string, seq<nat>>,
                    m: map<string, string>, k: string, p: nat)
    requires IndexValid(index, |segments|) && Owns(index, k, p)
    ensures p < |segments|
    ensures Resolved(segments, index, m)[p] == if k in m then Some(m[k]) else segments[p]
  {
    if k in m {
      ResolveOwned(segments, index, m, k, p);
    } else {
      ResolveUnowned(segments, index, m, p);
    }
  }

  /** Literal segments come out unchanged, whatever the map. */
  lemma LiteralKept(segments: seq<Option<string>>, index: map<string, seq<nat>>,
                    m: map<string, string>, p: nat)
    requires Frozen(segments, index)
    requires p < |segments| && !Indexed(index, p)
    ensures Resolved(segments, index, m)[p] == segments[p] && segments[p].Some?
  {
    forall k | k in m ensures !Owns(index, k, p) {
      if Owns(index, k, p) { assert Indexed(index, p); }
    }
    ResolveUnowned(segments, index, m, p);
  }

  /** Adding one more supplied keyword changes exactly that keyword's positions. */
  lemma ResolveExtend(segments: seq<Option<string>>, index: map<string, seq<nat>>,
                      m: map<string, string>, key: string, value: string, p: nat)
    requires IndexValid(index, |segments|)
    requires key !in m && p < |segments|
    ensures Resolved(segments, index, m[key := value])[p]
         == if Owns(index, key, p) then Some(value) else Resolved(segments, index, m)[p]
  {
    var m' := m[key := value];
    if Owns(index, key, p) {
      ResolveOwned(segments, index, m', key, p);
    } else if exists k :: k in m && Owns(index, k, p) {
      var k :| k in m && Owns(index, k, p);
      ResolveOwned(segments, index, m', k, p);
      ResolveOwned(segments, index, m, k, p);
    } else {
      ResolveUnowned(segments, index, m', p);
      ResolveUnowned(segments, index, m, p);
    }
  }

  /** process with an empty map gives the stored segments joined. */
  lemma RenderEmpty(segments: seq<Option<string>>, index: map<string, seq<nat>>)
    ensures Render(segments, index, map[]) == Join(segments)
  {
    assert Resolved(segments, index, map[]) == segments;
  }

  /** Keys that the template does not index have no effect. */
  lemma RenderIgnoresUnknownKeys(segments: seq<Option<string>>, index: map<string, seq<nat>>,
                                 m: map<string, string>)
    requires IndexValid(index, |segments|)
    ensures Render(segments, index, m) == Render(segments, index, map k | k in m && k in index :: m[k])
  {
    var known := map k | k in m && k in index :: m[k];
    forall p | 0 <= p < |segments|
      ensures Resolved(segments, index, m)[p] == Resolved(segments, index, known)[p]
    {
      if exists k :: k in m && Owns(index, k, p) {
        var k :| k in m && Owns(index, k, p);
        ResolveOwned(segments, index, m, k, p);
        ResolveOwned(segments, index, known, k, p);
      }
    }
    assert Resolved(segments, index, m) == Resolved(segments, index, known);
  }

  // ---------------------------------------------------------------------------
  // Serializing (MessageTemplate.getTemplate)

  /** The marker getTemplate writes for a placeholder: "${k}" without a default,
      "${k:d}" with one. */
  function MarkerText(keyword: string, defaultValue: Option<string>): string
  {
    match defaultValue
    case None => "${" + keyword + "}"
    case Some(d) => "${" + keyword + ":" + d + "}"
  }

  ghost function SerializedAt(segments: seq<Option<string>>, index: map<string, seq<nat>>, p: nat): string
    requires p < |segments|
  {
    if Indexed(index, p) then MarkerText(KeywordAt(index, p), segments[p]) else NullText(segments[p])
  }

  ghost function SerializedParts(segments: seq<Option<string>>, index: map<string, seq<nat>>): (r: seq<string>)
    ensures |r| == |segments|
  {
    seq(|segments|, p requires 0 <= p < |segments| => SerializedAt(segments, index, p))
  }

  /** The text getTemplate returns. */
  ghost function Serialized(segments: seq<Option<string>>, index: map<string, seq<nat>>): string
  {
    Concat(SerializedParts(segments, index))
  }

  /** Serializing after an append adds exactly the appended text, whether the
      append opened a new segment or extended the last one. */
  lemma SerializeAppend(st: BuilderState, str: string)
    requires WellFormed(st)
    ensures Serialized(AppendStep(st, str).segments, AppendStep(st, str).index)
         == Serialized(st.segments, st.index) + str
  {
    var r := AppendStep(st, str);
    var before := SerializedParts(st.segments, st.index);
    var after := SerializedParts(r.segments, r.index);
    var n := |st.segments|;
    if st.lastAppended.Some? {
      assert after[..n - 1] == before[..n - 1];
      assert after[n - 1] == before[n - 1] + str;
    } else {
      assert after[..n] == before;
      assert after[n] == str;
    }
  }

  /** Serializing after a reservation adds exactly that placeholder's marker. */
  lemma SerializeReserve(st: BuilderState, keyword: string, defaultValue: Option<string>)
    requires WellFormed(st)
    ensures Serialized(ReserveStep(st, keyword, defaultValue).segments, ReserveStep(st, keyword, defaultValue).index)
         == Serialized(st.segments, st.index) + MarkerText(keyword, defaultValue)
  {
    var r := ReserveStep(st, keyword, defaultValue);
    var before := SerializedParts(st.segments, st.index);
    var after := SerializedParts(r.segments, r.index);
    var n := |st.segments|;
    forall p | 0 <= p < n ensures after[p] == before[p] {
      if Indexed(st.index, p) {
        var k := KeywordAt(st.index, p);
        var k' := KeywordAt(r.index, p);
        assert Owns(r.index, k, p) by {
          if k == keyword {
            assert r.index[k][..|st.index[k]|] == st.index[k];
            assert p in r.index[k][..|st.index[k]|];
          }
        }
      } else {
        assert !Indexed(r.index, p);
      }
    }
    assert after[..n] == before;
    assert Owns(r.index, keyword, n);
    assert after[n] == MarkerText(keyword, defaultValue);
  }
}
