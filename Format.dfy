/** Builder.format(template): the scanner's calls replayed on the builder state,
    and what that gives on a fresh builder. */
module Format {
  import opened Wrappers
  import opened JavaText
  import opened Layout
  import opened Tokenizer

  /** One call: append for a literal piece, reserve for a marker. */
  function Apply(st: BuilderState, e: Event): (r: BuilderState)
    requires WellFormed(st)
    ensures WellFormed(r)
  {
    match e
    case Literal(t) => AppendStep(st, t)
    case Placeholder(k, d) => ReserveStep(st, k, d)
  }

  /** The calls, in order. */
  function Replay(st: BuilderState, events: seq<Event>): (r: BuilderState)
    requires WellFormed(st)
    ensures WellFormed(r)
    decreases |events|
  {
    if events == [] then st else Replay(Apply(st, events[0]), events[1..])
  }

  /** Calls made in two batches leave the builder as the same calls made in one. */
  lemma {:induction false} ReplayAppend(st: BuilderState, a: seq<Event>, b: seq<Event>)
    requires WellFormed(st)
    ensures Replay(st, a + b) == Replay(Replay(st, a), b)
    decreases |a|
  {
    if a == [] {
      assert a + b == b;
    } else {
      assert (a + b)[1..] == a[1..] + b;
      ReplayAppend(Apply(st, a[0]), a[1..], b);
    }
  }

  lemma EmptyWellFormed()
    ensures WellFormed(Empty)
  {
  }

  /** The parser reads back what getTemplate writes for a reservation, when
      neither the keyword nor the default holds ':' or '}'. */
  lemma ParseMarkerText(keyword: string, defaultValue: Option<string>)
    requires ':' !in keyword && '}' !in keyword
    requires defaultValue.Some? ==> ':' !in defaultValue.value && '}' !in defaultValue.value
    ensures IsMarker(MarkerText(keyword, defaultValue))
    ensures ParseMarker(MarkerText(keyword, defaultValue)) == Success(Reservation(keyword, defaultValue))
  {
    var m := MarkerText(keyword, defaultValue);
    match defaultValue {
      case None =>
        assert m == "${" + keyword + "}";
        assert m[2..|m| - 1] == keyword;
      case Some(d) =>
        var c := keyword + ":" + d;
        assert m == "${" + c + "}";
        assert m[2..|m| - 1] == c;
        assert c[..|keyword|] == keyword;
        FirstIndexOfUnique(c, ':', |keyword|);
        assert c[|keyword| + 1..] == d;
    }
  }

  /** getTemplate after one more call writes the call's own text at the end. */
  lemma SerializeApply(st: BuilderState, e: Event)
    requires WellFormed(st)
    ensures Serialized(Apply(st, e).segments, Apply(st, e).index)
         == Serialized(st.segments, st.index) + EventText(e)
  {
    match e {
      case Literal(t) => SerializeAppend(st, t);
      case Placeholder(k, d) => SerializeReserve(st, k, d);
    }
  }

  /** getTemplate after a sequence of calls writes what it wrote before, then the
      calls' own text: literals verbatim, each reservation as its marker. */
  lemma {:induction false} SerializeReplay(st: BuilderState, events: seq<Event>)
    requires WellFormed(st)
    ensures Serialized(Replay(st, events).segments, Replay(st, events).index)
         == Serialized(st.segments, st.index) + Unparse(events)
    decreases |events|
  {
    if events != [] {
      var next := Apply(st, events[0]);
      var last := Replay(next, events[1..]);
      var before, head, tail := Serialized(st.segments, st.index), EventText(events[0]), Unparse(events[1..]);
      var middle := Serialized(next.segments, next.index);
      assert middle == before + head by {
        SerializeApply(st, events[0]);
      }
      assert Serialized(last.segments, last.index) == middle + tail by {
        SerializeReplay(next, events[1..]);
      }
      assert Replay(st, events) == last;
      assert Unparse(events) == head + tail;
      assert (before + head) + tail == before + (head + tail);
    }
  }

  /** appendTemplate(s) on a fresh builder followed by getTemplate gives s back,
      byte for byte, when no marker of s holds more than one colon. */
  lemma RoundTrip(s: string)
    requires SimpleMarkers(s, 0)
    ensures !Scan(s, 0).failed
    ensures var st := Replay(Empty, Scan(s, 0).events);
            Serialized(st.segments, st.index) == s
  {
    EmptyWellFormed();
    ScanUnparse(s, 0);
    SerializeReplay(Empty, Scan(s, 0).events);
    assert Serialized([], map[]) == "";
  }

  /** getTemplate does not escape literals: a literal "${k}" added with append is
      written back as is, and reading that text back reserves k instead. */
  lemma LiteralMarkerReparsed(k: string)
    requires ':' !in k && '}' !in k
    ensures WellFormed(Empty)
    ensures Serialized(AppendStep(Empty, MarkerText(k, None)).segments, AppendStep(Empty, MarkerText(k, None)).index)
         == MarkerText(k, None)
    ensures Scan(MarkerText(k, None), 0) == Scanned([Literal(""), Placeholder(k, None), Literal("")], false)
  {
    EmptyWellFormed();
    var m := MarkerText(k, None);
    SerializeAppend(Empty, m);
    assert Serialized([], map[]) == "";
    ParseMarkerText(k, None);
    assert m[0..|m|] == m;
    ScanStep(m, 0, 0, |m|);
    ScanLast(m, |m|);
    assert m[0..0] == "" && m[|m|..] == "";
    assert [Literal(""), Placeholder(k, None)] + [Literal("")] == [Literal(""), Placeholder(k, None), Literal("")];
  }

  lemma AlternatingTail(events: seq<Event>)
    requires Alternating(events) && |events| > 1
    ensures Alternating(events[2..])
  {
    forall i | 0 <= i < |events| - 2 ensures (events[2..][i].Literal? <==> i % 2 == 0) {
      assert events[2..][i] == events[i + 2];
    }
  }

  /** r extends st by `count` segments, leaves the indexing of st's segments as
      it was, and indexes exactly the odd-offset new ones. */
  ghost predicate AlternatingLayout(st: BuilderState, r: BuilderState, count: nat)
  {
    && |r.segments| == |st.segments| + count
    && (forall p: nat :: p < |st.segments| ==> (Indexed(r.index, p) <==> Indexed(st.index, p)))
    && (forall p: nat :: |st.segments| <= p < |r.segments| ==>
          (Indexed(r.index, p) <==> (p - |st.segments|) % 2 == 1))
  }

  /** Replaying alternating calls after a reservation (or on a fresh builder)
      adds one segment per call, and exactly the odd-offset ones are indexed. */
  lemma {:induction false} ReplayAlternating(st: BuilderState, events: seq<Event>)
    requires WellFormed(st) && st.lastAppended.None?
    requires Alternating(events)
    ensures AlternatingLayout(st, Replay(st, events), |events|)
    decreases |events|
  {
    var first := Apply(st, events[0]);
    if |events| == 1 {
      assert Replay(st, events) == Replay(first, []) == first;
    } else {
      var second := Apply(first, events[1]);
      assert Replay(st, events) == Replay(second, events[2..]) by {
        assert events[1..][1..] == events[2..];
      }
      AlternatingTail(events);
      LiteralThenReservation(st, events[0], events[1]);
      ReplayAlternating(second, events[2..]);
      LayoutCompose(st, second, Replay(second, events[2..]), |events| - 2);
    }
  }

  /** A literal then a reservation, after a reservation or on a fresh builder:
      two new segments, the second one indexed. */
  lemma LiteralThenReservation(st: BuilderState, lit: Event, slot: Event)
    requires WellFormed(st) && st.lastAppended.None?
    requires lit.Literal? && slot.Placeholder?
    ensures Apply(Apply(st, lit), slot).lastAppended.None?
    ensures AlternatingLayout(st, Apply(Apply(st, lit), slot), 2)
  {
    var first := Apply(st, lit);
    assert |first.segments| == |st.segments| + 1 && !Indexed(first.index, |st.segments|);
  }

  /** Two alternating layouts in a row make one. */
  lemma LayoutCompose(st: BuilderState, mid: BuilderState, r: BuilderState, count: nat)
    requires AlternatingLayout(st, mid, 2) && AlternatingLayout(mid, r, count)
    ensures AlternatingLayout(st, r, count + 2)
  {
    var n := |st.segments|;
    forall p: nat | n + 2 <= p < |r.segments|
      ensures Indexed(r.index, p) <==> (p - n) % 2 == 1
    {
      ParityShift(p - n);
    }
  }

  lemma ParityShift(x: int)
    requires x >= 2
    ensures (x - 2) % 2 == x % 2
  {
  }

  /** On a fresh builder, appendTemplate(s) with m markers and no parser failure
      makes 2m + 1 segments: literals at the even positions, placeholders at the
      odd ones. */
  lemma FreshLayout(s: string)
    requires !Scan(s, 0).failed
    ensures var st := Replay(Empty, Scan(s, 0).events);
            && |st.segments| == 2 * MarkerCount(s, 0) + 1
            && (forall p: nat :: p < |st.segments| ==> (Indexed(st.index, p) <==> p % 2 == 1))
            && (forall p: nat :: p < |st.segments| && p % 2 == 0 ==> st.segments[p].Some?)
  {
    EmptyWellFormed();
    var events := Scan(s, 0).events;
    ScanLength(s, 0);
    ReplayAlternating(Empty, events);
    FreshAlternating(Replay(Empty, events), |events|);
  }

  /** An alternating layout from nothing: placeholders exactly at the odd
      positions, text at the even ones. */
  lemma FreshAlternating(st: BuilderState, count: nat)
    requires WellFormed(st) && AlternatingLayout(Empty, st, count)
    ensures |st.segments| == count
    ensures forall p: nat :: p < |st.segments| ==> (Indexed(st.index, p) <==> p % 2 == 1)
    ensures forall p: nat :: p < |st.segments| && p % 2 == 0 ==> st.segments[p].Some?
  {
    assert |Empty.segments| == 0;
  }
}
