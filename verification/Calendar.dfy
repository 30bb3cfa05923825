/** Session-anchored bar slots over an ordered list of disjoint sessions. */
module Calendars {
  import opened Common

  datatype Session = Session(opens: Time, closes: Time)

  datatype Timeframe = Min1 | Min5 | Min10 | Min15 | Min30 | Hour1 | Day1
  {
    function Duration(): (d: int)
      ensures d > 0
    {
      match this
      case Min1 => MINUTE
      case Min5 => 5 * MINUTE
      case Min10 => 10 * MINUTE
      case Min15 => 15 * MINUTE
      case Min30 => 30 * MINUTE
      case Hour1 => 60 * MINUTE
      case Day1 => DAY
    }
  }

  /** One expected candle: its opening and its completion. */
  datatype Slot = Slot(opening: Time, closing: Time)

  /** Sessions as the calendar lists them: proper, ascending, disjoint. */
  predicate Ordered(sessions: seq<Session>) {
    && (forall i | 0 <= i < |sessions| :: sessions[i].opens < sessions[i].closes)
    && (forall i, j | 0 <= i < j < |sessions| :: sessions[i].closes <= sessions[j].opens)
  }

  /** One session a day: each closes strictly before the next one opens. */
  predicate Separated(sessions: seq<Session>) {
    && Ordered(sessions)
    && (forall i, j | 0 <= i < j < |sessions| :: sessions[i].closes < sessions[j].opens)
  }

  function SlotClose(session: Session, timeframe: Timeframe, current: Time): Time {
    if timeframe == Day1 then session.closes else Min(current + timeframe.Duration(), session.closes)
  }

  /** The slots of a session from an instant on. */
  function SlotsFrom(session: Session, timeframe: Timeframe, current: Time): seq<Slot>
    decreases session.closes - current
  {
    if current >= session.closes then []
    else
      var closing := SlotClose(session, timeframe, current);
      [Slot(current, closing)] + SlotsFrom(session, timeframe, closing)
  }

  function Filter<T>(items: seq<T>, keep: T -> bool): seq<T> {
    if items == [] then []
    else (if keep(items[0]) then [items[0]] else []) + Filter(items[1..], keep)
  }

  /** A slot is expected when it opens inside the range and completes by its end. */
  function Within(start: Time, end: Time): Slot -> bool {
    (slot: Slot) => start <= slot.opening < end && slot.closing <= end
  }

  /** The expected slots in the order in which the dictionary receives them. */
  function ExpectedSlots(sessions: seq<Session>, start: Time, end: Time, timeframe: Timeframe): seq<Slot> {
    if sessions == [] then []
    else Filter(SlotsFrom(sessions[0], timeframe, sessions[0].opens), Within(start, end))
         + ExpectedSlots(sessions[1..], start, end, timeframe)
  }

  lemma {:induction false} FilterConcat<T>(a: seq<T>, b: seq<T>, keep: T -> bool)
    ensures Filter(a + b, keep) == Filter(a, keep) + Filter(b, keep)
  {
    if a == [] {
      assert a + b == b;
    } else {
      FilterConcat(a[1..], b, keep);
      assert (a + b)[1..] == a[1..] + b;
      var head := if keep(a[0]) then [a[0]] else [];
      assert head + (Filter(a[1..], keep) + Filter(b, keep)) == (head + Filter(a[1..], keep)) + Filter(b, keep);
    }
  }

  lemma {:induction false} FilterMembers<T>(items: seq<T>, keep: T -> bool)
    ensures forall x :: x in Filter(items, keep) <==> x in items && keep(x)
    ensures (forall x | x in items :: keep(x)) ==> Filter(items, keep) == items
  {
    if items != [] {
      FilterMembers(items[1..], keep);
      assert forall x :: x in items <==> x == items[0] || x in items[1..];
    }
  }

  lemma {:induction false} FilterTwice<T>(items: seq<T>, first: T -> bool, second: T -> bool, both: T -> bool)
    requires forall x | x in items :: both(x) <==> first(x) && second(x)
    ensures Filter(Filter(items, first), second) == Filter(items, both)
  {
    if items != [] {
      FilterTwice(items[1..], first, second, both);
      FilterConcat(if first(items[0]) then [items[0]] else [], Filter(items[1..], first), second);
      assert items[0] in items;
    }
  }

  /** The slots tile a stretch of a session: adjacent, half-open, each one duration long except the clipped last. */
  ghost predicate Tiles(slots: seq<Slot>, from: Time, to: Time, timeframe: Timeframe) {
    && slots != []
    && slots[0].opening == from && slots[|slots| - 1].closing == to
    && (forall i | 0 <= i < |slots| :: slots[i].opening < slots[i].closing)
    && Ascending(slots)
    && (forall i | 0 <= i < |slots| - 1 :: slots[i].closing == slots[i + 1].opening)
    && (timeframe != Day1 ==>
          && (forall i | 0 <= i < |slots| - 1 :: slots[i].closing == slots[i].opening + timeframe.Duration())
          && slots[|slots| - 1].closing <= slots[|slots| - 1].opening + timeframe.Duration())
    && (timeframe == Day1 ==> |slots| == 1)
  }

  lemma {:induction false} SlotsTile(session: Session, timeframe: Timeframe, current: Time)
    requires current < session.closes
    ensures Tiles(SlotsFrom(session, timeframe, current), current, session.closes, timeframe)
    decreases session.closes - current
  {
    var closing := SlotClose(session, timeframe, current);
    assert SlotsFrom(session, timeframe, current) == [Slot(current, closing)] + SlotsFrom(session, timeframe, closing);
    if closing < session.closes {
      SlotsTile(session, timeframe, closing);
      TilesStep(current, closing, SlotsFrom(session, timeframe, closing), session.closes, timeframe);
    }
  }

  lemma TilesStep(current: Time, closing: Time, rest: seq<Slot>, to: Time, timeframe: Timeframe)
    requires current < closing && Tiles(rest, closing, to, timeframe)
    requires timeframe != Day1 && closing == current + timeframe.Duration()
    ensures Tiles([Slot(current, closing)] + rest, current, to, timeframe)
  {
    var slots := [Slot(current, closing)] + rest;
    assert forall i | 1 <= i < |slots| :: slots[i] == rest[i - 1];
    forall j | 0 <= j < |rest|
      ensures closing <= rest[j].opening
    {
      assert j > 0 ==> rest[0].closing <= rest[j].opening;
    }
  }

  lemma {:induction false} SlotsInside(session: Session, timeframe: Timeframe, current: Time)
    ensures forall slot | slot in SlotsFrom(session, timeframe, current) ::
              current <= slot.opening < slot.closing <= session.closes
    decreases session.closes - current
  {
    if current < session.closes {
      SlotsInside(session, timeframe, SlotClose(session, timeframe, current));
    }
  }

  /** Over whole sessions the expected slots are exactly the tiles of each session, one session after the other. */
  lemma WholeSessionTiled(session: Session, start: Time, end: Time, timeframe: Timeframe)
    requires start <= session.opens < session.closes <= end
    ensures var slots := ExpectedSlots([session], start, end, timeframe);
            slots == SlotsFrom(session, timeframe, session.opens)
            && Tiles(slots, session.opens, session.closes, timeframe)
  {
    var slots := SlotsFrom(session, timeframe, session.opens);
    SlotsTile(session, timeframe, session.opens);
    SlotsInside(session, timeframe, session.opens);
    FilterMembers(slots, Within(start, end));
  }

  function OpensWithin(session: Session): Slot -> bool {
    (slot: Slot) => session.opens <= slot.opening < session.closes
  }

  lemma {:induction false} NoneKept<T>(items: seq<T>, keep: T -> bool)
    requires forall x | x in items :: !keep(x)
    ensures Filter(items, keep) == []
  {
    if items != [] {
      assert items[0] in items;
      NoneKept(items[1..], keep);
    }
  }

  /** In a list of whole sessions, the slots that open in a session are that session's tiles, and nothing else. */
  lemma {:induction false} WholeSessionsTiled(sessions: seq<Session>, start: Time, end: Time, timeframe: Timeframe, s: Session)
    requires Ordered(sessions) && s in sessions && forall t | t in sessions :: start <= t.opens && t.closes <= end
    ensures var slots := Filter(ExpectedSlots(sessions, start, end, timeframe), OpensWithin(s));
            slots == SlotsFrom(s, timeframe, s.opens) && Tiles(slots, s.opens, s.closes, timeframe)
  {
    hide Tiles, Filter, SlotsFrom;
    var first, rest := sessions[0], sessions[1..];
    var head, tail := SlotsFrom(first, timeframe, first.opens), ExpectedSlots(rest, start, end, timeframe);
    WholeHead(sessions, start, end, timeframe);
    FilterConcat(head, tail, OpensWithin(s));
    LaterSlots(sessions, start, end, timeframe);
    SlotsInside(first, timeframe, first.opens);
    if s == first {
      SlotsTile(s, timeframe, s.opens);
      FilterMembers(head, OpensWithin(s));
      NoneKept(tail, OpensWithin(s));
    } else {
      var i :| 0 <= i < |sessions| && sessions[i] == s;
      assert rest[i - 1] == s;
      WholeSessionsTiled(rest, start, end, timeframe, s);
      NoneKept(head, OpensWithin(s));
    }
  }

  lemma WholeHead(sessions: seq<Session>, start: Time, end: Time, timeframe: Timeframe)
    requires sessions != [] && start <= sessions[0].opens && sessions[0].closes <= end
    ensures ExpectedSlots(sessions, start, end, timeframe)
            == SlotsFrom(sessions[0], timeframe, sessions[0].opens) + ExpectedSlots(sessions[1..], start, end, timeframe)
  {
    var slots := SlotsFrom(sessions[0], timeframe, sessions[0].opens);
    SlotsInside(sessions[0], timeframe, sessions[0].opens);
    FilterMembers(slots, Within(start, end));
  }

  lemma {:induction false} ExpectedConcat(a: seq<Session>, b: seq<Session>, start: Time, end: Time, timeframe: Timeframe)
    ensures ExpectedSlots(a + b, start, end, timeframe) == ExpectedSlots(a, start, end, timeframe) + ExpectedSlots(b, start, end, timeframe)
  {
    hide ExpectedSlots;
    if a == [] {
      ExpectedNone(start, end, timeframe);
      assert a + b == b;
    } else {
      ExpectedConcat(a[1..], b, start, end, timeframe);
      assert a == [a[0]] + a[1..] && a + b == [a[0]] + (a[1..] + b);
      ExpectedHead(a[0], a[1..], start, end, timeframe);
      ExpectedHead(a[0], a[1..] + b, start, end, timeframe);
    }
  }

  lemma ExpectedNone(start: Time, end: Time, timeframe: Timeframe)
    ensures ExpectedSlots([], start, end, timeframe) == []
  {
  }

  lemma ExpectedHead(s: Session, rest: seq<Session>, start: Time, end: Time, timeframe: Timeframe)
    ensures ExpectedSlots([s] + rest, start, end, timeframe)
            == Filter(SlotsFrom(s, timeframe, s.opens), Within(start, end)) + ExpectedSlots(rest, start, end, timeframe)
  {
    assert ([s] + rest)[1..] == rest;
  }

  /** Shortening the range keeps exactly the slots that complete by the new end. */
  lemma {:induction false} ShorteningEnd(sessions: seq<Session>, start: Time, end: Time, shorter: Time, timeframe: Timeframe)
    requires shorter <= end
    ensures ExpectedSlots(sessions, start, shorter, timeframe)
            == Filter(ExpectedSlots(sessions, start, end, timeframe), (slot: Slot) => slot.closing <= shorter)
  {
    if sessions != [] {
      var closesBy := (slot: Slot) => slot.closing <= shorter;
      var slots := SlotsFrom(sessions[0], timeframe, sessions[0].opens);
      SlotsInside(sessions[0], timeframe, sessions[0].opens);
      FilterTwice(slots, Within(start, end), closesBy, Within(start, shorter));
      ShorteningEnd(sessions[1..], start, end, shorter, timeframe);
      FilterConcat(Filter(slots, Within(start, end)), ExpectedSlots(sessions[1..], start, end, timeframe), closesBy);
    }
  }

  ghost predicate Ascending(slots: seq<Slot>) {
    forall i, j | 0 <= i < j < |slots| :: slots[i].closing <= slots[j].opening
  }

  /** The slot lies in one of the sessions. */
  ghost predicate InSession(sessions: seq<Session>, slot: Slot) {
    exists s :: s in sessions && s.opens <= slot.opening && slot.closing <= s.closes
  }

  /** Every expected slot lies in the range and in one session. */
  lemma {:induction false} ExpectedInside(sessions: seq<Session>, start: Time, end: Time, timeframe: Timeframe)
    ensures forall slot | slot in ExpectedSlots(sessions, start, end, timeframe) ::
              start <= slot.opening < slot.closing <= end && InSession(sessions, slot)
  {
    if sessions != [] {
      var s := sessions[0];
      SlotsInside(s, timeframe, s.opens);
      FilterMembers(SlotsFrom(s, timeframe, s.opens), Within(start, end));
      ExpectedInside(sessions[1..], start, end, timeframe);
      forall slot | slot in ExpectedSlots(sessions, start, end, timeframe)
        ensures start <= slot.opening < slot.closing <= end && InSession(sessions, slot)
      {
        if slot in ExpectedSlots(sessions[1..], start, end, timeframe) {
          var t :| t in sessions[1..] && t.opens <= slot.opening && slot.closing <= t.closes;
          assert t in sessions;
        } else {
          assert s in sessions;
        }
      }
    }
  }

  /** The slots of later sessions open after the first session closed. */
  lemma LaterSlots(sessions: seq<Session>, start: Time, end: Time, timeframe: Timeframe)
    requires Ordered(sessions) && sessions != []
    ensures forall slot | slot in ExpectedSlots(sessions[1..], start, end, timeframe) :: sessions[0].closes <= slot.opening
  {
    hide ExpectedSlots;
    ExpectedInside(sessions[1..], start, end, timeframe);
    forall slot | slot in ExpectedSlots(sessions[1..], start, end, timeframe)
      ensures sessions[0].closes <= slot.opening
    {
      var t :| t in sessions[1..] && t.opens <= slot.opening && slot.closing <= t.closes;
      var i :| 0 <= i < |sessions| - 1 && sessions[1..][i] == t;
    }
  }

  /** The expected slots come in time order and do not overlap. */
  lemma {:induction false} ExpectedAscend(sessions: seq<Session>, start: Time, end: Time, timeframe: Timeframe)
    requires Ordered(sessions)
    ensures Ascending(ExpectedSlots(sessions, start, end, timeframe))
  {
    hide Ascending, Filter, SlotsFrom, Tiles;
    if sessions == [] {
      NothingAscends();
    } else {
      HeadSlots(sessions[0], start, end, timeframe);
      ExpectedAscend(sessions[1..], start, end, timeframe);
      LaterSlots(sessions, start, end, timeframe);
      AscendingConcat(Filter(SlotsFrom(sessions[0], timeframe, sessions[0].opens), Within(start, end)),
                      ExpectedSlots(sessions[1..], start, end, timeframe), sessions[0].closes);
    }
  }

  lemma NothingAscends()
    ensures Ascending([])
  {
  }

  lemma HeadSlots(s: Session, start: Time, end: Time, timeframe: Timeframe)
    requires s.opens < s.closes
    ensures var slots := Filter(SlotsFrom(s, timeframe, s.opens), Within(start, end));
            Ascending(slots) && forall slot | slot in slots :: slot.closing <= s.closes
  {
    hide Filter, SlotsFrom, Ascending;
    var tiles := SlotsFrom(s, timeframe, s.opens);
    SlotsTile(s, timeframe, s.opens);
    SlotsInside(s, timeframe, s.opens);
    FilterAscends(tiles, Within(start, end));
    FilterMembers(tiles, Within(start, end));
  }

  lemma AscendingConcat(a: seq<Slot>, b: seq<Slot>, between: Time)
    requires Ascending(a) && Ascending(b)
    requires forall slot | slot in a :: slot.closing <= between
    requires forall slot | slot in b :: between <= slot.opening
    ensures Ascending(a + b)
  {
  }

  lemma {:induction false} FilterAscends(slots: seq<Slot>, keep: Slot -> bool)
    requires Ascending(slots)
    ensures Ascending(Filter(slots, keep))
  {
    if slots != [] {
      FilterAscends(slots[1..], keep);
      FilterMembers(slots[1..], keep);
      assert forall slot | slot in slots[1..] :: slots[0].closing <= slot.opening;
      AscendingConcat(if keep(slots[0]) then [slots[0]] else [], Filter(slots[1..], keep), slots[0].closing);
    }
  }

  /** The inner loop: walk one session from its opening and keep the slots inside the range. */
  lemma NothingLeft(session: Session, timeframe: Timeframe, start: Time, end: Time)
    ensures forall current | current >= session.closes :: Filter(SlotsFrom(session, timeframe, current), Within(start, end)) == []
  {
  }

  lemma FilterStep(session: Session, timeframe: Timeframe, current: Time, start: Time, end: Time)
    requires current < session.closes
    ensures var closes := SlotClose(session, timeframe, current);
            Filter(SlotsFrom(session, timeframe, current), Within(start, end))
            == (if start <= current < end && closes <= end then [Slot(current, closes)] else [])
               + Filter(SlotsFrom(session, timeframe, closes), Within(start, end))
  {
    var closes := SlotClose(session, timeframe, current);
    assert SlotsFrom(session, timeframe, current)[1..] == SlotsFrom(session, timeframe, closes);
  }

  method SessionBars(session: Session, start: Time, end: Time, timeframe: Timeframe) returns (result: seq<Slot>)
    ensures result == Filter(SlotsFrom(session, timeframe, session.opens), Within(start, end))
  {
    NothingLeft(session, timeframe, start, end);
    hide Filter, SlotsFrom;
    result := [];
    var current := session.opens;
    while current < session.closes
      invariant result + Filter(SlotsFrom(session, timeframe, current), Within(start, end))
                == Filter(SlotsFrom(session, timeframe, session.opens), Within(start, end))
      decreases session.closes - current
    {
      var closes := if timeframe == Day1 then session.closes
                    else Min(current + timeframe.Duration(), session.closes);
      FilterStep(session, timeframe, current, start, end);
      if start <= current < end && closes <= end {
        result := result + [Slot(current, closes)];
      }
      current := closes;
    }
  }

  method ExpectedBars(sessions: seq<Session>, start: Time, end: Time, timeframe: Timeframe) returns (result: seq<Slot>)
    ensures result == ExpectedSlots(sessions, start, end, timeframe)
  {
    result := [];
    for i := 0 to |sessions|
      invariant result == ExpectedSlots(sessions[..i], start, end, timeframe)
    {
      var bars := SessionBars(sessions[i], start, end, timeframe);
      result := result + bars;
      assert sessions[..i + 1] == sessions[..i] + [sessions[i]];
      ExpectedConcat(sessions[..i], [sessions[i]], start, end, timeframe);
      assert ExpectedSlots([sessions[i]], start, end, timeframe) == bars;
    }
    assert sessions[..|sessions|] == sessions;
  }

  /** The next expected opening after an instant: the first in the list that is later, hence the earliest. */
  method NextBar(sessions: seq<Session>, timestamp: Time, limit: Time, timeframe: Timeframe) returns (next: Option<Time>)
    requires Ordered(sessions)
    ensures var slots := ExpectedSlots(sessions, timestamp, limit, timeframe);
            if next.Some? then
              && next.value > timestamp
              && (exists slot :: slot in slots && slot.opening == next.value)
              && (forall slot | slot in slots && slot.opening > timestamp :: next.value <= slot.opening)
            else forall slot | slot in slots :: slot.opening <= timestamp
  {
    hide ExpectedSlots, InSession;
    var slots := ExpectedBars(sessions, timestamp, limit, timeframe);
    ExpectedAscend(sessions, timestamp, limit, timeframe);
    ExpectedInside(sessions, timestamp, limit, timeframe);
    for i := 0 to |slots|
      invariant forall k | 0 <= k < i :: slots[k].opening <= timestamp
    {
      if slots[i].opening > timestamp {
        return Some(slots[i].opening);
      }
    }
    next := None;
  }

  // ----- the feature engine's bound on the number of slots

  /** The whole number of durations in a session, plus one, per session: computed without listing the slots. */
  function SlotBound(sessions: seq<Session>, timeframe: Timeframe): int {
    if sessions == [] then 0
    else (var n := (sessions[0].closes - sessions[0].opens) / timeframe.Duration() + 1; if n > 1 then n else 1)
         + SlotBound(sessions[1..], timeframe)
  }

  lemma QuotientStep(span: int, d: int)
    requires d > 0
    ensures (span - d) / d == span / d - 1
  {
    var q, r, q0, r0 := span / d, span % d, (span - d) / d, (span - d) % d;
    assert span == q * d + r && span - d == q0 * d + r0;
    SmallMultiple(q0 - (q - 1), d, r - r0);
  }

  lemma SmallMultiple(k: int, d: int, x: int)
    requires d > 0 && k * d == x && -d < x < d
    ensures k == 0
  {
    assert k >= 1 ==> (k - 1) * d >= 0;
    assert k <= -1 ==> (k + 1) * d <= 0;
  }

  lemma {:induction false} SlotsBounded(session: Session, timeframe: Timeframe, current: Time)
    requires current < session.closes
    ensures timeframe == Day1 ==> |SlotsFrom(session, timeframe, current)| == 1
    ensures timeframe != Day1 ==> |SlotsFrom(session, timeframe, current)| <= (session.closes - current) / timeframe.Duration() + 1
    decreases session.closes - current
  {
    var d := timeframe.Duration();
    var closing := SlotClose(session, timeframe, current);
    if closing < session.closes {
      SlotsBounded(session, timeframe, closing);
      QuotientStep(session.closes - current, d);
    }
  }

  lemma {:induction false} FilterShrinks<T>(items: seq<T>, keep: T -> bool)
    ensures |Filter(items, keep)| <= |items|
  {
    if items != [] {
      FilterShrinks(items[1..], keep);
    }
  }

  /** The cheap bound is never below the true number of expected slots. */
  lemma {:induction false} BoundCoversSlots(sessions: seq<Session>, start: Time, end: Time, timeframe: Timeframe)
    requires Ordered(sessions)
    ensures |ExpectedSlots(sessions, start, end, timeframe)| <= SlotBound(sessions, timeframe)
  {
    if sessions != [] {
      var s := sessions[0];
      SlotsBounded(s, timeframe, s.opens);
      FilterShrinks(SlotsFrom(s, timeframe, s.opens), Within(start, end));
      BoundCoversSlots(sessions[1..], start, end, timeframe);
    }
  }
}
