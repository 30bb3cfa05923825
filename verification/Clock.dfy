/** The simulated clock: every session, bar and decision event in one stable order. */
module Clock {
  import opened Common
  import opened Orders
  import opened Execution
  import opened Calendars
  import opened Texts

  /** Kinds in priority order at equal timestamps. */
  datatype Kind = SessionOpen | BarComplete | Decision | BarOpen | SessionClose
  {
    function Priority(): nat {
      match this
      case SessionOpen => 0
      case BarComplete => 1
      case Decision => 2
      case BarOpen => 3
      case SessionClose => 4
    }
  }

  /** The tick's reference is the decimal text of the index of its session, bar or intent. */
  datatype Tick = Tick(timestamp: Time, kind: Kind, index: nat)

  /** Timestamp and priority only. */
  predicate Earlier(a: Tick, b: Tick) {
    a.timestamp < b.timestamp || (a.timestamp == b.timestamp && a.kind.Priority() < b.kind.Priority())
  }

  /** The dataclass order: ties compare the reference text, so index 10 comes before index 9. */
  predicate Before(a: Tick, b: Tick) {
    Earlier(a, b) || (!Earlier(b, a) && AtMost(Digits(a.index), Digits(b.index)))
  }

  lemma BeforeTotal(a: Tick, b: Tick)
    ensures Before(a, b) || Before(b, a)
    ensures Before(a, b) && Before(b, a) ==> a == b
  {
    AtMostTotal(Digits(a.index), Digits(b.index));
    if Before(a, b) && Before(b, a) {
      DigitsInjective(a.index, b.index);
    }
  }

  /** What happens first at one instant. */
  const KIND_ORDER := [SessionOpen, BarComplete, Decision, BarOpen, SessionClose]

  predicate KindEarlier(a: Kind, b: Kind) { exists m, n :: 0 <= m < n < |KIND_ORDER| && KIND_ORDER[m] == a && KIND_ORDER[n] == b }

  lemma KindsRanked(a: Kind, b: Kind)
    ensures KindEarlier(a, b) <==> a.Priority() < b.Priority()
  {
    assert forall k: Kind :: KIND_ORDER[k.Priority()] == k;
    assert forall m | 0 <= m < |KIND_ORDER| :: KIND_ORDER[m].Priority() == m;
  }

  /** Time first, then the kind, then the numerals as texts; so the tenth of a kind comes before the ninth, not after it. */
  lemma BeforeExact(a: Tick, b: Tick)
    ensures Before(a, b) <==>
            || a.timestamp < b.timestamp
            || (a.timestamp == b.timestamp && KindEarlier(a.kind, b.kind))
            || (a.timestamp == b.timestamp && a.kind == b.kind && InOrder(Digits(a.index), Digits(b.index)))
    ensures a.timestamp == b.timestamp && a.kind == b.kind && a.index == 10 && b.index == 9 ==> Before(a, b) && !Before(b, a)
  {
    KindsRanked(a.kind, b.kind);
    KindsRanked(b.kind, a.kind);
    AtMostExact(Digits(a.index), Digits(b.index));
    assert a.kind.Priority() == b.kind.Priority() ==> a.kind == b.kind;
    assert Digits(10) == "10" && Digits(9) == "9";
  }

  lemma BeforeTransitive(a: Tick, b: Tick, c: Tick)
    requires Before(a, b) && Before(b, c)
    ensures Before(a, c)
  {
    if !Earlier(a, b) && !Earlier(b, c) {
      AtMostTransitive(Digits(a.index), Digits(b.index), Digits(c.index));
    }
  }

  ghost predicate Sorted(ticks: seq<Tick>) {
    forall i, j | 0 <= i < j < |ticks| :: Before(ticks[i], ticks[j])
  }

  ghost predicate Distinct<T>(items: seq<T>) {
    forall i, j | 0 <= i < j < |items| :: items[i] != items[j]
  }

  function Insert(tick: Tick, ticks: seq<Tick>): seq<Tick> {
    if ticks == [] then [tick]
    else if Before(tick, ticks[0]) then [tick] + ticks
    else [ticks[0]] + Insert(tick, ticks[1..])
  }

  /** sorted(ticks) */
  function Sort(ticks: seq<Tick>): seq<Tick> {
    if ticks == [] then [] else Insert(ticks[0], Sort(ticks[1..]))
  }

  lemma {:induction false} InsertPermutes(tick: Tick, ticks: seq<Tick>)
    ensures multiset(Insert(tick, ticks)) == multiset(ticks) + multiset{tick}
  {
    hide Before;
    if ticks != [] {
      assert ticks == [ticks[0]] + ticks[1..];
      InsertPermutes(tick, ticks[1..]);
    }
  }

  /** What every member of a list satisfies, every member of a permutation of it satisfies. */
  lemma SameMembers<T>(a: seq<T>, b: seq<T>)
    requires multiset(a) == multiset(b)
    ensures forall x :: x in a <==> x in b
  {
    forall x
      ensures x in a <==> x in b
    {
      assert x in a <==> x in multiset(a);
      assert x in b <==> x in multiset(b);
    }
  }

  lemma {:induction false} InsertSorts(tick: Tick, ticks: seq<Tick>)
    requires Sorted(ticks)
    ensures Sorted(Insert(tick, ticks))
  {
    hide Before;
    if ticks == [] {
    } else if Before(tick, ticks[0]) {
      forall j | 0 <= j < |ticks|
        ensures Before(tick, ticks[j])
      {
        if j > 0 { BeforeTransitive(tick, ticks[0], ticks[j]); }
      }
    } else {
      BeforeTotal(tick, ticks[0]);
      InsertSorts(tick, ticks[1..]);
      InsertPermutes(tick, ticks[1..]);
      SameMembers(Insert(tick, ticks[1..]), ticks[1..] + [tick]);
      forall t | t in Insert(tick, ticks[1..])
        ensures Before(ticks[0], t)
      {
      }
    }
  }

  /** Sorting yields an ordered permutation. */
  lemma {:induction false} SortSorts(ticks: seq<Tick>)
    ensures Sorted(Sort(ticks)) && multiset(Sort(ticks)) == multiset(ticks)
  {
    if ticks != [] {
      SortSorts(ticks[1..]);
      InsertSorts(ticks[0], Sort(ticks[1..]));
      InsertPermutes(ticks[0], Sort(ticks[1..]));
      assert ticks == [ticks[0]] + ticks[1..];
    }
  }

  lemma FirstIsLeast(ticks: seq<Tick>, t: Tick)
    requires Sorted(ticks) && t in ticks
    ensures t == ticks[0] || Before(ticks[0], t)
  {
  }

  lemma TailMultiset(ticks: seq<Tick>)
    requires ticks != []
    ensures multiset(ticks[1..]) == multiset(ticks) - multiset{ticks[0]}
    ensures Sorted(ticks) ==> Sorted(ticks[1..])
  {
    assert ticks == [ticks[0]] + ticks[1..];
  }

  lemma SameHead(a: seq<Tick>, b: seq<Tick>)
    requires Sorted(a) && Sorted(b) && multiset(a) == multiset(b) && a != [] && b != []
    ensures a[0] == b[0]
  {
    hide Before;
    SameMembers(a, b);
    FirstIsLeast(a, b[0]);
    FirstIsLeast(b, a[0]);
    BeforeTotal(a[0], b[0]);
  }

  /** An ordered permutation is unique, so the order does not depend on the sorting algorithm. */
  lemma {:induction false} SortedUnique(a: seq<Tick>, b: seq<Tick>)
    requires Sorted(a) && Sorted(b) && multiset(a) == multiset(b)
    ensures a == b
  {
    hide Before, Sorted;
    assert |multiset(a)| == |a| && |multiset(b)| == |b|;
    if a != [] {
      SameHead(a, b);
      TailMultiset(a);
      TailMultiset(b);
      SortedUnique(a[1..], b[1..]);
      assert a == [a[0]] + a[1..] && b == [b[0]] + b[1..];
    }
  }

  function SessionTicks(sessions: seq<Session>): seq<Tick> {
    if sessions == [] then []
    else
      var n := |sessions| - 1;
      SessionTicks(sessions[..n]) + [Tick(sessions[n].opens, SessionOpen, n), Tick(sessions[n].closes, SessionClose, n)]
  }

  function BarTicks(bars: seq<SnapshotBar>): seq<Tick> {
    if bars == [] then []
    else
      var n := |bars| - 1;
      BarTicks(bars[..n]) + [Tick(bars[n].bar.timestamp, BarOpen, n), Tick(bars[n].availableAt, BarComplete, n)]
  }

  function DecisionTicks(script: seq<TradeIntent>): seq<Tick> {
    if script == [] then []
    else DecisionTicks(script[..|script| - 1]) + [Tick(script[|script| - 1].createdAt, Decision, |script| - 1)]
  }

  function AllTicks(bars: seq<SnapshotBar>, sessions: seq<Session>, script: seq<TradeIntent>): seq<Tick> {
    SessionTicks(sessions) + BarTicks(bars) + DecisionTicks(script)
  }

  function Timeline(bars: seq<SnapshotBar>, sessions: seq<Session>, script: seq<TradeIntent>): seq<Tick> {
    Sort(AllTicks(bars, sessions, script))
  }

  /** Extend one local list in three loops, then sort it. */
  method BuildTimeline(bars: seq<SnapshotBar>, sessions: seq<Session>, script: seq<TradeIntent>) returns (ticks: seq<Tick>)
    ensures ticks == Timeline(bars, sessions, script)
  {
    ticks := [];
    for i := 0 to |sessions|
      invariant ticks == SessionTicks(sessions[..i])
    {
      assert sessions[..i + 1][..i] == sessions[..i];
      ticks := ticks + [Tick(sessions[i].opens, SessionOpen, i), Tick(sessions[i].closes, SessionClose, i)];
    }
    assert sessions[..|sessions|] == sessions;
    for i := 0 to |bars|
      invariant ticks == SessionTicks(sessions) + BarTicks(bars[..i])
    {
      assert bars[..i + 1][..i] == bars[..i];
      ticks := ticks + [Tick(bars[i].bar.timestamp, BarOpen, i), Tick(bars[i].availableAt, BarComplete, i)];
    }
    assert bars[..|bars|] == bars;
    for i := 0 to |script|
      invariant ticks == SessionTicks(sessions) + BarTicks(bars) + DecisionTicks(script[..i])
    {
      assert script[..i + 1][..i] == script[..i];
      ticks := ticks + [Tick(script[i].createdAt, Decision, i)];
    }
    assert script[..|script|] == script;
    ticks := Sort(ticks);
  }

  /** The tick stands for an actual session, bar or decision event. */
  predicate Scheduled(bars: seq<SnapshotBar>, sessions: seq<Session>, script: seq<TradeIntent>, t: Tick) {
    match t.kind
    case SessionOpen => t.index < |sessions| && t.timestamp == sessions[t.index].opens
    case SessionClose => t.index < |sessions| && t.timestamp == sessions[t.index].closes
    case BarOpen => t.index < |bars| && t.timestamp == bars[t.index].bar.timestamp
    case BarComplete => t.index < |bars| && t.timestamp == bars[t.index].availableAt
    case Decision => t.index < |script| && t.timestamp == script[t.index].createdAt
  }

  lemma {:induction false} SessionTicksExact(sessions: seq<Session>)
    ensures forall t :: t in SessionTicks(sessions) <==> t.kind in {SessionOpen, SessionClose} && Scheduled([], sessions, [], t)
    ensures Distinct(SessionTicks(sessions))
  {
    if sessions != [] {
      SessionTicksExact(sessions[..|sessions| - 1]);
    }
  }

  lemma {:induction false} BarTicksExact(bars: seq<SnapshotBar>)
    ensures forall t :: t in BarTicks(bars) <==> t.kind in {BarOpen, BarComplete} && Scheduled(bars, [], [], t)
    ensures Distinct(BarTicks(bars))
  {
    if bars != [] {
      BarTicksExact(bars[..|bars| - 1]);
    }
  }

  lemma {:induction false} DecisionTicksExact(script: seq<TradeIntent>)
    ensures forall t :: t in DecisionTicks(script) <==> t.kind == Decision && Scheduled([], [], script, t)
    ensures Distinct(DecisionTicks(script))
  {
    if script != [] {
      DecisionTicksExact(script[..|script| - 1]);
    }
  }

  lemma {:induction false} DistinctCountsOnce<T>(items: seq<T>)
    requires Distinct(items)
    ensures forall x :: multiset(items)[x] <= 1
  {
    if items != [] {
      DistinctCountsOnce(items[1..]);
      assert items == [items[0]] + items[1..];
      assert items[0] !in items[1..];
      assert items[0] !in multiset(items[1..]);
    }
  }

  lemma CountsOnceDistinct<T>(items: seq<T>)
    requires forall x :: multiset(items)[x] <= 1
    ensures Distinct(items)
  {
    forall i, j | 0 <= i < j < |items|
      ensures items[i] != items[j]
    {
      assert items == items[..i] + [items[i]] + items[i + 1..];
      assert items[j] in items[i + 1..];
      assert items[j] in multiset(items[i + 1..]);
      var x := items[j];
      assert multiset(items)[x] == multiset(items[..i])[x] + multiset([items[i]])[x] + multiset(items[i + 1..])[x];
    }
  }

  /** The timeline is sorted, lists every event exactly once, and nothing else. */
  lemma TimelineExact(bars: seq<SnapshotBar>, sessions: seq<Session>, script: seq<TradeIntent>)
    ensures Sorted(Timeline(bars, sessions, script)) && Distinct(Timeline(bars, sessions, script))
    ensures forall t :: t in Timeline(bars, sessions, script) <==> Scheduled(bars, sessions, script, t)
  {
    hide Sort, AllTicks, Sorted, Distinct, Scheduled;
    var all := AllTicks(bars, sessions, script);
    AllTicksExact(bars, sessions, script);
    SortSorts(all);
    DistinctCountsOnce(all);
    CountsOnceDistinct(Sort(all));
    SameMembers(Sort(all), all);
  }

  /** The collected ticks: every event exactly once. */
  lemma AllTicksExact(bars: seq<SnapshotBar>, sessions: seq<Session>, script: seq<TradeIntent>)
    ensures Distinct(AllTicks(bars, sessions, script))
    ensures forall t :: t in AllTicks(bars, sessions, script) <==> Scheduled(bars, sessions, script, t)
  {
    hide SessionTicks, BarTicks, DecisionTicks, Distinct;
    SessionTicksExact(sessions);
    BarTicksExact(bars);
    DecisionTicksExact(script);
    DistinctConcat(SessionTicks(sessions), BarTicks(bars));
    DistinctConcat(SessionTicks(sessions) + BarTicks(bars), DecisionTicks(script));
  }

  lemma DistinctConcat<T>(a: seq<T>, b: seq<T>)
    requires Distinct(a) && Distinct(b) && forall x | x in a :: x !in b
    ensures Distinct(a + b)
  {
    forall i, j | 0 <= i < j < |a + b|
      ensures (a + b)[i] != (a + b)[j]
    {
      if j >= |a| {
        assert (a + b)[j] in b;
        assert i < |a| ==> (a + b)[i] in a;
      }
    }
  }
}
