/** Historical ingestion: classification of provider rows, first-observation-wins merge, counters and audit issues. */
module Ingestion {
  import opened Common
  import opened Calendars

  type Symbol = string

  datatype Values = Values(
    open: real, high: real, low: real, close: real, volume: int,
    openInterest: Option<int>, tradeCount: Option<int>, vwap: Option<real>)

  datatype Candle = Candle(symbol: Symbol, timestamp: Time, values: Values)

  /** A provider row: its number, and the candle it converts to, if its schema and values are valid. */
  datatype RawRow = RawRow(number: nat, converted: Option<Candle>)

  /** Series of different timeframes, sources or adjustments never meet. */
  datatype Scope = Scope(timeframe: Timeframe, source: string, adjustment: string)

  datatype Key = Key(scope: Scope, symbol: Symbol, timestamp: Time)

  datatype Stored = Stored(values: Values, availableAt: Time)

  datatype Request = Request(scope: Scope, symbols: seq<Symbol>, start: Time, end: Time)

  datatype Level = Info | Caution | Fault

  datatype Kind =
    | InvalidBar | UnexpectedTimestamp | OutOfOrder | EmptyDataset | MissingSymbol | MissingBar | LargeGap | Duplicate | Conflict

  datatype Issue = Issue(kind: Kind, level: Level, symbol: Option<Symbol>, timestamp: Option<Time>)

  datatype Counts = Counts(
    received: int, valid: int, inserted: int, skipped: int, rejected: int, duplicates: int, conflicts: int)

  const NO_COUNTS := Counts(0, 0, 0, 0, 0, 0, 0)

  datatype Status = Completed | CompletedWithWarnings | Failed

  datatype Report = Report(status: Status, counts: Counts, issues: seq<Issue>)

  // ----- the specification

  function Completions(slots: seq<Slot>): map<Time, Time> {
    if slots == [] then map[]
    else Completions(slots[..|slots| - 1])[slots[|slots| - 1].opening := slots[|slots| - 1].closing]
  }

  /** A conversion whose symbol was not asked for is invalid as well. */
  function Normalized(row: RawRow, request: Request): Option<Candle> {
    if row.converted.Some? && row.converted.value.symbol in request.symbols then row.converted else None
  }

  function Accepted(row: RawRow, request: Request, expected: map<Time, Time>): Option<Candle> {
    var candle := Normalized(row, request);
    if candle.Some? && candle.value.timestamp in expected then candle else None
  }

  /** The valid candles, in the order they arrived. */
  function ValidCandles(rows: seq<RawRow>, request: Request, expected: map<Time, Time>): seq<Candle> {
    if rows == [] then []
    else
      var candle := Accepted(rows[|rows| - 1], request, expected);
      ValidCandles(rows[..|rows| - 1], request, expected) + if candle.Some? then [candle.value] else []
  }

  function KeyOf(request: Request, candle: Candle): Key { Key(request.scope, candle.symbol, candle.timestamp) }

  predicate InRange(request: Request, key: Key) {
    key.scope == request.scope && key.symbol in request.symbols && request.start <= key.timestamp < request.end
  }

  /** The stored candles the run loads: those of its scope, symbols and time range only. */
  function Existing(store: map<Key, Stored>, request: Request): map<Key, Values> {
    map k | k in store && InRange(request, k) :: store[k].values
  }

  /** What is known after some candles: the first observation of a key stays. */
  function Known(existing: map<Key, Values>, candles: seq<Candle>, request: Request): map<Key, Values> {
    if candles == [] then existing
    else
      var before := Known(existing, candles[..|candles| - 1], request);
      var last := candles[|candles| - 1];
      if KeyOf(request, last) in before then before else before[KeyOf(request, last) := last.values]
  }

  /** The candles that were the first observation of their key. */
  function Fresh(existing: map<Key, Values>, candles: seq<Candle>, request: Request): seq<Candle> {
    if candles == [] then []
    else
      var before := candles[..|candles| - 1];
      var last := candles[|candles| - 1];
      Fresh(existing, before, request) + if KeyOf(request, last) in Known(existing, before, request) then [] else [last]
  }

  /** Candles equal to what was known when they arrived. */
  function Repeats(existing: map<Key, Values>, candles: seq<Candle>, request: Request): nat {
    if candles == [] then 0
    else
      var before := candles[..|candles| - 1];
      var last := candles[|candles| - 1];
      var known := Known(existing, before, request);
      Repeats(existing, before, request) + if KeyOf(request, last) in known && known[KeyOf(request, last)] == last.values then 1 else 0
  }

  function StoreAll(store: map<Key, Stored>, added: seq<Candle>, request: Request, expected: map<Time, Time>): map<Key, Stored> {
    if added == [] then store
    else
      var last := added[|added| - 1];
      StoreAll(store, added[..|added| - 1], request, expected)
        [KeyOf(request, last) := Stored(last.values, if last.timestamp in expected then expected[last.timestamp] else 0)]
  }

  lemma MergeStarts(existing: map<Key, Values>, candles: seq<Candle>, request: Request)
    ensures Known(existing, candles[..0], request) == existing && Fresh(existing, candles[..0], request) == [] && Repeats(existing, candles[..0], request) == 0
  {
  }

  /** One more candle: known already, with the same values or others, or fresh. */
  lemma MergeStep(existing: map<Key, Values>, candles: seq<Candle>, i: nat, request: Request)
    requires i < |candles|
    ensures var key, last := KeyOf(request, candles[i]), candles[i];
            var known := Known(existing, candles[..i], request);
            && Known(existing, candles[..i + 1], request) == (if key in known then known else known[key := last.values])
            && Fresh(existing, candles[..i + 1], request) == Fresh(existing, candles[..i], request) + (if key in known then [] else [last])
            && Repeats(existing, candles[..i + 1], request)
               == Repeats(existing, candles[..i], request) + if key in known && known[key] == last.values then 1 else 0
  {
    assert candles[..i + 1][..i] == candles[..i];
  }

  function CountOf(issues: seq<Issue>, kinds: set<Kind>): nat {
    if issues == [] then 0
    else CountOf(issues[..|issues| - 1], kinds) + if issues[|issues| - 1].kind in kinds then 1 else 0
  }

  lemma NoIssues()
    ensures forall kinds :: CountOf([], kinds) == 0
  {
  }

  lemma CountPush(issues: seq<Issue>, issue: Issue, kinds: set<Kind>)
    ensures CountOf(issues + [issue], kinds) == CountOf(issues, kinds) + if issue.kind in kinds then 1 else 0
  {
    assert (issues + [issue])[..|issues|] == issues;
  }

  lemma {:induction false} CountConcat(a: seq<Issue>, b: seq<Issue>, kinds: set<Kind>)
    ensures CountOf(a + b, kinds) == CountOf(a, kinds) + CountOf(b, kinds)
  {
    if b == [] {
      assert a + b == a;
    } else {
      var n := |b| - 1;
      CountConcat(a, b[..n], kinds);
      assert (a + b)[..|a + b| - 1] == a + b[..n];
    }
  }

  // ----- what the specification means

  /** Somewhere among the candles is one with this key, and it is the first. */
  ghost predicate FirstSeen(candles: seq<Candle>, request: Request, key: Key, values: Values) {
    exists i :: 0 <= i < |candles| && KeyOf(request, candles[i]) == key && candles[i].values == values
                && forall j | 0 <= j < i :: KeyOf(request, candles[j]) != key
  }

  lemma FirstSeenPush(candles: seq<Candle>, request: Request, key: Key, values: Values, last: Candle)
    ensures FirstSeen(candles, request, key, values) ==> FirstSeen(candles + [last], request, key, values)
    ensures KeyOf(request, last) == key && !Arrived(candles, request, key) ==>
              FirstSeen(candles + [last], request, key, last.values)
  {
    var longer := candles + [last];
    if FirstSeen(candles, request, key, values) {
      var i :| 0 <= i < |candles| && KeyOf(request, candles[i]) == key && candles[i].values == values
               && forall j | 0 <= j < i :: KeyOf(request, candles[j]) != key;
      assert longer[i] == candles[i];
    }
    assert longer[|candles|] == last;
  }

  /**
   * First observation wins: what is known of a key afterwards is the stored candle if there was one, else the first
   * candle that arrived for it; and nothing else is known.
   */
  lemma {:induction false} FirstObservationWins(existing: map<Key, Values>, candles: seq<Candle>, request: Request, key: Key)
    ensures var known := Known(existing, candles, request);
            && (key in existing ==> key in known && known[key] == existing[key])
            && (key !in existing && key in known ==> FirstSeen(candles, request, key, known[key]))
            && (key in known <==> key in existing || Arrived(candles, request, key))
  {
    hide FirstSeen, Arrived;
    if candles == [] {
      NoneArrived(request, key);
    } else {
      var n := |candles| - 1;
      FirstObservationWins(existing, candles[..n], request, key);
      assert candles == candles[..n] + [candles[n]];
      ArrivedPush(candles[..n], request, key, candles[n]);
      var known := Known(existing, candles, request);
      if key in known {
        FirstSeenPush(candles[..n], request, key, known[key], candles[n]);
      }
    }
  }

  /** Some candle has this key. */
  ghost predicate Arrived(candles: seq<Candle>, request: Request, key: Key) {
    exists i :: 0 <= i < |candles| && KeyOf(request, candles[i]) == key
  }

  lemma NoneArrived(request: Request, key: Key)
    ensures !Arrived([], request, key)
  {
  }

  lemma ArrivedPush(candles: seq<Candle>, request: Request, key: Key, last: Candle)
    ensures Arrived(candles + [last], request, key) <==> Arrived(candles, request, key) || KeyOf(request, last) == key
  {
    var longer := candles + [last];
    if Arrived(candles, request, key) {
      var i :| 0 <= i < |candles| && KeyOf(request, candles[i]) == key;
      assert longer[i] == candles[i];
    }
    assert longer[|candles|] == last;
  }

  lemma {:induction false} ValidAreExpected(rows: seq<RawRow>, request: Request, expected: map<Time, Time>)
    ensures |ValidCandles(rows, request, expected)| <= |rows|
    ensures forall c | c in ValidCandles(rows, request, expected) :: c.symbol in request.symbols && c.timestamp in expected
  {
    if rows != [] {
      ValidAreExpected(rows[..|rows| - 1], request, expected);
    }
  }

  /** A slot that opens at one instant is complete at another. */
  ghost predicate CompleteAt(slots: seq<Slot>, t: Time, at: Time) { exists i :: 0 <= i < |slots| && slots[i].opening == t && slots[i].closing == at }

  /** Exactly the openings are expected, each with the completion of a slot that opens then. */
  lemma {:induction false} CompletionsExact(slots: seq<Slot>)
    ensures forall t :: t in Completions(slots) <==> Opens(slots, t)
    ensures forall t | t in Completions(slots) :: CompleteAt(slots, t, Completions(slots)[t])
  {
    if slots != [] {
      var n := |slots| - 1;
      CompletionsExact(slots[..n]);
      assert slots == slots[..n] + [slots[n]];
      hide Opens, CompleteAt;
      forall t
        ensures t in Completions(slots) <==> Opens(slots, t)
        ensures t in Completions(slots) ==> CompleteAt(slots, t, Completions(slots)[t])
      {
        OpensPush(slots[..n], slots[n], t);
        if t != slots[n].opening && t in Completions(slots[..n]) {
          CompletePush(slots[..n], slots[n], t, Completions(slots[..n])[t]);
        }
      }
      CompletePush(slots[..n], slots[n], slots[n].opening, slots[n].closing);
    } else {
      assert forall t :: !Opens(slots, t);
    }
  }

  lemma OpensPush(slots: seq<Slot>, last: Slot, t: Time)
    ensures Opens(slots + [last], t) <==> Opens(slots, t) || last.opening == t
  {
    var all := slots + [last];
    assert all[|slots|] == last;
    if Opens(slots, t) {
      var i :| 0 <= i < |slots| && slots[i].opening == t;
      assert all[i] == slots[i];
    }
    if Opens(all, t) {
      var i :| 0 <= i < |all| && all[i].opening == t;
      assert i < |slots| ==> slots[i] == all[i];
    }
  }

  lemma CompletePush(slots: seq<Slot>, last: Slot, t: Time, at: Time)
    ensures CompleteAt(slots, t, at) || (last.opening == t && last.closing == at) ==> CompleteAt(slots + [last], t, at)
  {
    var all := slots + [last];
    assert all[|slots|] == last;
    if CompleteAt(slots, t, at) {
      var i :| 0 <= i < |slots| && slots[i].opening == t && slots[i].closing == at;
      assert all[i] == slots[i];
    }
  }

  /** A stored candle becomes available when its slot is complete. */
  ghost predicate AvailableOnCompletion(store: map<Key, Stored>, later: map<Key, Stored>, slots: seq<Slot>) {
    forall k | k in later && k !in store :: CompleteAt(slots, k.timestamp, later[k].availableAt)
  }

  /** The store after a run, key by key: old candles as they were, new ones from the first observation. */
  ghost predicate Merged(store: map<Key, Stored>, later: map<Key, Stored>, candles: seq<Candle>, request: Request, expected: map<Time, Time>) {
    && (forall k | k in store :: k in later && later[k] == store[k])
    && (forall k | k in later && k !in store ::
          && FirstSeen(candles, request, k, later[k].values) && InRange(request, k)
          && k.timestamp in expected && later[k].availableAt == expected[k.timestamp])
    && (forall i | 0 <= i < |candles| :: KeyOf(request, candles[i]) in later)
  }

  lemma OnCompletion(store: map<Key, Stored>, later: map<Key, Stored>, candles: seq<Candle>, request: Request, slots: seq<Slot>)
    requires Merged(store, later, candles, request, Completions(slots))
    ensures AvailableOnCompletion(store, later, slots)
  {
    hide CompleteAt, Opens, FirstSeen, Completions;
    CompletionsExact(slots);
  }

  ghost predicate Listed(candles: seq<Candle>, request: Request, expected: map<Time, Time>) {
    forall c | c in candles :: c.symbol in request.symbols && c.timestamp in expected && request.start <= c.timestamp < request.end
  }

  /** Because expected slots lie in the requested range, a key not loaded is a key not stored. */
  lemma {:induction false} StoringFresh(store: map<Key, Stored>, candles: seq<Candle>, request: Request, expected: map<Time, Time>)
    requires Listed(candles, request, expected)
    ensures var known := Known(Existing(store, request), candles, request);
            var later := StoreAll(store, Fresh(Existing(store, request), candles, request), request, expected);
            && (forall k | k in store :: k in later && later[k] == store[k])
            && (forall k :: k in later <==> k in store || k in known)
            && (forall k | k in known :: InRange(request, k) && known[k] == later[k].values)
            && (forall k | k in later && k !in store :: k.timestamp in expected && later[k].availableAt == expected[k.timestamp])
  {
    if candles != [] {
      var n := |candles| - 1;
      var last := candles[n];
      StoringFresh(store, candles[..n], request, expected);
      var existing := Existing(store, request);
      var key := KeyOf(request, last);
      assert last in candles;
      assert InRange(request, key);
      var before := Fresh(existing, candles[..n], request);
      if key !in Known(existing, candles[..n], request) {
        assert Fresh(existing, candles, request) == before + [last];
        assert (before + [last])[..|before|] == before;
        assert key !in store by {
          ExistingKept(existing, candles[..n], request, key);
        }
      } else {
        assert Fresh(existing, candles, request) == before;
      }
    }
  }

  lemma ExistingKept(existing: map<Key, Values>, candles: seq<Candle>, request: Request, key: Key)
    ensures key in existing ==> key in Known(existing, candles, request)
  {
    FirstObservationWins(existing, candles, request, key);
  }

  /** The merge law for the store. */
  lemma StoreMerged(store: map<Key, Stored>, candles: seq<Candle>, request: Request, expected: map<Time, Time>)
    requires Listed(candles, request, expected)
    ensures Merged(store, StoreAll(store, Fresh(Existing(store, request), candles, request), request, expected), candles, request, expected)
  {
    hide Known, Fresh, StoreAll;
    StoringFresh(store, candles, request, expected);
    var existing := Existing(store, request);
    var later := StoreAll(store, Fresh(existing, candles, request), request, expected);
    forall k | k in later && k !in store
      ensures FirstSeen(candles, request, k, later[k].values)
    {
      FirstObservationWins(existing, candles, request, k);
    }
    forall i | 0 <= i < |candles|
      ensures KeyOf(request, candles[i]) in later
    {
      FirstObservationWins(existing, candles, request, KeyOf(request, candles[i]));
      assert Arrived(candles, request, KeyOf(request, candles[i]));
    }
  }

  /** Candles whose keys are all known bring nothing new. */
  lemma {:induction false} NothingFresh(existing: map<Key, Values>, candles: seq<Candle>, request: Request)
    requires forall i | 0 <= i < |candles| :: KeyOf(request, candles[i]) in existing
    ensures Fresh(existing, candles, request) == [] && Known(existing, candles, request) == existing
  {
    if candles != [] {
      NothingFresh(existing, candles[..|candles| - 1], request);
    }
  }

  /** Ingesting the same candles again inserts nothing and leaves the store as it is. */
  lemma ReingestIdempotent(store: map<Key, Stored>, candles: seq<Candle>, request: Request, expected: map<Time, Time>)
    requires Listed(candles, request, expected)
    ensures var later := StoreAll(store, Fresh(Existing(store, request), candles, request), request, expected);
            && Fresh(Existing(later, request), candles, request) == []
            && StoreAll(later, Fresh(Existing(later, request), candles, request), request, expected) == later
  {
    hide Known, Fresh, StoreAll;
    StoreMerged(store, candles, request, expected);
    var later := StoreAll(store, Fresh(Existing(store, request), candles, request), request, expected);
    forall i | 0 <= i < |candles|
      ensures KeyOf(request, candles[i]) in Existing(later, request)
    {
      assert candles[i] in candles;
      assert InRange(request, KeyOf(request, candles[i]));
    }
    NothingFresh(Existing(later, request), candles, request);
    StoreNothing(later, request, expected);
  }

  lemma StoreNothing(store: map<Key, Stored>, request: Request, expected: map<Time, Time>)
    ensures StoreAll(store, [], request, expected) == store
  {
  }

  // ----- the service

  class IngestionService {
    const maxRows: nat
    var store: map<Key, Stored>

    constructor (maxRows: nat)
      ensures this.maxRows == maxRows && store == map[]
    {
      this.maxRows, store := maxRows, map[];
    }

    /** The loop over the provider's rows; too many rows fail the run. */
    method Classify(rows: seq<RawRow>, request: Request, expected: map<Time, Time>)
      returns (outcome: Result<seq<Candle>>, counts: Counts, issues: seq<Issue>)
      ensures outcome.Ok? <==> |rows| <= maxRows
      ensures outcome.Ok? ==>
                && outcome.value == ValidCandles(rows, request, expected)
                && counts == NO_COUNTS.(received := |rows|, valid := |outcome.value|, rejected := |rows| - |outcome.value|)
                && CountOf(issues, {InvalidBar, UnexpectedTimestamp}) == counts.rejected
                && CountOf(issues, {Conflict}) == 0 == CountOf(issues, {Duplicate})
      ensures forall issue | issue in issues :: issue.kind != MissingBar
    {
      NoIssues();
      hide CountOf, Normalized;
      counts, issues := NO_COUNTS, [];
      var bars: seq<Candle> := [];
      var previous: map<Symbol, Time> := map[];
      for i := 0 to |rows|
        invariant i <= maxRows && bars == ValidCandles(rows[..i], request, expected)
        invariant counts == NO_COUNTS.(received := i, valid := |bars|, rejected := i - |bars|)
        invariant CountOf(issues, {InvalidBar, UnexpectedTimestamp}) == counts.rejected
        invariant CountOf(issues, {Conflict}) == 0 == CountOf(issues, {Duplicate})
        invariant forall issue | issue in issues :: issue.kind != MissingBar
      {
        assert rows[..i + 1][..i] == rows[..i] && rows[..i + 1][i] == rows[i];
        counts := counts.(received := counts.received + 1);
        if counts.received > maxRows {
          return Err(TooManyRows), counts, issues;
        }
        var bar := Normalized(rows[i], request);
        if bar.None? {
          counts := counts.(rejected := counts.rejected + 1);
          issues := Noted(issues, Issue(InvalidBar, Fault, None, None));
        } else if bar.value.timestamp !in expected {
          counts := counts.(rejected := counts.rejected + 1);
          issues := Noted(issues, Issue(UnexpectedTimestamp, Fault, Some(bar.value.symbol), Some(bar.value.timestamp)));
        } else {
          counts := counts.(valid := counts.valid + 1);
          if bar.value.symbol in previous && bar.value.timestamp < previous[bar.value.symbol] {
            issues := Noted(issues, Issue(OutOfOrder, Caution, Some(bar.value.symbol), Some(bar.value.timestamp)));
          }
          previous := previous[bar.value.symbol := bar.value.timestamp];
          bars := bars + [bar.value];
        }
      }
      assert rows[..|rows|] == rows;
      outcome := Ok(bars);
    }

    function Noted(issues: seq<Issue>, issue: Issue): (r: seq<Issue>)
      ensures r == issues + [issue]
      ensures forall kinds :: CountOf(r, kinds) == CountOf(issues, kinds) + if issue.kind in kinds then 1 else 0
    {
      assert forall kinds :: CountOf(issues + [issue], kinds) == CountOf(issues, kinds) + if issue.kind in kinds then 1 else 0 by {
        forall kinds: set<Kind>
          ensures CountOf(issues + [issue], kinds) == CountOf(issues, kinds) + if issue.kind in kinds then 1 else 0
        {
          CountPush(issues, issue, kinds);
        }
      }
      issues + [issue]
    }

    /** The merge loop: the rows to insert, and a verdict for every other candle. */
    method Merge(bars: seq<Candle>, request: Request, before: Counts, noted: seq<Issue>)
      returns (added: seq<Candle>, counts: Counts, issues: seq<Issue>)
      ensures added == Fresh(Existing(store, request), bars, request)
      ensures counts.received == before.received && counts.valid == before.valid && counts.inserted == before.inserted
      ensures counts.duplicates - before.duplicates == counts.skipped - before.skipped == Repeats(Existing(store, request), bars, request)
      ensures counts.conflicts - before.conflicts == counts.rejected - before.rejected
      ensures |added| + (counts.skipped - before.skipped) + (counts.rejected - before.rejected) == |bars|
      ensures CountOf(issues, {Duplicate}) - CountOf(noted, {Duplicate}) == counts.duplicates - before.duplicates
      ensures CountOf(issues, {Conflict}) - CountOf(noted, {Conflict}) == counts.conflicts - before.conflicts
      ensures CountOf(issues, {InvalidBar, UnexpectedTimestamp}) == CountOf(noted, {InvalidBar, UnexpectedTimestamp})
      ensures forall issue: Issue | issue.kind == MissingBar :: issue in issues <==> issue in noted
    {
      MergeStarts(Existing(store, request), bars, request);
      hide CountOf, Known, Fresh, Repeats, Existing;
      var existing := Existing(store, request);
      var known := existing;
      added, counts, issues := [], before, noted;
      for i := 0 to |bars|
        invariant known == Known(existing, bars[..i], request) && added == Fresh(existing, bars[..i], request)
        invariant counts.received == before.received && counts.valid == before.valid && counts.inserted == before.inserted
        invariant counts.duplicates - before.duplicates == counts.skipped - before.skipped == Repeats(existing, bars[..i], request)
        invariant counts.conflicts - before.conflicts == counts.rejected - before.rejected
        invariant |added| + (counts.skipped - before.skipped) + (counts.rejected - before.rejected) == i
        invariant CountOf(issues, {Duplicate}) - CountOf(noted, {Duplicate}) == counts.duplicates - before.duplicates
        invariant CountOf(issues, {Conflict}) - CountOf(noted, {Conflict}) == counts.conflicts - before.conflicts
        invariant CountOf(issues, {InvalidBar, UnexpectedTimestamp}) == CountOf(noted, {InvalidBar, UnexpectedTimestamp})
        invariant forall issue: Issue | issue.kind == MissingBar :: issue in issues <==> issue in noted
      {
        MergeStep(existing, bars, i, request);
        var bar := bars[i];
        var key := KeyOf(request, bar);
        if key in known {
          if known[key] == bar.values {
            counts := counts.(duplicates := counts.duplicates + 1, skipped := counts.skipped + 1);
            issues := Noted(issues, Issue(Duplicate, Info, Some(bar.symbol), Some(bar.timestamp)));
          } else {
            counts := counts.(conflicts := counts.conflicts + 1, rejected := counts.rejected + 1);
            issues := Noted(issues, Issue(Conflict, Fault, Some(bar.symbol), Some(bar.timestamp)));
          }
        } else {
          known := known[key := bar.values];
          added := added + [bar];
        }
      }
      assert bars[..|bars|] == bars;
    }

    method MissingSlots(bars: seq<Candle>, symbol: Symbol, slots: seq<Slot>) returns (missing: seq<Time>)
      ensures forall slot | slot in slots && !Observed(bars, symbol, slot.opening) :: slot.opening in missing
      ensures forall t | t in missing :: !Observed(bars, symbol, t) && Opens(slots, t)
      ensures |missing| == Unobserved(bars, symbol, slots)
    {
      hide Observed;
      missing := [];
      for k := 0 to |slots|
        invariant |missing| == Unobserved(bars, symbol, slots[..k])
        invariant forall s | 0 <= s < k && !Observed(bars, symbol, slots[s].opening) :: slots[s].opening in missing
        invariant forall t | t in missing :: !Observed(bars, symbol, t) && Opens(slots, t)
      {
        assert slots[..k + 1][..k] == slots[..k];
        if !Observed(bars, symbol, slots[k].opening) {
          missing := missing + [slots[k].opening];
        }
      }
      assert slots[..|slots|] == slots;
    }

    /** What is noted of one symbol: first that it is missing altogether, if so, and then its gaps; three or more make a large one. */
    method SymbolIssues(bars: seq<Candle>, symbol: Symbol, slots: seq<Slot>) returns (issues: seq<Issue>)
      ensures GapsNoted(bars, symbol, slots, issues)
      ensures forall issue | issue in issues && issue.kind == MissingBar :: Missing(bars, symbol, slots, issue)
      ensures Uncounted(issues)
      ensures (exists issue | issue in issues :: issue.kind == LargeGap) <==> Unobserved(bars, symbol, slots) >= 3
      ensures (exists c | c in bars :: c.symbol == symbol) || (issues != [] && issues[0] == Issue(MissingSymbol, Caution, Some(symbol), None))
    {
      hide CountOf, GapIssues, Observed, Unobserved;
      issues := [];
      NoneCounted();
      if !exists c | c in bars :: c.symbol == symbol {
        issues := Noted(issues, Issue(MissingSymbol, Caution, Some(symbol), None));
      }
      var missing := MissingSlots(bars, symbol, slots);
      GapIssuesExact(symbol, missing);
      var gaps := GapIssues(symbol, missing);
      CountConcat(issues, gaps, {InvalidBar, UnexpectedTimestamp});
      CountConcat(issues, gaps, {Conflict});
      CountConcat(issues, gaps, {Duplicate});
      assert forall issue | issue in gaps :: issue in issues + gaps;
      issues := issues + gaps;
    }

    /** gap_issues, symbol by symbol. */
    method NoteGaps(bars: seq<Candle>, request: Request, slots: seq<Slot>, noted: seq<Issue>) returns (issues: seq<Issue>)
      ensures forall symbol | symbol in request.symbols :: GapsNoted(bars, symbol, slots, issues)
      ensures forall issue | issue in issues && issue.kind == MissingBar :: issue in noted || MissingFor(bars, request, slots, issue)
      ensures CountOf(issues, {InvalidBar, UnexpectedTimestamp}) == CountOf(noted, {InvalidBar, UnexpectedTimestamp})
      ensures CountOf(issues, {Conflict}) == CountOf(noted, {Conflict}) && CountOf(issues, {Duplicate}) == CountOf(noted, {Duplicate})
    {
      hide CountOf, GapsNoted, Missing;
      issues := noted;
      for i := 0 to |request.symbols|
        invariant forall j | 0 <= j < i :: GapsNoted(bars, request.symbols[j], slots, issues)
        invariant forall issue | issue in issues && issue.kind == MissingBar :: issue in noted || MissingFor(bars, request, slots, issue)
        invariant CountOf(issues, {InvalidBar, UnexpectedTimestamp}) == CountOf(noted, {InvalidBar, UnexpectedTimestamp})
        invariant CountOf(issues, {Conflict}) == CountOf(noted, {Conflict}) && CountOf(issues, {Duplicate}) == CountOf(noted, {Duplicate})
      {
        var gaps := SymbolIssues(bars, request.symbols[i], slots);
        CountConcat(issues, gaps, {InvalidBar, UnexpectedTimestamp});
        CountConcat(issues, gaps, {Conflict});
        CountConcat(issues, gaps, {Duplicate});
        NotedLater(bars, request.symbols, slots, issues, gaps);
        issues := issues + gaps;
      }
    }

    /** Run, atomically: either every first observation is stored, or nothing is. */
    method Ingest(rows: seq<RawRow>, request: Request, sessions: seq<Session>) returns (report: Report)
      modifies this
      ensures var slots := ExpectedSlots(sessions, request.start, request.end, request.scope.timeframe);
              var expected := Completions(slots);
              var candles := ValidCandles(rows, request, expected);
              && (report.status == Failed <==> |slots| * |request.symbols| > maxRows || |rows| > maxRows)
              && (report.status == Failed ==> store == old(store) && report.counts.inserted == 0)
              && (report.status != Failed ==>
                    && store == StoreAll(old(store), Fresh(Existing(old(store), request), candles, request), request, expected)
                    && Merged(old(store), store, candles, request, expected)
                    && AvailableOnCompletion(old(store), store, slots)
                    && Balanced(report, |rows|, |candles|)
                    && report.counts.inserted == |Fresh(Existing(old(store), request), candles, request)|
                    && (report.status == Completed <==> forall i | i in report.issues :: i.level == Info)
                    && GapsExact(candles, request, slots, report.issues))
    {
      hide Merged, AvailableOnCompletion, CompleteAt, Opens, StoreAll, Fresh, Known, ExpectedSlots, Completions, ValidCandles, CountOf, GapsNoted, MissingFor, Listed;
      var slots := ExpectedBars(sessions, request.start, request.end, request.scope.timeframe);
      var expected := Completions(slots);
      if |slots| * |request.symbols| > maxRows {
        return Report(Failed, NO_COUNTS, []);
      }
      var classified, counts, issues := Classify(rows, request, expected);
      if classified.Err? {
        return Report(Failed, counts.(inserted := 0), issues);
      }
      var bars := classified.value;
      ListedValid(rows, request, sessions);
      if counts.received == 0 {
        issues := Noted(issues, Issue(EmptyDataset, Caution, None, None));
      }
      var gapped := NoteGaps(bars, request, slots, issues);
      var added, merged, finished := Merge(bars, request, counts, gapped);
      GapsCarried(bars, request, slots, gapped, finished);
      StoreMerged(store, bars, request, expected);
      CompletionsExact(slots);
      OnCompletion(store, StoreAll(store, added, request, expected), bars, request, slots);
      store := StoreAll(store, added, request, expected);
      merged := merged.(inserted := |added|);
      report := Report(if exists i | i in finished :: i.level != Info then CompletedWithWarnings else Completed, merged, finished);
    }
  }

  predicate Observed(bars: seq<Candle>, symbol: Symbol, t: Time) { exists c | c in bars :: c.symbol == symbol && c.timestamp == t }

  /** How many expected slots no valid candle of the symbol was observed for. */
  function Unobserved(bars: seq<Candle>, symbol: Symbol, slots: seq<Slot>): nat {
    if slots == [] then 0
    else Unobserved(bars, symbol, slots[..|slots| - 1]) + if Observed(bars, symbol, slots[|slots| - 1].opening) then 0 else 1
  }

  predicate Opens(slots: seq<Slot>, t: Time) { exists s :: 0 <= s < |slots| && slots[s].opening == t }

  /** Every expected slot without a valid candle of the symbol has its issue. */
  ghost predicate GapsNoted(bars: seq<Candle>, symbol: Symbol, slots: seq<Slot>, issues: seq<Issue>) {
    forall slot | slot in slots && !Observed(bars, symbol, slot.opening) ::
      Issue(MissingBar, Caution, Some(symbol), Some(slot.opening)) in issues
  }

  /** MISSING_BAR issues name exactly the requested symbols' expected slots for which no valid candle arrived. */
  ghost predicate GapsExact(bars: seq<Candle>, request: Request, slots: seq<Slot>, issues: seq<Issue>) {
    && (forall symbol | symbol in request.symbols :: GapsNoted(bars, symbol, slots, issues))
    && (forall issue | issue in issues && issue.kind == MissingBar :: MissingFor(bars, request, slots, issue))
  }

  lemma GapsCarried(bars: seq<Candle>, request: Request, slots: seq<Slot>, issues: seq<Issue>, later: seq<Issue>)
    requires GapsExact(bars, request, slots, issues)
    requires forall issue: Issue | issue.kind == MissingBar :: issue in later <==> issue in issues
    ensures GapsExact(bars, request, slots, later)
  {
    hide Observed, MissingFor;
    forall symbol | symbol in request.symbols
      ensures GapsNoted(bars, symbol, slots, later)
    {
      assert GapsNoted(bars, symbol, slots, issues);
    }
  }

  lemma NotedLater(bars: seq<Candle>, symbols: seq<Symbol>, slots: seq<Slot>, issues: seq<Issue>, more: seq<Issue>)
    ensures forall j | 0 <= j < |symbols| && (GapsNoted(bars, symbols[j], slots, issues) || GapsNoted(bars, symbols[j], slots, more)) ::
              GapsNoted(bars, symbols[j], slots, issues + more)
  {
    hide Observed;
  }

  /** None of these issues is about a row that was received. */
  ghost predicate Uncounted(issues: seq<Issue>) {
    && CountOf(issues, {InvalidBar, UnexpectedTimestamp}) == 0
    && CountOf(issues, {Conflict}) == 0 && CountOf(issues, {Duplicate}) == 0
  }

  /** The issue names the symbol and an expected slot for which no valid candle of it arrived. */
  ghost predicate Missing(bars: seq<Candle>, symbol: Symbol, slots: seq<Slot>, issue: Issue) {
    && issue.symbol == Some(symbol) && issue.timestamp.Some?
    && !Observed(bars, symbol, issue.timestamp.value) && Opens(slots, issue.timestamp.value)
  }

  ghost predicate MissingFor(bars: seq<Candle>, request: Request, slots: seq<Slot>, issue: Issue) {
    exists j :: 0 <= j < |request.symbols| && Missing(bars, request.symbols[j], slots, issue)
  }

  function GapIssues(symbol: Symbol, missing: seq<Time>): seq<Issue> {
    seq(|missing|, i requires 0 <= i < |missing| => Issue(MissingBar, Caution, Some(symbol), Some(missing[i])))
    + if |missing| >= 3 then [Issue(LargeGap, Caution, Some(symbol), Some(missing[0]))] else []
  }

  lemma {:induction false} NoneOfKind(issues: seq<Issue>, kinds: set<Kind>)
    requires forall i | 0 <= i < |issues| :: issues[i].kind !in kinds
    ensures CountOf(issues, kinds) == 0
  {
    if issues != [] {
      NoneOfKind(issues[..|issues| - 1], kinds);
    }
  }

  lemma NoneCounted()
    ensures Uncounted([])
  {
  }

  lemma GapIssuesExact(symbol: Symbol, missing: seq<Time>)
    ensures forall t | t in missing :: Issue(MissingBar, Caution, Some(symbol), Some(t)) in GapIssues(symbol, missing)
    ensures forall i | i in GapIssues(symbol, missing) && i.kind == MissingBar :: i.symbol == Some(symbol) && i.timestamp.Some? && i.timestamp.value in missing
    ensures |missing| >= 3 ==> Issue(LargeGap, Caution, Some(symbol), Some(missing[0])) in GapIssues(symbol, missing)
    ensures |missing| < 3 ==> forall i | i in GapIssues(symbol, missing) :: i.kind != LargeGap
    ensures CountOf(GapIssues(symbol, missing), {InvalidBar, UnexpectedTimestamp}) == 0
    ensures CountOf(GapIssues(symbol, missing), {Conflict}) == 0 == CountOf(GapIssues(symbol, missing), {Duplicate})
  {
    var gaps := GapIssues(symbol, missing);
    forall t | t in missing
      ensures Issue(MissingBar, Caution, Some(symbol), Some(t)) in gaps
    {
      var i :| 0 <= i < |missing| && missing[i] == t;
      assert gaps[i] == Issue(MissingBar, Caution, Some(symbol), Some(t));
    }
    assert |missing| >= 3 ==> gaps[|missing|] == Issue(LargeGap, Caution, Some(symbol), Some(missing[0]));
    NoneOfKind(gaps, {InvalidBar, UnexpectedTimestamp});
    NoneOfKind(gaps, {Conflict});
    NoneOfKind(gaps, {Duplicate});
  }

  /** The counters of a completed run: every row is accounted for once, and every rejection and repeat has its issue. */
  ghost predicate Balanced(report: Report, rows: nat, candles: nat) {
    var c := report.counts;
    && c.received == rows == c.inserted + c.skipped + c.rejected
    && c.valid == candles == c.inserted + c.duplicates + c.conflicts
    && c.skipped == c.duplicates == CountOf(report.issues, {Duplicate})
    && c.conflicts == CountOf(report.issues, {Conflict})
    && c.rejected == CountOf(report.issues, {InvalidBar, UnexpectedTimestamp}) + CountOf(report.issues, {Conflict})
  }

  /** Valid candles lie in the requested range, because every expected slot does. */
  lemma ListedValid(rows: seq<RawRow>, request: Request, sessions: seq<Session>)
    ensures var expected := Completions(ExpectedSlots(sessions, request.start, request.end, request.scope.timeframe));
            Listed(ValidCandles(rows, request, expected), request, expected)
  {
    hide ExpectedSlots, Completions, ValidCandles;
    var slots := ExpectedSlots(sessions, request.start, request.end, request.scope.timeframe);
    var expected := Completions(slots);
    ExpectedInside(sessions, request.start, request.end, request.scope.timeframe);
    CompletionsExact(slots);
    ValidAreExpected(rows, request, expected);
    forall c | c in ValidCandles(rows, request, expected)
      ensures request.start <= c.timestamp < request.end
    {
      var i :| 0 <= i < |slots| && slots[i].opening == c.timestamp;
      assert slots[i] in slots;
    }
  }
}
