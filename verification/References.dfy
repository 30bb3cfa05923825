/** The text of a reference, and that the tests on its parts are the tests on its text. */
module References {
  import opened Common
  import opened Texts
  import opened Orders
  import opened Baseline

  function Render(r: Reference): string {
    match r
    case Lifecycle(symbol, cycle, tag, sequence) => symbol + ":" + (Digits(cycle) + ":" + (TagText(tag) + ":" + Digits(sequence)))
    case Text(text) => text
  }

  /** Instrument symbols have letters, digits and a few signs, but no colon. */
  predicate Plain(text: string) { ':' !in text }

  /** text.split(":") */
  function Fields(text: string): (fields: seq<string>)
    ensures fields != []
  {
    if text == "" then [""]
    else
      var rest := Fields(text[1..]);
      if text[0] == ':' then [""] + rest else [[text[0]] + rest[0]] + rest[1..]
  }

  lemma FieldsStep(c: char, text: string)
    ensures Fields([c] + text) ==
            if c == ':' then [""] + Fields(text) else [[c] + Fields(text)[0]] + Fields(text)[1..]
  {
    assert ([c] + text)[1..] == text;
  }

  lemma {:induction false} FieldsJoin(a: string, b: string)
    ensures Fields(a + ":" + b) == Fields(a) + Fields(b)
  {
    hide Fields;
    if a == "" {
      FieldsStep(':', b);
      PlainField("");
      assert "" + ":" + b == [':'] + b;
    } else {
      FieldsJoin(a[1..], b);
      FieldsStep(a[0], a[1..] + ":" + b);
      FieldsStep(a[0], a[1..]);
      assert a == [a[0]] + a[1..];
      assert a + ":" + b == [a[0]] + (a[1..] + ":" + b);
      Regrouped(a[0], Fields(a[1..]), Fields(b));
    }
  }

  lemma Regrouped(c: char, x: seq<string>, y: seq<string>)
    requires x != []
    ensures [""] + (x + y) == ([""] + x) + y
    ensures [[c] + (x + y)[0]] + (x + y)[1..] == ([[c] + x[0]] + x[1..]) + y
  {
    assert (x + y)[1..] == x[1..] + y;
  }

  lemma {:induction false} PlainField(text: string)
    requires Plain(text)
    ensures Fields(text) == [text]
  {
    if text != "" {
      PlainField(text[1..]);
      assert text == [text[0]] + text[1..];
      assert text[0] in text;
    }
  }

  lemma {:induction false} DigitsPlain(n: nat)
    ensures Plain(Digits(n)) && Digits(n) != "" && '0' <= Digits(n)[0] <= '9'
  {
    DigitsRoundTrip(n);
    assert Digits(n)[0] in Digits(n);
  }

  lemma TagsDistinct(a: Tag, b: Tag)
    ensures TagText(a) == TagText(b) <==> a == b
    ensures Plain(TagText(a)) && 'A' <= TagText(a)[0] <= 'Z'
  {
    assert TagText(a)[0] == TagText(b)[0] && TagText(a)[1] == TagText(b)[1] && |TagText(a)| == |TagText(b)| ==> a == b;
  }

  /** A made-up reference has four fields, which are its parts. */
  lemma RenderFields(r: Reference)
    requires r.Lifecycle? && Plain(r.symbol)
    ensures Fields(Render(r)) == [r.symbol, Digits(r.cycle), TagText(r.tag), Digits(r.sequence)]
  {
    DigitsPlain(r.cycle);
    DigitsPlain(r.sequence);
    TagsDistinct(r.tag, r.tag);
    PlainField(r.symbol);
    PlainField(Digits(r.cycle));
    PlainField(TagText(r.tag));
    PlainField(Digits(r.sequence));
    FieldsJoin(TagText(r.tag), Digits(r.sequence));
    FieldsJoin(Digits(r.cycle), TagText(r.tag) + ":" + Digits(r.sequence));
    FieldsJoin(r.symbol, Digits(r.cycle) + ":" + (TagText(r.tag) + ":" + Digits(r.sequence)));
  }

  /** No two references of one run have the same text. */
  lemma RenderInjective(a: Reference, b: Reference)
    requires a.Lifecycle? && Plain(a.symbol) && b.Lifecycle? && Plain(b.symbol)
    ensures Render(a) == Render(b) <==> a == b
    ensures Render(a) != FORCED_EXIT.text
  {
    hide Digits, Render, TagText, Fields;
    RenderFields(a);
    RenderFields(b);
    assert Fields(FORCED_EXIT.text) == [FORCED_EXIT.text] by {
      PlainField(FORCED_EXIT.text);
    }
    if Render(a) == Render(b) {
      var x, y := Fields(Render(a)), Fields(Render(b));
      assert x[0] == y[0] && x[1] == y[1] && x[2] == y[2] && x[3] == y[3];
      DigitsInjective(a.cycle, b.cycle);
      DigitsInjective(a.sequence, b.sequence);
      TagsDistinct(a.tag, b.tag);
    }
  }

  lemma {:induction false} ContainsSplits(text: string, part: string) returns (u: string, v: string)
    requires Contains(text, part)
    ensures text == u + part + v
  {
    if part <= text {
      u, v := "", text[|part|..];
    } else {
      u, v := ContainsSplits(text[1..], part);
      u := [text[0]] + u;
    }
  }

  lemma {:induction false} SplitsContains(u: string, part: string, v: string)
    ensures Contains(u + part + v, part)
  {
    var text := u + part + v;
    if u == "" {
      assert text == part + v;
    } else {
      SplitsContains(u[1..], part, v);
      assert text[1..] == u[1..] + part + v;
    }
  }

  lemma FieldBetween(u: string, field: string, v: string)
    requires Plain(field)
    ensures Fields(u + (":" + field + ":") + v) == Fields(u) + [field] + Fields(v)
  {
    hide Fields, Plain;
    PlainField(field);
    FieldsJoin(field, v);
    FieldsJoin(u, field + ":" + v);
    Enclosed(u, field, v);
    assert Fields(u) + ([field] + Fields(v)) == Fields(u) + [field] + Fields(v);
  }

  lemma Enclosed(u: string, field: string, v: string)
    ensures u + (":" + field + ":") + v == u + ":" + (field + ":" + v)
  {
  }

  /** ":TAG:" occurs in the text of a made-up reference exactly when TAG is its tag. */
  lemma TagTestIsTextTest(r: Reference, tag: Tag)
    requires r.Lifecycle? && Plain(r.symbol)
    ensures Contains(Render(r), ":" + TagText(tag) + ":") <==> HasTag(r, tag)
  {
    hide Fields, Render, TagText, Digits, Contains, Plain;
    if Contains(Render(r), ":" + TagText(tag) + ":") {
      TextTagIsTag(r, tag);
    }
    if HasTag(r, tag) {
      TagIsTextTag(r);
    }
  }

  lemma TextTagIsTag(r: Reference, tag: Tag)
    requires r.Lifecycle? && Plain(r.symbol) && Contains(Render(r), ":" + TagText(tag) + ":")
    ensures r.tag == tag
  {
    hide Fields, Render, TagText, Digits, Contains, Plain;
    TagsDistinct(r.tag, tag);
    TagsDistinct(tag, r.tag);
    var u, v := ContainsSplits(Render(r), ":" + TagText(tag) + ":");
    FieldBetween(u, TagText(tag), v);
    RenderFields(r);
    MiddleField(Fields(u), TagText(tag), Fields(v), Fields(Render(r)));
    DigitsPlain(r.cycle);
    TagAmong(r, tag);
  }

  lemma TagAmong(r: Reference, tag: Tag)
    requires r.Lifecycle? && (TagText(tag) == Digits(r.cycle) || TagText(tag) == TagText(r.tag))
    ensures r.tag == tag
  {
    hide TagText, Digits;
    TagsDistinct(tag, r.tag);
    DigitsPlain(r.cycle);
  }

  lemma MiddleField(before: seq<string>, field: string, after: seq<string>, fields: seq<string>)
    requires fields == before + [field] + after && |fields| == 4 && before != [] && after != []
    ensures field == fields[1] || field == fields[2]
  {
    assert fields[|before|] == field;
  }

  lemma TagIsTextTag(r: Reference)
    requires r.Lifecycle?
    ensures Contains(Render(r), ":" + TagText(r.tag) + ":")
  {
    hide Contains, TagText, Digits;
    SplitsContains(r.symbol + ":" + Digits(r.cycle), ":" + TagText(r.tag) + ":", Digits(r.sequence));
    Unfolded(r.symbol, Digits(r.cycle), TagText(r.tag), Digits(r.sequence));
  }

  lemma Unfolded(a: string, b: string, c: string, d: string)
    ensures a + ":" + (b + ":" + (c + ":" + d)) == (a + ":" + b) + (":" + c + ":") + d
  {
  }

  /** The text starts with "symbol:cycle:" exactly when these are the reference's symbol and cycle. */
  lemma CycleTestIsTextTest(r: Reference, symbol: Symbol, cycle: nat)
    requires r.Lifecycle? && Plain(r.symbol) && Plain(symbol)
    ensures StartsWith(Render(r), symbol + ":" + Digits(cycle) + ":") <==> InCycle(r, symbol, cycle)
  {
    hide Digits, Fields, Render, TagText;
    var prefix := symbol + ":" + Digits(cycle) + ":";
    if StartsWith(Render(r), prefix) {
      var v := Render(r)[|prefix|..];
      DigitsPlain(cycle);
      PlainField(symbol);
      FieldBetween(symbol, Digits(cycle), v);
      assert Render(r) == prefix + v;
      assert prefix + v == symbol + (":" + Digits(cycle) + ":") + v;
      RenderFields(r);
      var fields := Fields(Render(r));
      assert fields == [symbol, Digits(cycle)] + Fields(v);
      assert fields[0] == symbol && fields[1] == Digits(cycle);
      DigitsInjective(r.cycle, cycle);
    }
    if InCycle(r, symbol, cycle) {
      Prefixed(r);
    }
  }

  lemma Prefixed(r: Reference)
    requires r.Lifecycle?
    ensures StartsWith(Render(r), r.symbol + ":" + Digits(r.cycle) + ":")
  {
    assert Render(r) == (r.symbol + ":" + Digits(r.cycle) + ":") + (TagText(r.tag) + ":" + Digits(r.sequence));
  }
}
