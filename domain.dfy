/** The records handed to the UI (SmartTransportation.Domain) and the JSON token
    stream their Write methods emit through an IJsonWriter. */
module Domain {
  import opened Wrappers
  import opened Ids
  import opened Settings

  /** The mod's name, used as a prefix of the type names written to the UI. */
  const ModName: string := "SmartTransportation"

  /** One call on the JSON writer. */
  datatype JsonToken =
    | TypeBegin(typeName: string)
    | TypeEnd
    | PropertyName(name: string)
    | StringValue(s: string)
    | IntValue(i: int)
    | BoolValue(b: bool)
    | ArrayBegin(count: int)
    | ArrayEnd

  /** A value token: the kind written after a property name. */
  predicate IsScalar(t: JsonToken) {
    t.StringValue? || t.IntValue? || t.BoolValue?
  }

  /** The writer, seen as the list of calls made on it. */
  class JsonWriter {
    var tokens: seq<JsonToken>

    constructor ()
      ensures tokens == []
    {
      tokens := [];
    }

    method Emit(t: JsonToken)
      modifies this
      ensures tokens == old(tokens) + [t]
    {
      tokens := tokens + [t];
    }

    /** PropertyName followed by the value's Write. */
    method Property(name: string, value: JsonToken)
      modifies this
      ensures tokens == old(tokens) + [PropertyName(name), value]
    {
      Emit(PropertyName(name));
      Emit(value);
    }
  }

  /** Appending to a writer whose tokens are `start + acc` extends `acc`. */
  lemma AppendStep(start: seq<JsonToken>, acc: seq<JsonToken>, more: seq<JsonToken>, after: seq<JsonToken>)
    requires after == (start + acc) + more
    ensures after == start + (acc + more)
  {
  }

  // ---------------------------------------------------------------------------
  // Token shapes.

  /** Property/value pairs, flattened in order. */
  function Props(ps: seq<(string, JsonToken)>): (ts: seq<JsonToken>)
    ensures |ts| == 2 * |ps|
  {
    if ps == [] then []
    else Props(ps[..|ps| - 1]) + [PropertyName(ps[|ps| - 1].0), ps[|ps| - 1].1]
  }

  /** An object: TypeBegin, the pairs, TypeEnd. */
  function ObjectTokens(typeName: string, ps: seq<(string, JsonToken)>): seq<JsonToken> {
    [TypeBegin(typeName)] + Props(ps) + [TypeEnd]
  }

  /** Number of property names in a token list. */
  function CountNames(ts: seq<JsonToken>): nat {
    if ts == [] then 0
    else CountNames(ts[..|ts| - 1]) + (if ts[|ts| - 1].PropertyName? then 1 else 0)
  }

  lemma {:induction false} CountNamesAppend(a: seq<JsonToken>, b: seq<JsonToken>)
    ensures CountNames(a + b) == CountNames(a) + CountNames(b)
  {
    if b == [] {
      assert a + b == a;
    } else {
      assert (a + b)[..|a + b| - 1] == a + b[..|b| - 1];
      CountNamesAppend(a, b[..|b| - 1]);
    }
  }

  /** Pair i sits at positions 2i and 2i+1 of the flattened pairs. */
  lemma {:induction false} PropsLayout(ps: seq<(string, JsonToken)>)
    ensures forall i :: 0 <= i < |ps| ==> Props(ps)[2 * i] == PropertyName(ps[i].0) && Props(ps)[2 * i + 1] == ps[i].1
  {
    if ps != [] {
      var init := ps[..|ps| - 1];
      PropsLayout(init);
      forall i | 0 <= i < |ps|
        ensures Props(ps)[2 * i] == PropertyName(ps[i].0) && Props(ps)[2 * i + 1] == ps[i].1
      {
        if i < |init| {
          assert ps[i] == init[i];
        }
      }
    }
  }

  /** One more pair adds its name and its value at the end. */
  lemma PropsSnoc(ps: seq<(string, JsonToken)>, k: int)
    requires 0 < k <= |ps|
    ensures Props(ps[..k]) == Props(ps[..k - 1]) + [PropertyName(ps[k - 1].0), ps[k - 1].1]
  {
    assert ps[..k][..k - 1] == ps[..k - 1];
  }

  /** The flattened pairs, read from the front. */
  lemma {:induction false} PropsFront(ps: seq<(string, JsonToken)>)
    requires ps != []
    ensures Props(ps) == [PropertyName(ps[0].0), ps[0].1] + Props(ps[1..])
  {
    if |ps| > 1 {
      var init := ps[..|ps| - 1];
      PropsFront(init);
      assert init[1..] == ps[1..][..|ps[1..]| - 1];
    }
  }

  /** With scalar values, the flattened pairs hold exactly one name per pair. */
  lemma {:induction false} PropsCountNames(ps: seq<(string, JsonToken)>)
    requires forall i :: 0 <= i < |ps| ==> IsScalar(ps[i].1)
    ensures CountNames(Props(ps)) == |ps|
  {
    if ps != [] {
      var init := ps[..|ps| - 1];
      PropsCountNames(init);
      var last := [PropertyName(ps[|ps| - 1].0), ps[|ps| - 1].1];
      assert Props(ps) == Props(init) + last;
      CountNamesAppend(Props(init), last);
      assert CountNames(last) == CountNames(last[..1]) + CountNames([ps[|ps| - 1].1]) by { CountNamesAppend(last[..1], [ps[|ps| - 1].1]); assert last == last[..1] + [ps[|ps| - 1].1]; }
      assert last[..1] == [PropertyName(ps[|ps| - 1].0)];
      assert [PropertyName(ps[|ps| - 1].0)][..0] == [];
    }
  }

  /** An object written from scalar pairs holds one property name per pair. */
  lemma ObjectCountNames(typeName: string, ps: seq<(string, JsonToken)>)
    requires forall i :: 0 <= i < |ps| ==> IsScalar(ps[i].1)
    ensures CountNames(ObjectTokens(typeName, ps)) == |ps|
  {
    PropsCountNames(ps);
    CountNamesAppend([TypeBegin(typeName)], Props(ps));
    CountNamesAppend([TypeBegin(typeName)] + Props(ps), [TypeEnd]);
    assert [TypeBegin(typeName)][..0] == [];
    assert [TypeEnd][..0] == [];
  }

  /** An object written from scalar pairs opens with TypeBegin, closes with TypeEnd,
      holds pair i at positions 2i+1 and 2i+2, and contains one name per pair. */
  lemma ObjectShape(typeName: string, ps: seq<(string, JsonToken)>)
    requires forall i :: 0 <= i < |ps| ==> IsScalar(ps[i].1)
    ensures var ts := ObjectTokens(typeName, ps);
      && |ts| == 2 * |ps| + 2
      && ts[0] == TypeBegin(typeName) && ts[|ts| - 1] == TypeEnd
      && (forall i :: 0 <= i < |ps| ==> ts[2 * i + 1] == PropertyName(ps[i].0) && ts[2 * i + 2] == ps[i].1)
      && CountNames(ts) == |ps|
  {
    var ts := ObjectTokens(typeName, ps);
    PropsLayout(ps);
    ObjectCountNames(typeName, ps);
    forall i | 0 <= i < |ps| ensures ts[2 * i + 1] == PropertyName(ps[i].0) && ts[2 * i + 2] == ps[i].1 {
      assert ts[2 * i + 1] == Props(ps)[2 * i];
      assert ts[2 * i + 2] == Props(ps)[2 * i + 1];
    }
  }

  /** Element token lists, concatenated in order. */
  function Concat(elems: seq<seq<JsonToken>>): seq<JsonToken> {
    if elems == [] then [] else Concat(elems[..|elems| - 1]) + elems[|elems| - 1]
  }

  /** Writing element i after the first i elements leaves the first i + 1 written. */
  lemma ConcatStep(begun: seq<JsonToken>, es: seq<seq<JsonToken>>, i: int, after: seq<JsonToken>)
    requires 0 <= i < |es|
    requires after == (begun + Concat(es[..i])) + es[i]
    ensures after == begun + Concat(es[..i + 1])
  {
    assert es[..i + 1][..i] == es[..i];
  }

  /** Closing an array whose elements followed its ArrayBegin gives the whole array. */
  lemma ArrayClose(before: seq<JsonToken>, es: seq<seq<JsonToken>>, begun: seq<JsonToken>, after: seq<JsonToken>)
    requires begun == before + [ArrayBegin(|es|)]
    requires after == (begun + Concat(es)) + [ArrayEnd]
    ensures after == before + ArrayTokens(es)
  {
    ConcatAssoc(before, [ArrayBegin(|es|)], Concat(es));
    ConcatAssoc(before, [ArrayBegin(|es|)] + Concat(es), [ArrayEnd]);
  }

  /** An array: ArrayBegin carrying the count, the elements, ArrayEnd. */
  function ArrayTokens(elems: seq<seq<JsonToken>>): (ts: seq<JsonToken>)
    ensures |ts| >= 2 && ts[0] == ArrayBegin(|elems|) && ts[|ts| - 1] == ArrayEnd
  {
    [ArrayBegin(|elems|)] + Concat(elems) + [ArrayEnd]
  }

  /** Number of objects opened in a token list. */
  function CountObjects(ts: seq<JsonToken>): nat {
    if ts == [] then 0
    else CountObjects(ts[..|ts| - 1]) + (if ts[|ts| - 1].TypeBegin? then 1 else 0)
  }

  lemma {:induction false} CountObjectsAppend(a: seq<JsonToken>, b: seq<JsonToken>)
    ensures CountObjects(a + b) == CountObjects(a) + CountObjects(b)
  {
    if b == [] {
      assert a + b == a;
    } else {
      assert (a + b)[..|a + b| - 1] == a + b[..|b| - 1];
      CountObjectsAppend(a, b[..|b| - 1]);
    }
  }

  /** When every element is one object, an array holds exactly one object per
      element; an empty array is just ArrayBegin(0), ArrayEnd. */
  lemma {:induction false} ArrayObjects(elems: seq<seq<JsonToken>>)
    requires forall i :: 0 <= i < |elems| ==> CountObjects(elems[i]) == 1
    ensures CountObjects(ArrayTokens(elems)) == |elems|
    ensures elems == [] ==> ArrayTokens(elems) == [ArrayBegin(0), ArrayEnd]
  {
    ConcatObjects(elems);
    CountObjectsAppend([ArrayBegin(|elems|)], Concat(elems));
    CountObjectsAppend([ArrayBegin(|elems|)] + Concat(elems), [ArrayEnd]);
    assert [ArrayBegin(|elems|)][..0] == [];
    assert [ArrayEnd][..0] == [];
  }

  lemma {:induction false} ConcatObjects(elems: seq<seq<JsonToken>>)
    requires forall i :: 0 <= i < |elems| ==> CountObjects(elems[i]) == 1
    ensures CountObjects(Concat(elems)) == |elems|
  {
    if elems != [] {
      ConcatObjects(elems[..|elems| - 1]);
      CountObjectsAppend(Concat(elems[..|elems| - 1]), elems[|elems| - 1]);
    }
  }

  /** An object of scalar pairs opens exactly one object. */
  lemma ObjectCountsOne(typeName: string, ps: seq<(string, JsonToken)>)
    requires forall i :: 0 <= i < |ps| ==> IsScalar(ps[i].1)
    ensures CountObjects(ObjectTokens(typeName, ps)) == 1
  {
    PropsNoObjects(ps);
    CountObjectsAppend([TypeBegin(typeName)], Props(ps));
    CountObjectsAppend([TypeBegin(typeName)] + Props(ps), [TypeEnd]);
    assert [TypeBegin(typeName)][..0] == [];
    assert [TypeEnd][..0] == [];
  }

  lemma {:induction false} PropsNoObjects(ps: seq<(string, JsonToken)>)
    requires forall i :: 0 <= i < |ps| ==> IsScalar(ps[i].1)
    ensures CountObjects(Props(ps)) == 0
  {
    if ps != [] {
      var init := ps[..|ps| - 1];
      PropsNoObjects(init);
      var last := [PropertyName(ps[|ps| - 1].0), ps[|ps| - 1].1];
      assert Props(ps) == Props(init) + last;
      CountObjectsAppend(Props(init), last);
      assert CountObjects(last) == CountObjects(last[..1]) + CountObjects([ps[|ps| - 1].1]) by { CountObjectsAppend(last[..1], [ps[|ps| - 1].1]); assert last == last[..1] + [ps[|ps| - 1].1]; }
      assert last[..1] == [PropertyName(ps[|ps| - 1].0)];
      assert [PropertyName(ps[|ps| - 1].0)][..0] == [];
    }
  }

  // ---------------------------------------------------------------------------
  // CustomRule / CustomRules.

  /** GetType().FullName of the UI record. */
  const CustomRuleTypeName: string := "SmartTransportation.Domain.CustomRule"

  /** The UI view of a custom rule; every property is get-only. */
  class CustomRule {
    const ruleId: Hash128
    const ruleName: string
    const occupancy: int
    const stdTicket: int
    const maxTicketInc: int
    const maxTicketDec: int
    const maxVehAdj: int
    const minVehAdj: int

    constructor (ruleId: Hash128, ruleName: string, occupancy: int, stdTicket: int,
                 maxTicketInc: int, maxTicketDec: int, maxVehAdj: int, minVehAdj: int)
      ensures this.ruleId == ruleId && this.ruleName == ruleName && this.occupancy == occupancy
      ensures this.stdTicket == stdTicket && this.maxTicketInc == maxTicketInc
      ensures this.maxTicketDec == maxTicketDec && this.maxVehAdj == maxVehAdj && this.minVehAdj == minVehAdj
    {
      this.ruleId, this.ruleName, this.occupancy, this.stdTicket := ruleId, ruleName, occupancy, stdTicket;
      this.maxTicketInc, this.maxTicketDec, this.maxVehAdj, this.minVehAdj := maxTicketInc, maxTicketDec, maxVehAdj, minVehAdj;
    }

    /** The pairs Write emits, in order; the id as its text form. */
    function Pairs(): seq<(string, JsonToken)> {
      [("ruleId", StringValue(ToText(ruleId))), ("ruleName", StringValue(ruleName)),
       ("occupancy", IntValue(occupancy)), ("stdTicket", IntValue(stdTicket)),
       ("maxTicketInc", IntValue(maxTicketInc)), ("maxTicketDec", IntValue(maxTicketDec)),
       ("maxVehAdj", IntValue(maxVehAdj)), ("minVehAdj", IntValue(minVehAdj))]
    }

    /** The calls Write makes, in order. */
    function Tokens(): seq<JsonToken>
    {
      [TypeBegin(CustomRuleTypeName)]
      + [PropertyName("ruleId"), StringValue(ToText(ruleId))]
      + [PropertyName("ruleName"), StringValue(ruleName)]
      + [PropertyName("occupancy"), IntValue(occupancy)]
      + [PropertyName("stdTicket"), IntValue(stdTicket)]
      + [PropertyName("maxTicketInc"), IntValue(maxTicketInc)]
      + [PropertyName("maxTicketDec"), IntValue(maxTicketDec)]
      + [PropertyName("maxVehAdj"), IntValue(maxVehAdj)]
      + [PropertyName("minVehAdj"), IntValue(minVehAdj)]
      + [TypeEnd]
    }

    /** Write: the rule as one object of eight properties. */
    method Write(writer: JsonWriter)
      modifies writer
      ensures writer.tokens == old(writer.tokens) + Tokens()
    {
      ghost var start := writer.tokens;
      writer.Emit(TypeBegin(CustomRuleTypeName));
      ghost var acc := [TypeBegin(CustomRuleTypeName)];
      writer.Property("ruleId", StringValue(ToText(ruleId)));
      AppendStep(start, acc, [PropertyName("ruleId"), StringValue(ToText(ruleId))], writer.tokens);
      acc := acc + [PropertyName("ruleId"), StringValue(ToText(ruleId))];
      writer.Property("ruleName", StringValue(ruleName));
      AppendStep(start, acc, [PropertyName("ruleName"), StringValue(ruleName)], writer.tokens);
      acc := acc + [PropertyName("ruleName"), StringValue(ruleName)];
      writer.Property("occupancy", IntValue(occupancy));
      AppendStep(start, acc, [PropertyName("occupancy"), IntValue(occupancy)], writer.tokens);
      acc := acc + [PropertyName("occupancy"), IntValue(occupancy)];
      writer.Property("stdTicket", IntValue(stdTicket));
      AppendStep(start, acc, [PropertyName("stdTicket"), IntValue(stdTicket)], writer.tokens);
      acc := acc + [PropertyName("stdTicket"), IntValue(stdTicket)];
      writer.Property("maxTicketInc", IntValue(maxTicketInc));
      AppendStep(start, acc, [PropertyName("maxTicketInc"), IntValue(maxTicketInc)], writer.tokens);
      acc := acc + [PropertyName("maxTicketInc"), IntValue(maxTicketInc)];
      writer.Property("maxTicketDec", IntValue(maxTicketDec));
      AppendStep(start, acc, [PropertyName("maxTicketDec"), IntValue(maxTicketDec)], writer.tokens);
      acc := acc + [PropertyName("maxTicketDec"), IntValue(maxTicketDec)];
      writer.Property("maxVehAdj", IntValue(maxVehAdj));
      AppendStep(start, acc, [PropertyName("maxVehAdj"), IntValue(maxVehAdj)], writer.tokens);
      acc := acc + [PropertyName("maxVehAdj"), IntValue(maxVehAdj)];
      writer.Property("minVehAdj", IntValue(minVehAdj));
      AppendStep(start, acc, [PropertyName("minVehAdj"), IntValue(minVehAdj)], writer.tokens);
      acc := acc + [PropertyName("minVehAdj"), IntValue(minVehAdj)];
      writer.Emit(TypeEnd);
      AppendStep(start, acc, [TypeEnd], writer.tokens);
    }
  }

  /** CustomRule's tokens are the object of its property pairs. */
  lemma CustomRuleIsObject(r: CustomRule)
    ensures r.Tokens() == ObjectTokens(CustomRuleTypeName, r.Pairs())
  {
    var ps := r.Pairs();
    assert ps[..0] == [];
    assert [TypeBegin(CustomRuleTypeName)] + Props(ps[..0]) == [TypeBegin(CustomRuleTypeName)];
    PropsSnoc(ps, 1);
    ConcatAssoc([TypeBegin(CustomRuleTypeName)], Props(ps[..0]), [PropertyName(ps[0].0), ps[0].1]);
    PropsSnoc(ps, 2);
    ConcatAssoc([TypeBegin(CustomRuleTypeName)], Props(ps[..1]), [PropertyName(ps[1].0), ps[1].1]);
    PropsSnoc(ps, 3);
    ConcatAssoc([TypeBegin(CustomRuleTypeName)], Props(ps[..2]), [PropertyName(ps[2].0), ps[2].1]);
    PropsSnoc(ps, 4);
    ConcatAssoc([TypeBegin(CustomRuleTypeName)], Props(ps[..3]), [PropertyName(ps[3].0), ps[3].1]);
    PropsSnoc(ps, 5);
    ConcatAssoc([TypeBegin(CustomRuleTypeName)], Props(ps[..4]), [PropertyName(ps[4].0), ps[4].1]);
    PropsSnoc(ps, 6);
    ConcatAssoc([TypeBegin(CustomRuleTypeName)], Props(ps[..5]), [PropertyName(ps[5].0), ps[5].1]);
    PropsSnoc(ps, 7);
    ConcatAssoc([TypeBegin(CustomRuleTypeName)], Props(ps[..6]), [PropertyName(ps[6].0), ps[6].1]);
    PropsSnoc(ps, 8);
    ConcatAssoc([TypeBegin(CustomRuleTypeName)], Props(ps[..7]), [PropertyName(ps[7].0), ps[7].1]);
    assert ps[..8] == ps;
  }

  /** What a CustomRule's Write emits: 18 tokens bracketed by TypeBegin/TypeEnd,
      exactly eight property names in the fixed order, the id as its text form. */
  lemma CustomRuleTokensShape(r: CustomRule)
    ensures var ts := r.Tokens();
      && |ts| == 18 && ts[0] == TypeBegin(CustomRuleTypeName) && ts[17] == TypeEnd
      && CountNames(ts) == 8 && CountObjects(ts) == 1
      && ts[1] == PropertyName("ruleId") && ts[3] == PropertyName("ruleName")
      && ts[5] == PropertyName("occupancy") && ts[7] == PropertyName("stdTicket")
      && ts[9] == PropertyName("maxTicketInc") && ts[11] == PropertyName("maxTicketDec")
      && ts[13] == PropertyName("maxVehAdj") && ts[15] == PropertyName("minVehAdj")
      && ts[2] == StringValue(ToText(r.ruleId))
  {
    var ps := r.Pairs();
    ObjectCountNames(CustomRuleTypeName, ps);
    ObjectCountsOne(CustomRuleTypeName, ps);
    CustomRuleIsObject(r);
  }

  /** The list of rules the UI shows. */
  class CustomRules {
    var items: seq<CustomRule>

    constructor ()
      ensures items == []
    {
      items := [];
    }

    /** The element token lists of the current items. */
    function ElementTokens(): (es: seq<seq<JsonToken>>)
      reads this
      ensures |es| == |items| && forall i :: 0 <= i < |items| ==> es[i] == items[i].Tokens()
    {
      seq(|items|, i requires 0 <= i < |items| reads this => items[i].Tokens())
    }

    /** Write: an array of the rules, each written once, in list order. */
    method Write(writer: JsonWriter)
      modifies writer
      ensures writer.tokens == old(writer.tokens) + ArrayTokens(ElementTokens())
    {
      ghost var es := ElementTokens();
      writer.Emit(ArrayBegin(|items|));
      ghost var begun := writer.tokens;
      var i := 0;
      while i < |items|
        invariant 0 <= i <= |items|
        invariant writer.tokens == begun + Concat(es[..i])
      {
        items[i].Write(writer);
        ConcatStep(begun, es, i, writer.tokens);
        i := i + 1;
      }
      assert es[..i] == es;
      writer.Emit(ArrayEnd);
      ArrayClose(old(writer.tokens), es, begun, writer.tokens);
      assert ElementTokens() == es;
    }
  }

  /** A rule list writes ArrayBegin with its count, exactly one object per rule and
      ArrayEnd; an empty list writes only ArrayBegin(0), ArrayEnd. */
  lemma CustomRulesWriteShape(rs: CustomRules)
    ensures var ts := ArrayTokens(rs.ElementTokens());
      && ts[0] == ArrayBegin(|rs.items|) && ts[|ts| - 1] == ArrayEnd
      && CountObjects(ts) == |rs.items|
      && (rs.items == [] ==> ts == [ArrayBegin(0), ArrayEnd])
  {
    var es := rs.ElementTokens();
    forall i | 0 <= i < |es| ensures CountObjects(es[i]) == 1 {
      CustomRuleIsObject(rs.items[i]);
      ObjectCountsOne(CustomRuleTypeName, rs.items[i].Pairs());
    }
    ArrayObjects(es);
  }

  // ---------------------------------------------------------------------------
  // RouteInfo / RouteInfos.

  const RouteInfoTypeName: string := ModName + ".RouteInfo"

  /** One route as shown in the routes panel; every property is settable. */
  class RouteInfo {
    var routeNumber: int
    var routeName: string
    var transportType: string
    var ruleName: string
    var ruleId: Hash128

    constructor (routeNumber: int, routeName: string, transportType: string, ruleName: string, ruleId: Hash128)
      ensures this.routeNumber == routeNumber && this.routeName == routeName
      ensures this.transportType == transportType && this.ruleName == ruleName && this.ruleId == ruleId
    {
      this.routeNumber, this.routeName, this.transportType := routeNumber, routeName, transportType;
      this.ruleName, this.ruleId := ruleName, ruleId;
    }

    function Pairs(): seq<(string, JsonToken)>
      reads this
    {
      [("routeNumber", IntValue(routeNumber)), ("routeName", StringValue(routeName)),
       ("transportType", StringValue(transportType)), ("ruleName", StringValue(ruleName)),
       ("ruleId", StringValue(ToText(ruleId)))]
    }

    /** The calls Write makes, in order. */
    function Tokens(): seq<JsonToken>
      reads this
    {
      [TypeBegin(RouteInfoTypeName)]
      + [PropertyName("routeNumber"), IntValue(routeNumber)]
      + [PropertyName("routeName"), StringValue(routeName)]
      + [PropertyName("transportType"), StringValue(transportType)]
      + [PropertyName("ruleName"), StringValue(ruleName)]
      + [PropertyName("ruleId"), StringValue(ToText(ruleId))]
      + [TypeEnd]
    }

    /** Write: the route as one object of five properties. */
    method Write(writer: JsonWriter)
      modifies writer
      ensures writer.tokens == old(writer.tokens) + Tokens()
    {
      ghost var start := writer.tokens;
      writer.Emit(TypeBegin(RouteInfoTypeName));
      ghost var acc := [TypeBegin(RouteInfoTypeName)];
      writer.Property("routeNumber", IntValue(routeNumber));
      AppendStep(start, acc, [PropertyName("routeNumber"), IntValue(routeNumber)], writer.tokens);
      acc := acc + [PropertyName("routeNumber"), IntValue(routeNumber)];
      writer.Property("routeName", StringValue(routeName));
      AppendStep(start, acc, [PropertyName("routeName"), StringValue(routeName)], writer.tokens);
      acc := acc + [PropertyName("routeName"), StringValue(routeName)];
      writer.Property("transportType", StringValue(transportType));
      AppendStep(start, acc, [PropertyName("transportType"), StringValue(transportType)], writer.tokens);
      acc := acc + [PropertyName("transportType"), StringValue(transportType)];
      writer.Property("ruleName", StringValue(ruleName));
      AppendStep(start, acc, [PropertyName("ruleName"), StringValue(ruleName)], writer.tokens);
      acc := acc + [PropertyName("ruleName"), StringValue(ruleName)];
      writer.Property("ruleId", StringValue(ToText(ruleId)));
      AppendStep(start, acc, [PropertyName("ruleId"), StringValue(ToText(ruleId))], writer.tokens);
      acc := acc + [PropertyName("ruleId"), StringValue(ToText(ruleId))];
      writer.Emit(TypeEnd);
      AppendStep(start, acc, [TypeEnd], writer.tokens);
    }
  }

  /** RouteInfo's tokens are the object of its property pairs. */
  lemma RouteInfoIsObject(r: RouteInfo)
    ensures r.Tokens() == ObjectTokens(RouteInfoTypeName, r.Pairs())
  {
    var ps := r.Pairs();
    assert ps[..0] == [];
    assert [TypeBegin(RouteInfoTypeName)] + Props(ps[..0]) == [TypeBegin(RouteInfoTypeName)];
    PropsSnoc(ps, 1);
    ConcatAssoc([TypeBegin(RouteInfoTypeName)], Props(ps[..0]), [PropertyName(ps[0].0), ps[0].1]);
    PropsSnoc(ps, 2);
    ConcatAssoc([TypeBegin(RouteInfoTypeName)], Props(ps[..1]), [PropertyName(ps[1].0), ps[1].1]);
    PropsSnoc(ps, 3);
    ConcatAssoc([TypeBegin(RouteInfoTypeName)], Props(ps[..2]), [PropertyName(ps[2].0), ps[2].1]);
    PropsSnoc(ps, 4);
    ConcatAssoc([TypeBegin(RouteInfoTypeName)], Props(ps[..3]), [PropertyName(ps[3].0), ps[3].1]);
    PropsSnoc(ps, 5);
    ConcatAssoc([TypeBegin(RouteInfoTypeName)], Props(ps[..4]), [PropertyName(ps[4].0), ps[4].1]);
    assert ps[..5] == ps;
  }

  /** What a RouteInfo's Write emits: 12 tokens bracketed by TypeBegin/TypeEnd, the
      five property names in the fixed order, the id as its text form. */
  lemma RouteInfoTokensShape(r: RouteInfo)
    ensures var ts := r.Tokens();
      && |ts| == 12 && ts[0] == TypeBegin(RouteInfoTypeName) && ts[11] == TypeEnd
      && CountNames(ts) == 5 && CountObjects(ts) == 1
      && ts[1] == PropertyName("routeNumber") && ts[2] == IntValue(r.routeNumber)
      && ts[3] == PropertyName("routeName") && ts[5] == PropertyName("transportType")
      && ts[7] == PropertyName("ruleName") && ts[9] == PropertyName("ruleId")
      && ts[10] == StringValue(ToText(r.ruleId))
  {
    var ps := r.Pairs();
    ObjectCountNames(RouteInfoTypeName, ps);
    ObjectCountsOne(RouteInfoTypeName, ps);
    RouteInfoIsObject(r);
  }

  /** The list of routes the UI shows. */
  class RouteInfos {
    var items: seq<RouteInfo>

    constructor ()
      ensures items == []
    {
      items := [];
    }

    function ElementTokens(): (es: seq<seq<JsonToken>>)
      reads this, set r | r in items
      ensures |es| == |items| && forall i :: 0 <= i < |items| ==> es[i] == items[i].Tokens()
    {
      seq(|items|, i requires 0 <= i < |items| reads this, set r | r in items => items[i].Tokens())
    }

    /** Write: an array of the routes, each written once, in list order. */
    method Write(writer: JsonWriter)
      modifies writer
      ensures writer.tokens == old(writer.tokens) + ArrayTokens(ElementTokens())
    {
      ghost var es := ElementTokens();
      writer.Emit(ArrayBegin(|items|));
      ghost var begun := writer.tokens;
      var i := 0;
      while i < |items|
        invariant 0 <= i <= |items|
        invariant writer.tokens == begun + Concat(es[..i])
      {
        items[i].Write(writer);
        ConcatStep(begun, es, i, writer.tokens);
        i := i + 1;
      }
      assert es[..i] == es;
      writer.Emit(ArrayEnd);
      ArrayClose(old(writer.tokens), es, begun, writer.tokens);
      assert ElementTokens() == es;
    }
  }

  /** A route list writes ArrayBegin with its count, exactly one object per route and
      ArrayEnd; an empty list writes only ArrayBegin(0), ArrayEnd. */
  lemma RouteInfosWriteShape(rs: RouteInfos)
    ensures var ts := ArrayTokens(rs.ElementTokens());
      && ts[0] == ArrayBegin(|rs.items|) && ts[|ts| - 1] == ArrayEnd
      && CountObjects(ts) == |rs.items|
      && (rs.items == [] ==> ts == [ArrayBegin(0), ArrayEnd])
  {
    var es := rs.ElementTokens();
    forall i | 0 <= i < |es| ensures CountObjects(es[i]) == 1 {
      RouteInfoIsObject(rs.items[i]);
      ObjectCountsOne(RouteInfoTypeName, rs.items[i].Pairs());
    }
    ArrayObjects(es);
  }

  // ---------------------------------------------------------------------------
  // DisabledTransportTypes.

  const DisabledTypesTypeName: string := ModName + ".DisabledTransportTypes"

  /** The seven disable toggles as sent to the UI. */
  class DisabledTransportTypes {
    var bus: bool
    var tram: bool
    var subway: bool
    var train: bool
    var ship: bool
    var airplane: bool
    var ferry: bool

    constructor ()
      ensures !bus && !tram && !subway && !train && !ship && !airplane && !ferry
    {
      bus, tram, subway, train, ship, airplane, ferry := false, false, false, false, false, false, false;
    }

    /** FromSettings: a new object whose every flag equals the matching toggle. */
    static method FromSettings(settings: SettingsState) returns (d: DisabledTransportTypes)
      ensures fresh(d)
      ensures d.bus == settings.bus.disabled && d.tram == settings.tram.disabled
      ensures d.subway == settings.subway.disabled && d.train == settings.train.disabled
      ensures d.ship == settings.ship.disabled && d.airplane == settings.airplane.disabled
      ensures d.ferry == settings.ferry.disabled
    {
      d := new DisabledTransportTypes();
      d.bus := settings.bus.disabled;
      d.tram := settings.tram.disabled;
      d.subway := settings.subway.disabled;
      d.train := settings.train.disabled;
      d.ship := settings.ship.disabled;
      d.airplane := settings.airplane.disabled;
      d.ferry := settings.ferry.disabled;
    }

    function Pairs(): seq<(string, JsonToken)>
      reads this
    {
      [("Bus", BoolValue(bus)), ("Tram", BoolValue(tram)), ("Subway", BoolValue(subway)),
       ("Train", BoolValue(train)), ("Ship", BoolValue(ship)), ("Airplane", BoolValue(airplane)),
       ("Ferry", BoolValue(ferry))]
    }

    /** The calls Write makes, in order. */
    function Tokens(): seq<JsonToken>
      reads this
    {
      [TypeBegin(DisabledTypesTypeName)]
      + [PropertyName("Bus"), BoolValue(bus)]
      + [PropertyName("Tram"), BoolValue(tram)]
      + [PropertyName("Subway"), BoolValue(subway)]
      + [PropertyName("Train"), BoolValue(train)]
      + [PropertyName("Ship"), BoolValue(ship)]
      + [PropertyName("Airplane"), BoolValue(airplane)]
      + [PropertyName("Ferry"), BoolValue(ferry)]
      + [TypeEnd]
    }

    /** Write: the seven flags as one object, Bus to Ferry. */
    method Write(writer: JsonWriter)
      modifies writer
      ensures writer.tokens == old(writer.tokens) + Tokens()
    {
      ghost var start := writer.tokens;
      writer.Emit(TypeBegin(DisabledTypesTypeName));
      ghost var acc := [TypeBegin(DisabledTypesTypeName)];
      writer.Property("Bus", BoolValue(bus));
      AppendStep(start, acc, [PropertyName("Bus"), BoolValue(bus)], writer.tokens);
      acc := acc + [PropertyName("Bus"), BoolValue(bus)];
      writer.Property("Tram", BoolValue(tram));
      AppendStep(start, acc, [PropertyName("Tram"), BoolValue(tram)], writer.tokens);
      acc := acc + [PropertyName("Tram"), BoolValue(tram)];
      writer.Property("Subway", BoolValue(subway));
      AppendStep(start, acc, [PropertyName("Subway"), BoolValue(subway)], writer.tokens);
      acc := acc + [PropertyName("Subway"), BoolValue(subway)];
      writer.Property("Train", BoolValue(train));
      AppendStep(start, acc, [PropertyName("Train"), BoolValue(train)], writer.tokens);
      acc := acc + [PropertyName("Train"), BoolValue(train)];
      writer.Property("Ship", BoolValue(ship));
      AppendStep(start, acc, [PropertyName("Ship"), BoolValue(ship)], writer.tokens);
      acc := acc + [PropertyName("Ship"), BoolValue(ship)];
      writer.Property("Airplane", BoolValue(airplane));
      AppendStep(start, acc, [PropertyName("Airplane"), BoolValue(airplane)], writer.tokens);
      acc := acc + [PropertyName("Airplane"), BoolValue(airplane)];
      writer.Property("Ferry", BoolValue(ferry));
      AppendStep(start, acc, [PropertyName("Ferry"), BoolValue(ferry)], writer.tokens);
      acc := acc + [PropertyName("Ferry"), BoolValue(ferry)];
      writer.Emit(TypeEnd);
      AppendStep(start, acc, [TypeEnd], writer.tokens);
    }
  }

  /** DisabledTransportTypes's tokens are the object of its property pairs. */
  lemma DisabledTransportTypesIsObject(d: DisabledTransportTypes)
    ensures d.Tokens() == ObjectTokens(DisabledTypesTypeName, d.Pairs())
  {
    var ps := d.Pairs();
    assert ps[..0] == [];
    assert [TypeBegin(DisabledTypesTypeName)] + Props(ps[..0]) == [TypeBegin(DisabledTypesTypeName)];
    PropsSnoc(ps, 1);
    ConcatAssoc([TypeBegin(DisabledTypesTypeName)], Props(ps[..0]), [PropertyName(ps[0].0), ps[0].1]);
    PropsSnoc(ps, 2);
    ConcatAssoc([TypeBegin(DisabledTypesTypeName)], Props(ps[..1]), [PropertyName(ps[1].0), ps[1].1]);
    PropsSnoc(ps, 3);
    ConcatAssoc([TypeBegin(DisabledTypesTypeName)], Props(ps[..2]), [PropertyName(ps[2].0), ps[2].1]);
    PropsSnoc(ps, 4);
    ConcatAssoc([TypeBegin(DisabledTypesTypeName)], Props(ps[..3]), [PropertyName(ps[3].0), ps[3].1]);
    PropsSnoc(ps, 5);
    ConcatAssoc([TypeBegin(DisabledTypesTypeName)], Props(ps[..4]), [PropertyName(ps[4].0), ps[4].1]);
    PropsSnoc(ps, 6);
    ConcatAssoc([TypeBegin(DisabledTypesTypeName)], Props(ps[..5]), [PropertyName(ps[5].0), ps[5].1]);
    PropsSnoc(ps, 7);
    ConcatAssoc([TypeBegin(DisabledTypesTypeName)], Props(ps[..6]), [PropertyName(ps[6].0), ps[6].1]);
    assert ps[..7] == ps;
  }

  /** The flags of a settings snapshot, written: exactly seven properties, each value
      the matching toggle, bracketed by TypeBegin/TypeEnd. */
  lemma DisabledTypesTokensShape(d: DisabledTransportTypes)
    ensures var ts := d.Tokens();
      && |ts| == 16 && ts[0] == TypeBegin(DisabledTypesTypeName) && ts[15] == TypeEnd
      && CountNames(ts) == 7
      && ts[1] == PropertyName("Bus") && ts[2] == BoolValue(d.bus)
      && ts[3] == PropertyName("Tram") && ts[4] == BoolValue(d.tram)
      && ts[5] == PropertyName("Subway") && ts[6] == BoolValue(d.subway)
      && ts[7] == PropertyName("Train") && ts[8] == BoolValue(d.train)
      && ts[9] == PropertyName("Ship") && ts[10] == BoolValue(d.ship)
      && ts[11] == PropertyName("Airplane") && ts[12] == BoolValue(d.airplane)
      && ts[13] == PropertyName("Ferry") && ts[14] == BoolValue(d.ferry)
  {
    var ps := d.Pairs();
    ObjectCountNames(DisabledTypesTypeName, ps);
    DisabledTransportTypesIsObject(d);
  }
}
