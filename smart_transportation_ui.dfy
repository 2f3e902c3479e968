/** SmartTransportationUISystem: the JSON the React panels read (the routes list
    built by hand, the custom rules list) and the two triggers they call. */
module SmartTransportationUI {
  import opened Wrappers
  import opened Ids
  import opened Text
  import opened Components
  import opened ManageRoute
  import opened Bridge
  import opened JsonText

  // ---------------------------------------------------------------------------
  // JsonEscape.

  /** JsonEscape: "" for a null or empty value, otherwise every character escaped,
      in order. */
  method JsonEscape(value: Option<string>) returns (r: string)
    ensures r == Escaped(OrEmpty(value))
    ensures IsNullOrEmpty(value) ==> r == ""
  {
    if IsNullOrEmpty(value) {
      return "";
    }
    var s := value.value;
    var sb := "";
    for i := 0 to |s|
      invariant sb == Escaped(s[..i])
    {
      var c := s[i];
      if c == '\\' {
        sb := sb + "\\\\";
      } else if c == '"' {
        sb := sb + "\\\"";
      } else if c == '\U{0008}' {
        sb := sb + "\\b";
      } else if c == '\U{000C}' {
        sb := sb + "\\f";
      } else if c == '\n' {
        sb := sb + "\\n";
      } else if c == '\r' {
        sb := sb + "\\r";
      } else if c == '\t' {
        sb := sb + "\\t";
      } else if c < ' ' {
        sb := sb + "\\u" + Hex(c as int, 4);
      } else {
        sb := sb + [c];
      }
      assert s[..i + 1][..i] == s[..i];
    }
    assert s[..|s|] == s;
    r := sb;
  }

  // ---------------------------------------------------------------------------
  // GetRoutesJson.

  /** The text of the k-th Append call that writes one route object; null strings
      are written as "". */
  function Piece(r: RouteForUI, k: nat): string {
    match k
    case 0 => "{"
    case 1 => "\"routeNumber\":"
    case 2 => IntToString(r.routeNumber)
    case 3 => ","
    case 4 => "\"routeName\":\""
    case 5 => Escaped(OrEmpty(r.routeName))
    case 6 => "\","
    case 7 => "\"transportType\":\""
    case 8 => Escaped(OrEmpty(r.transportType))
    case 9 => "\","
    case 10 => "\"ruleName\":\""
    case 11 => Escaped(OrEmpty(r.ruleName))
    case 12 => "\","
    case 13 => "\"ruleId\":\""
    case 14 => ToText(r.ruleId)
    case 15 => "\""
    case _ => "}"
  }

  /** Number of Append calls per route object. */
  const PieceCount: nat := 17

  /** The text of the first k Append calls. */
  function Pieces(r: RouteForUI, k: nat): string {
    if k == 0 then "" else Pieces(r, k - 1) + Piece(r, k - 1)
  }

  /** The object written for one route. */
  function RouteObject(r: RouteForUI): string {
    Pieces(r, PieceCount)
  }

  /** The objects of the routes, in order, separated by commas. */
  function RouteObjects(rs: seq<RouteForUI>): string {
    if rs == [] then ""
    else RouteObjects(rs[..|rs| - 1]) + (if |rs| > 1 then "," else "") + RouteObject(rs[|rs| - 1])
  }

  /** The routes array: "[]" when there are no routes. */
  function RoutesJson(rs: seq<RouteForUI>): string {
    if rs == [] then "[]" else "[" + RouteObjects(rs) + "]"
  }

  lemma PiecesUnfold(r: RouteForUI, k: nat)
    ensures Pieces(r, k + 1) == Pieces(r, k) + Piece(r, k)
  {
  }

  lemma PieceStep(start: string, r: RouteForUI, k: nat, prev: string, sb: string)
    requires prev == start + Pieces(r, k)
    requires sb == prev + Piece(r, k)
    ensures sb == start + Pieces(r, k + 1)
  {
    PiecesUnfold(r, k);
    ConcatAssoc(start, Pieces(r, k), Piece(r, k));
  }

  lemma ObjectStep(objects: string, sep: string, obj: string, sb: string)
    requires sb == "[" + objects + sep + obj
    ensures sb == "[" + (objects + sep + obj)
  {
  }

  /** The loop body of GetRoutesJson for one route: seventeen Append calls. */
  method AppendRouteObject(sb0: string, r: RouteForUI) returns (sb: string)
    ensures sb == sb0 + RouteObject(r)
  {
    sb := sb0;
    ghost var start := sb;
    assert sb == start + Pieces(r, 0);
    ghost var prev := sb;
    sb := sb + "{";
    PieceStep(start, r, 0, prev, sb);
    prev := sb;
    sb := sb + "\"routeNumber\":";
    PieceStep(start, r, 1, prev, sb);
    prev := sb;
    sb := sb + IntToString(r.routeNumber);
    PieceStep(start, r, 2, prev, sb);
    prev := sb;
    sb := sb + ",";
    PieceStep(start, r, 3, prev, sb);
    prev := sb;
    sb := sb + "\"routeName\":\"";
    PieceStep(start, r, 4, prev, sb);
    prev := sb;
    var name := JsonEscape(Some(OrEmpty(r.routeName)));
    sb := sb + name;
    PieceStep(start, r, 5, prev, sb);
    prev := sb;
    sb := sb + "\",";
    PieceStep(start, r, 6, prev, sb);
    prev := sb;
    sb := sb + "\"transportType\":\"";
    PieceStep(start, r, 7, prev, sb);
    prev := sb;
    var transportType := JsonEscape(Some(OrEmpty(r.transportType)));
    sb := sb + transportType;
    PieceStep(start, r, 8, prev, sb);
    prev := sb;
    sb := sb + "\",";
    PieceStep(start, r, 9, prev, sb);
    prev := sb;
    sb := sb + "\"ruleName\":\"";
    PieceStep(start, r, 10, prev, sb);
    prev := sb;
    var ruleName := JsonEscape(Some(OrEmpty(r.ruleName)));
    sb := sb + ruleName;
    PieceStep(start, r, 11, prev, sb);
    prev := sb;
    sb := sb + "\",";
    PieceStep(start, r, 12, prev, sb);
    prev := sb;
    sb := sb + "\"ruleId\":\"";
    PieceStep(start, r, 13, prev, sb);
    prev := sb;
    sb := sb + ToText(r.ruleId);
    PieceStep(start, r, 14, prev, sb);
    prev := sb;
    sb := sb + "\"";
    PieceStep(start, r, 15, prev, sb);
    prev := sb;
    sb := sb + "}";
    PieceStep(start, r, 16, prev, sb);
    prev := sb;
  }

  /** GetRoutesJson: reads the routes through the bridge and writes them as a JSON
      array. `None` is a null list or the exception raised when the registry is
      unavailable; both give "[]". */
  method GetRoutesJson(systemRoutes: Option<array<RouteForUI>>) returns (json: string)
    ensures systemRoutes.None? ==> json == "[]"
    ensures systemRoutes.Some? ==> json == RoutesJson(systemRoutes.value[..])
  {
    var routes := GetRoutesForUI(systemRoutes);
    assert systemRoutes.Some? ==> routes[..] == systemRoutes.value[..];
    if routes.Length == 0 {
      assert routes[..] == [];
      return "[]";
    }
    var sb := "[";
    for i := 0 to routes.Length
      invariant systemRoutes.Some? ==> routes[..] == systemRoutes.value[..]
      invariant sb == "[" + RouteObjects(routes[..i])
    {
      var r := routes[i];
      ghost var objects := RouteObjects(routes[..i]);
      if i > 0 {
        sb := sb + ",";
      }
      sb := AppendRouteObject(sb, r);
      ObjectStep(objects, if i > 0 then "," else "", RouteObject(r), sb);
      assert routes[..i + 1][..i] == routes[..i];
    }
    assert routes[..routes.Length] == routes[..];
    assert RoutesJson(routes[..]) == "[" + RouteObjects(routes[..]) + "]";
    sb := sb + "]";
    json := sb;
  }

  // ---------------------------------------------------------------------------
  // Reading the routes array back.

  /** What a reader of the routes array learns about one route. */
  datatype RouteView = RouteView(routeNumber: int, routeName: string, transportType: string, ruleName: string, ruleId: Hash128)

  function ViewOf(r: RouteForUI): RouteView {
    RouteView(r.routeNumber, OrEmpty(r.routeName), OrEmpty(r.transportType), OrEmpty(r.ruleName), r.ruleId)
  }

  function Views(rs: seq<RouteForUI>): (vs: seq<RouteView>)
    ensures |vs| == |rs| && forall i :: 0 <= i < |rs| ==> vs[i] == ViewOf(rs[i])
  {
    seq(|rs|, i requires 0 <= i < |rs| => ViewOf(rs[i]))
  }

  lemma ViewsCons(r: RouteForUI, rs: seq<RouteForUI>)
    ensures Views([r] + rs) == [ViewOf(r)] + Views(rs)
  {
    var a, b := Views([r] + rs), [ViewOf(r)] + Views(rs);
    assert |a| == |b|;
    forall i | 0 <= i < |a|
      ensures a[i] == b[i]
    {
      if i > 0 {
        assert ([r] + rs)[i] == rs[i - 1];
      }
    }
  }

  /** Reads `,"key":"` and then a string value. */
  function ReadStringField(key: string, t: string): (r: Option<(string, string)>)
    ensures r.Some? ==> |r.value.1| < |t|
  {
    match Expect(",", t)
    case None => None
    case Some(t1) =>
      match Expect(key, t1)
      case None => None
      case Some(t2) => ReadString(t2)
  }

  /** Reads `{"routeNumber":` and the number. */
  function ReadHead(t: string): (r: Option<(int, string)>)
    ensures r.Some? ==> |r.value.1| < |t|
  {
    match Expect("{", t)
    case None => None
    case Some(t1) =>
      match Expect("\"routeNumber\":", t1)
      case None => None
      case Some(t2) => ReadInt(t2)
  }

  /** Reads one route object with its five keys in the order written, and gives
      the route and what follows the object. */
  function ReadRouteObject(t: string): (r: Option<(RouteView, string)>)
    ensures r.Some? ==> |r.value.1| < |t|
  {
    match ReadHead(t)
    case None => None
    case Some((n, t1)) =>
      match ReadStringField("\"routeName\":\"", t1)
      case None => None
      case Some((name, t2)) =>
        match ReadStringField("\"transportType\":\"", t2)
        case None => None
        case Some((transportType, t3)) =>
          match ReadStringField("\"ruleName\":\"", t3)
          case None => None
          case Some((ruleName, t4)) =>
            match ReadStringField("\"ruleId\":\"", t4)
            case None => None
            case Some((idText, t5)) =>
              match Parse(idText)
              case None => None
              case Some(id) =>
                match Expect("}", t5)
                case None => None
                case Some(t6) => Some((RouteView(n, name, transportType, ruleName, id), t6))
  }

  /** Reads comma-separated route objects up to the closing bracket, which must end the text. */
  function ReadRouteList(t: string): (r: Option<seq<RouteView>>)
    decreases |t|
  {
    match ReadRouteObject(t)
    case None => None
    case Some((v, rest)) =>
      if rest == "]" then Some([v])
      else if rest != [] && rest[0] == ',' then
        match ReadRouteList(rest[1..])
        case None => None
        case Some(vs) => Some([v] + vs)
      else None
  }

  /** Reads a whole routes array. */
  function ReadRoutesJson(t: string): Option<seq<RouteView>> {
    if t == "[]" then Some([])
    else if t != [] && t[0] == '[' then ReadRouteList(t[1..])
    else None
  }

  /** The text from the k-th Append call of a route object to its end, then `rest`. */
  function Suffix(r: RouteForUI, k: nat, rest: string): string
    requires k <= PieceCount
    decreases PieceCount - k
  {
    if k == PieceCount then rest else Piece(r, k) + Suffix(r, k + 1, rest)
  }

  lemma {:induction false} SuffixSplit(r: RouteForUI, k: nat, rest: string)
    requires k <= PieceCount
    ensures Pieces(r, k) + Suffix(r, k, rest) == RouteObject(r) + rest
    decreases PieceCount - k
  {
    if k < PieceCount {
      SuffixStep(r, k, rest);
      SuffixSplit(r, k + 1, rest);
    } else {
      SuffixEnd(r, rest);
    }
  }

  lemma SuffixEnd(r: RouteForUI, rest: string)
    ensures Pieces(r, PieceCount) + Suffix(r, PieceCount, rest) == RouteObject(r) + rest
  {
  }

  /** Moving one Append call from the suffix to the prefix keeps the text. */
  lemma SuffixStep(r: RouteForUI, k: nat, rest: string)
    requires k < PieceCount
    ensures Pieces(r, k) + Suffix(r, k, rest) == Pieces(r, k + 1) + Suffix(r, k + 1, rest)
  {
    SuffixUnfold(r, k, rest);
    PiecesUnfold(r, k);
    ConcatAssoc(Pieces(r, k), Piece(r, k), Suffix(r, k + 1, rest));
  }

  lemma SuffixUnfold(r: RouteForUI, k: nat, rest: string)
    requires k < PieceCount
    ensures Suffix(r, k, rest) == Piece(r, k) + Suffix(r, k + 1, rest)
  {
  }

  lemma ReadStringFieldOf(key: string, value: string, after: string)
    ensures ReadStringField(key, "," + (key + (Escaped(value) + ("\"" + after)))) == Some((value, after))
  {
    ExpectLiteral(",", key + (Escaped(value) + ("\"" + after)));
    ExpectLiteral(key, Escaped(value) + ("\"" + after));
    assert Escaped(value) + ("\"" + after) == Escaped(value) + "\"" + after;
    ReadEscaped(value, after);
  }

  /** A string field followed by the `",` that closes it and starts the next key. */
  lemma ReadStringFieldBeforeComma(key: string, value: string, next: string, t: string)
    requires t == "," + (key + (Escaped(value) + ("\"," + next)))
    ensures ReadStringField(key, t) == Some((value, "," + next))
  {
    assert "\"," + next == "\"" + ("," + next);
    ReadStringFieldOf(key, value, "," + next);
  }

  lemma RuleIdPlain(id: Hash128)
    ensures Escaped(ToText(id)) == ToText(id)
  {
    var s := ToText(id);
    forall i | 0 <= i < |s|
      ensures Plain(s[i])
    {
      assert IsHexChar(s[i]);
    }
    EscapedIdentity(s);
  }

  lemma HeadOf(r: RouteForUI, rest: string)
    ensures ReadHead(Suffix(r, 0, rest)) == Some((r.routeNumber, Suffix(r, 3, rest)))
  {
    var s1, s2, s3 := Suffix(r, 1, rest), Suffix(r, 2, rest), Suffix(r, 3, rest);
    assert Suffix(r, 0, rest) == "{" + s1;
    assert s1 == "\"routeNumber\":" + s2;
    assert s2 == IntToString(r.routeNumber) + s3;
    assert s3 == "," + Suffix(r, 4, rest);
    ExpectLiteral("{", s1);
    ExpectLiteral("\"routeNumber\":", s2);
    ReadIntToString(r.routeNumber, s3);
  }

  lemma NameFieldOf(r: RouteForUI, rest: string)
    ensures ReadStringField("\"routeName\":\"", Suffix(r, 3, rest)) == Some((OrEmpty(r.routeName), "," + Suffix(r, 7, rest)))
  {
    var s4, s5, s6 := Suffix(r, 4, rest), Suffix(r, 5, rest), Suffix(r, 6, rest);
    assert Suffix(r, 3, rest) == "," + s4;
    assert s4 == "\"routeName\":\"" + s5;
    assert s5 == Escaped(OrEmpty(r.routeName)) + s6;
    assert s6 == "\"," + Suffix(r, 7, rest);
    ReadStringFieldBeforeComma("\"routeName\":\"", OrEmpty(r.routeName), Suffix(r, 7, rest), Suffix(r, 3, rest));
  }

  lemma TypeFieldOf(r: RouteForUI, rest: string)
    ensures ReadStringField("\"transportType\":\"", "," + Suffix(r, 7, rest)) == Some((OrEmpty(r.transportType), "," + Suffix(r, 10, rest)))
  {
    var s7, s8, s9 := Suffix(r, 7, rest), Suffix(r, 8, rest), Suffix(r, 9, rest);
    assert s7 == "\"transportType\":\"" + s8;
    assert s8 == Escaped(OrEmpty(r.transportType)) + s9;
    assert s9 == "\"," + Suffix(r, 10, rest);
    ReadStringFieldBeforeComma("\"transportType\":\"", OrEmpty(r.transportType), Suffix(r, 10, rest), "," + s7);
  }

  lemma RuleNameFieldOf(r: RouteForUI, rest: string)
    ensures ReadStringField("\"ruleName\":\"", "," + Suffix(r, 10, rest)) == Some((OrEmpty(r.ruleName), "," + Suffix(r, 13, rest)))
  {
    var s10, s11, s12 := Suffix(r, 10, rest), Suffix(r, 11, rest), Suffix(r, 12, rest);
    assert s10 == "\"ruleName\":\"" + s11;
    assert s11 == Escaped(OrEmpty(r.ruleName)) + s12;
    assert s12 == "\"," + Suffix(r, 13, rest);
    ReadStringFieldBeforeComma("\"ruleName\":\"", OrEmpty(r.ruleName), Suffix(r, 13, rest), "," + s10);
  }

  lemma RuleIdFieldOf(r: RouteForUI, rest: string)
    ensures ReadStringField("\"ruleId\":\"", "," + Suffix(r, 13, rest)) == Some((ToText(r.ruleId), "}" + rest))
  {
    var s13, s14, s15, s16 := Suffix(r, 13, rest), Suffix(r, 14, rest), Suffix(r, 15, rest), Suffix(r, 16, rest);
    assert s13 == "\"ruleId\":\"" + s14;
    assert s14 == ToText(r.ruleId) + s15;
    assert s15 == "\"" + s16;
    assert s16 == "}" + rest;
    RuleIdPlain(r.ruleId);
    ReadStringFieldOf("\"ruleId\":\"", ToText(r.ruleId), s16);
  }

  /** The reads of one route object, each going on where the previous one stopped,
      make up the read of the whole object. */
  lemma ReadRouteObjectSteps(t: string, v: RouteView, idText: string,
                             t1: string, t2: string, t3: string, t4: string, t5: string, after: string)
    requires ReadHead(t) == Some((v.routeNumber, t1))
    requires ReadStringField("\"routeName\":\"", t1) == Some((v.routeName, t2))
    requires ReadStringField("\"transportType\":\"", t2) == Some((v.transportType, t3))
    requires ReadStringField("\"ruleName\":\"", t3) == Some((v.ruleName, t4))
    requires ReadStringField("\"ruleId\":\"", t4) == Some((idText, t5))
    requires Parse(idText) == Some(v.ruleId)
    requires Expect("}", t5) == Some(after)
    ensures ReadRouteObject(t) == Some((v, after))
  {
  }

  /** One route object, followed by anything, reads back as that route. */
  lemma ReadRouteObjectOf(r: RouteForUI, rest: string)
    ensures ReadRouteObject(RouteObject(r) + rest) == Some((ViewOf(r), rest))
  {
    SuffixSplit(r, 0, rest);
    assert Pieces(r, 0) + Suffix(r, 0, rest) == Suffix(r, 0, rest);
    HeadOf(r, rest);
    NameFieldOf(r, rest);
    TypeFieldOf(r, rest);
    RuleNameFieldOf(r, rest);
    RuleIdFieldOf(r, rest);
    ParseToText(r.ruleId);
    ExpectLiteral("}", rest);
    ReadRouteObjectSteps(Suffix(r, 0, rest), ViewOf(r), ToText(r.ruleId), Suffix(r, 3, rest),
      "," + Suffix(r, 7, rest), "," + Suffix(r, 10, rest), "," + Suffix(r, 13, rest), "}" + rest, rest);
  }

  /** The last object of a non-empty list comes after the others and a comma. */
  lemma RouteObjectsSnoc(rs: seq<RouteForUI>, front: seq<RouteForUI>, last: RouteForUI)
    requires rs == front + [last]
    ensures RouteObjects(rs) == RouteObjects(front) + (if front == [] then "" else ",") + RouteObject(last)
  {
    assert rs[..|rs| - 1] == front;
  }

  /** The string regrouping behind RouteObjectsCons. */
  lemma JoinRegroup(x: string, f: string, l: string, consFront: string, cons: string, objects: string, frontEmpty: bool)
    requires frontEmpty ==> f == ""
    requires consFront == x + (if frontEmpty then "" else "," + f)
    requires cons == consFront + "," + l
    requires objects == f + (if frontEmpty then "" else ",") + l
    ensures cons == x + ("," + objects)
  {
    if frontEmpty {
      assert objects == l;
      assert consFront == x;
    } else {
      ConcatAssoc(x, "," + f, ",");
      ConcatAssoc(",", f, ",");
      ConcatAssoc(x, "," + (f + ","), l);
      ConcatAssoc(",", f + ",", l);
    }
  }

  lemma {:induction false} RouteObjectsCons(r: RouteForUI, rs: seq<RouteForUI>)
    ensures RouteObjects([r] + rs) == RouteObject(r) + (if rs == [] then "" else "," + RouteObjects(rs))
    decreases |rs|
  {
    if rs == [] {
      RouteObjectsSnoc([r], [], r);
      assert [r] + rs == [r];
    } else {
      var front, last := rs[..|rs| - 1], rs[|rs| - 1];
      assert rs == front + [last];
      assert [r] + rs == ([r] + front) + [last];
      RouteObjectsCons(r, front);
      RouteObjectsSnoc([r] + rs, [r] + front, last);
      RouteObjectsSnoc(rs, front, last);
      JoinRegroup(RouteObject(r), RouteObjects(front), RouteObject(last),
        RouteObjects([r] + front), RouteObjects([r] + rs), RouteObjects(rs), front == []);
    }
  }

  lemma ReadRouteListLast(t: string, v: RouteView)
    requires ReadRouteObject(t) == Some((v, "]"))
    ensures ReadRouteList(t) == Some([v])
  {
  }

  lemma ReadRouteListNext(t: string, v: RouteView, rest: string, vs: seq<RouteView>)
    requires ReadRouteObject(t) == Some((v, rest))
    requires rest != [] && rest[0] == ',' && rest != "]"
    requires ReadRouteList(rest[1..]) == Some(vs)
    ensures ReadRouteList(t) == Some([v] + vs)
  {
  }

  lemma ReadRouteListOne(r: RouteForUI, t: string)
    requires t == RouteObject(r) + "]"
    ensures ReadRouteList(t) == Some([ViewOf(r)])
  {
    ReadRouteObjectOf(r, "]");
    ReadRouteListLast(t, ViewOf(r));
  }

  lemma ReadRouteListCons(r: RouteForUI, more: string, vs: seq<RouteView>, t: string)
    requires ReadRouteList(more) == Some(vs)
    requires t == RouteObject(r) + ("," + more)
    ensures ReadRouteList(t) == Some([ViewOf(r)] + vs)
  {
    var rest := "," + more;
    ReadRouteObjectOf(r, rest);
    assert rest[0] == ',' && rest[1..] == more;
    assert rest != "]" by {
      assert "]"[0] == ']';
    }
    ReadRouteListNext(t, ViewOf(r), rest, vs);
  }

  /** The objects of a non-empty routes list, closed by "]", read back as the routes. */
  lemma {:induction false} ReadRouteListOf(rs: seq<RouteForUI>, t: string)
    requires rs != [] && t == RouteObjects(rs) + "]"
    ensures ReadRouteList(t) == Some(Views(rs))
    decreases |rs|
  {
    var r, tail := rs[0], rs[1..];
    assert rs == [r] + tail;
    RouteObjectsCons(r, tail);
    if tail == [] {
      assert t == RouteObject(r) + "]";
      ReadRouteListOne(r, t);
      assert Views(rs) == [ViewOf(r)];
    } else {
      var ro, ros := RouteObject(r), RouteObjects(tail);
      var more := ros + "]";
      ConcatAssoc(ro, "," + ros, "]");
      ConcatAssoc(",", ros, "]");
      assert t == ro + ("," + more);
      ReadRouteListOf(tail, more);
      ReadRouteListCons(r, more, Views(tail), t);
      ViewsCons(r, tail);
    }
  }

  /** The routes array reads back, as JSON, as the routes in order, with every
      field (null strings as ""); no routes gives "[]". */
  lemma RoutesJsonRoundTrip(rs: seq<RouteForUI>)
    ensures ReadRoutesJson(RoutesJson(rs)) == Some(Views(rs))
    ensures rs == [] <==> RoutesJson(rs) == "[]"
  {
    if rs != [] {
      var objects := RouteObjects(rs);
      var t := RoutesJson(rs);
      ConcatAssoc("[", objects, "]");
      assert t == "[" + (objects + "]");
      assert t[0] == '[' && t[1..] == objects + "]";
      ReadRouteListOf(rs, t[1..]);
      RouteObjectsNotEmpty(rs);
      assert |t| > 2;
    }
  }

  /** A routes list with a route writes at least one character of objects. */
  lemma RouteObjectsNotEmpty(rs: seq<RouteForUI>)
    requires rs != []
    ensures |RouteObjects(rs)| > 0
  {
    var r := rs[|rs| - 1];
    PiecesUnfold(r, PieceCount - 1);
    assert |RouteObject(r)| > 0;
  }

  // ---------------------------------------------------------------------------
  // GetCustomRulesJson.

  /** One rule as the UI receives it: the id in text form, then the seven values. */
  datatype UiRule = UiRule(ruleId: string, ruleName: string, occupancy: int, stdTicket: int,
                           maxTicketInc: int, maxTicketDec: int, maxVehAdj: int, minVehAdj: int)

  /** The serializer's input, or the literal "[]". */
  datatype CustomRulesJson = EmptyArray | Serialized(rules: seq<UiRule>)

  function Shape(row: RuleRow): UiRule {
    UiRule(ToText(row.ruleId), row.fields.ruleName, row.fields.occupancy, row.fields.stdTicket,
           row.fields.maxTicketInc, row.fields.maxTicketDec, row.fields.maxVehAdj, row.fields.minVehAdj)
  }

  /** GetCustomRulesJson: "[]" for a null or empty list (`None` also stands for the
      exception raised when the registry is unavailable); otherwise one UI record per
      rule, in order, handed to the JSON serializer. */
  function GetCustomRulesJson(rows: Option<seq<RuleRow>>): (r: CustomRulesJson)
    ensures r.EmptyArray? <==> rows.None? || rows.value == []
    ensures r.Serialized? ==> |r.rules| == |rows.value|
  {
    if rows.None? || rows.value == [] then EmptyArray
    else Serialized(seq(|rows.value|, i requires 0 <= i < |rows.value| => Shape(rows.value[i])))
  }

  /** Every record the panel receives names its rule by an id text that parses back
      to that rule's id, and carries that rule's values. */
  lemma CustomRulesJsonFaithful(rows: seq<RuleRow>, i: int)
    requires rows != [] && 0 <= i < |rows|
    ensures GetCustomRulesJson(Some(rows)).Serialized?
    ensures var u := GetCustomRulesJson(Some(rows)).rules[i];
      && Parse(u.ruleId) == Some(rows[i].ruleId)
      && u.ruleName == rows[i].fields.ruleName && u.occupancy == rows[i].fields.occupancy
      && u.stdTicket == rows[i].fields.stdTicket && u.maxTicketInc == rows[i].fields.maxTicketInc
      && u.maxTicketDec == rows[i].fields.maxTicketDec && u.maxVehAdj == rows[i].fields.maxVehAdj
      && u.minVehAdj == rows[i].fields.minVehAdj
  {
    ParseToText(rows[i].ruleId);
  }

  // ---------------------------------------------------------------------------
  // The triggers.

  /** The AddCustomRule payload after deserialization; the name may be null. */
  datatype AddCustomRuleDto = AddCustomRuleDto(ruleName: Option<string>, occupancy: int, stdTicket: int,
                                               maxTicketInc: int, maxTicketDec: int, maxVehAdj: int, minVehAdj: int)

  /** The route rule selection payload after deserialization; its strings may be null. */
  datatype RouteRuleSelectionDto = RouteRuleSelectionDto(routeNumber: int, transportType: Option<string>, ruleId: Option<string>)

  /** The name the add trigger stores: the payload's name, "" for null. */
  function DtoName(dto: AddCustomRuleDto): string {
    OrEmpty(dto.ruleName)
  }

  /** The values the add trigger stores, when the name fits the fixed string. */
  function DtoFields(dto: AddCustomRuleDto): RuleFields
    requires ToFixedString64(DtoName(dto)).Some?
  {
    RuleFields(ToFixedString64(DtoName(dto)).value, dto.occupancy, dto.stdTicket, dto.maxTicketInc,
               dto.maxTicketDec, dto.maxVehAdj, dto.minVehAdj)
  }

  /** The rule an argument-less AddCustomRule creates. */
  function BlankRule(freshId: Hash128): CustomRule {
    NewCustomRule(freshId, "", 0, 0, 0, 0, 0, 0)
  }

  /** Adding a blank rule under a fresh id and then setting its values leaves one
      more rule, whose values are the ones set; every other id looks up as before
      and ids stay unique. */
  lemma AddThenSet(rules: seq<CustomRule>, freshId: Hash128, f: RuleFields, other: Hash128)
    requires freshId !in RuleIds(rules)
    ensures var after := Update(rules + [BlankRule(freshId)], freshId, f);
      && |after| == |rules| + 1
      && Lookup(after, freshId) == f
      && (other != freshId ==> Lookup(after, other) == Lookup(rules, other))
      && RuleIds(after) == RuleIds(rules) + {freshId}
      && (UniqueIds(rules) ==> UniqueIds(after))
  {
    var added := rules + [BlankRule(freshId)];
    AddThenLookup(rules, BlankRule(freshId), other);
    UpdateThenLookup(added, freshId, f, other);
    UpdateThenLookup(added, freshId, f, freshId);
    if UniqueIds(rules) {
      OperationsKeepUniqueIds(added, freshId, f, BlankRule(freshId));
    }
  }

  /** The rule id a selection forwards: none for a null or empty id text, the id
      itself for an id's text form. */
  lemma SelectionRuleId(dto: RouteRuleSelectionDto, id: Hash128)
    ensures dto.ruleId.None? || dto.ruleId == Some("") ==> RuleIdFromText(Some(OrEmpty(dto.ruleId))).None?
    ensures dto.ruleId == Some(ToText(id)) ==> RuleIdFromText(Some(OrEmpty(dto.ruleId))) == Some(id)
  {
    RuleIdFromTextOfId(id, "");
  }

  class SmartTransportationUISystem {
    /** The registry behind the static bridge; null when the game has not created it. */
    const registry: ManageRouteSystem?
    /** TriggerUpdate calls on the custom rules binding. */
    var customRulesRefreshes: nat
    /** TriggerUpdate calls on the routes binding. */
    var routesRefreshes: nat

    constructor (registry: ManageRouteSystem?)
      ensures this.registry == registry && customRulesRefreshes == 0 && routesRefreshes == 0
    {
      this.registry := registry;
      customRulesRefreshes := 0;
      routesRefreshes := 0;
    }

    /** AddCustomRuleFromUI: nothing for a blank payload or one that does not
        deserialize; otherwise a blank rule is added and then set to the payload's
        values. A name too long for the fixed string throws after the add, so the
        blank rule stays and the refreshes are skipped. Randomness (the new id) is a
        parameter. */
    method AddCustomRuleFromUI(payload: Option<string>, dto: Option<AddCustomRuleDto>, freshId: Hash128)
      requires registry != null ==> freshId !in RuleIds(registry.rules)
      modifies this, registry
      ensures registry != null ==> registry.routeRules == old(registry.routeRules)
      ensures registry != null ==> registry.routeRuleRequests == old(registry.routeRuleRequests)
      ensures IsNullOrWhiteSpace(payload) || dto.None? || registry == null ==>
        (registry != null ==> registry.rules == old(registry.rules))
        && customRulesRefreshes == old(customRulesRefreshes) && routesRefreshes == old(routesRefreshes)
      ensures !IsNullOrWhiteSpace(payload) && dto.Some? && registry != null ==>
        var fits := ToFixedString64(DtoName(dto.value)).Some?;
        && registry.rules == (if fits then Update(old(registry.rules) + [BlankRule(freshId)], freshId, DtoFields(dto.value))
                             else old(registry.rules) + [BlankRule(freshId)])
        && customRulesRefreshes == old(customRulesRefreshes) + (if fits then 1 else 0)
        && routesRefreshes == old(routesRefreshes) + (if fits then 1 else 0)
    {
      if IsNullOrWhiteSpace(payload) {
        return;
      }
      if dto.None? {
        return;
      }
      if registry == null {
        return;
      }
      var d := dto.value;
      var ruleId := Bridge.AddCustomRule(registry, freshId);
      var ok := Bridge.SetCustomRule(registry, ruleId, DtoName(d), d.occupancy, d.stdTicket,
                                     d.maxTicketInc, d.maxTicketDec, d.maxVehAdj, d.minVehAdj);
      if !ok {
        return;
      }
      customRulesRefreshes := customRulesRefreshes + 1;
      routesRefreshes := routesRefreshes + 1;
    }

    /** SetRouteRuleForRouteFromUI: nothing for a blank payload or one that does not
        deserialize; otherwise the selection is forwarded with null strings as "",
        and the routes binding is refreshed. */
    method SetRouteRuleForRouteFromUI(payload: Option<string>, dto: Option<RouteRuleSelectionDto>)
      modifies this, registry
      ensures registry != null ==> registry.rules == old(registry.rules) && registry.routeRules == old(registry.routeRules)
      ensures customRulesRefreshes == old(customRulesRefreshes)
      ensures IsNullOrWhiteSpace(payload) || dto.None? ==>
        (registry != null ==> registry.routeRuleRequests == old(registry.routeRuleRequests))
        && routesRefreshes == old(routesRefreshes)
      ensures !IsNullOrWhiteSpace(payload) && dto.Some? ==>
        var s := dto.value;
        && (registry != null ==>
              registry.routeRuleRequests == old(registry.routeRuleRequests)
                + [RouteRuleRequest(OrEmpty(s.transportType), s.routeNumber, RuleIdFromText(Some(OrEmpty(s.ruleId))))])
        && routesRefreshes == old(routesRefreshes) + 1
    {
      if IsNullOrWhiteSpace(payload) {
        return;
      }
      if dto.None? {
        return;
      }
      var s := dto.value;
      var transportType := OrEmpty(s.transportType);
      var ruleIdString := OrEmpty(s.ruleId);
      Bridge.SetRouteRuleForRoute(registry, transportType, s.routeNumber, Some(ruleIdString));
      routesRefreshes := routesRefreshes + 1;
    }
  }
}
