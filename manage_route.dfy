/** The rule registry (ManageRouteSystem): stored CustomRule components, the route
    bindings (RouteRule components) and the table of rule names offered per route. */
module ManageRoute {
  import opened Wrappers
  import opened Ids
  import opened Transport
  import opened Settings
  import opened Components

  // ---------------------------------------------------------------------------
  // The store as a value: a sequence of CustomRule components in query order.

  /** The seven values GetCustomRule returns for a rule. */
  datatype RuleFields = RuleFields(
    ruleName: FixedString64,
    occupancy: int,
    stdTicket: int,
    maxTicketInc: int,
    maxTicketDec: int,
    maxVehAdj: int,
    minVehAdj: int)

  /** `default` of the seven-value tuple: empty name, every number 0. */
  const DefaultFields: RuleFields := RuleFields("", 0, 0, 0, 0, 0, 0)

  /** One row of GetCustomRules: the id followed by the seven values. */
  datatype RuleRow = RuleRow(ruleId: Hash128, fields: RuleFields)

  function FieldsOf(r: CustomRule): RuleFields {
    RuleFields(r.ruleName, r.occupancy, r.stdTicket, r.maxTicketInc, r.maxTicketDec, r.maxVehAdj, r.minVehAdj)
  }

  /** A rule with its seven values replaced; version and id are kept. */
  function WithFields(r: CustomRule, f: RuleFields): (u: CustomRule)
    ensures u.version == r.version && u.ruleId == r.ruleId && FieldsOf(u) == f
  {
    r.(ruleName := f.ruleName, occupancy := f.occupancy, stdTicket := f.stdTicket,
       maxTicketInc := f.maxTicketInc, maxTicketDec := f.maxTicketDec,
       maxVehAdj := f.maxVehAdj, minVehAdj := f.minVehAdj)
  }

  /** Index of the first rule with the given id, or -1 when there is none. */
  function FindRule(rules: seq<CustomRule>, id: Hash128): (k: int)
    ensures -1 <= k < |rules|
    ensures k >= 0 ==> rules[k].ruleId == id
    ensures k >= 0 ==> forall j :: 0 <= j < k ==> rules[j].ruleId != id
    ensures k == -1 <==> forall j :: 0 <= j < |rules| ==> rules[j].ruleId != id
  {
    if rules == [] then -1
    else if rules[0].ruleId == id then 0
    else
      var k := FindRule(rules[1..], id);
      if k < 0 then -1 else k + 1
  }

  function RuleIds(rules: seq<CustomRule>): set<Hash128> {
    set r | r in rules :: r.ruleId
  }

  lemma InIds(rules: seq<CustomRule>, id: Hash128)
    ensures id in RuleIds(rules) <==> FindRule(rules, id) >= 0
  {
    if FindRule(rules, id) >= 0 {
      assert rules[FindRule(rules, id)] in rules;
    }
  }

  /** No two stored rules share an id. */
  ghost predicate UniqueIds(rules: seq<CustomRule>) {
    forall i, j :: 0 <= i < j < |rules| ==> rules[i].ruleId != rules[j].ruleId
  }

  /** What GetCustomRule returns: the values of the first rule with that id, or the default. */
  function Lookup(rules: seq<CustomRule>, id: Hash128): (f: RuleFields) {
    var k := FindRule(rules, id);
    if k >= 0 then FieldsOf(rules[k]) else DefaultFields
  }

  /** The store after SetCustomRule: only the first rule with that id changes. */
  function Update(rules: seq<CustomRule>, id: Hash128, f: RuleFields): seq<CustomRule> {
    var k := FindRule(rules, id);
    if k >= 0 then rules[k := WithFields(rules[k], f)] else rules
  }

  /** The sequence with index k deleted. */
  function Without(rules: seq<CustomRule>, k: int): seq<CustomRule>
    requires 0 <= k < |rules|
  {
    rules[..k] + rules[k + 1..]
  }

  /** The store after RemoveCustomRule: the first rule with that id is gone. */
  function Remove(rules: seq<CustomRule>, id: Hash128): seq<CustomRule> {
    var k := FindRule(rules, id);
    if k >= 0 then Without(rules, k) else rules
  }

  /** Setting a rule's values keeps every id, changes the values read for that id
      when it is stored, and leaves every other id's values as they were. */
  lemma {:induction false} UpdateThenLookup(rules: seq<CustomRule>, id: Hash128, f: RuleFields, other: Hash128)
    ensures |Update(rules, id, f)| == |rules|
    ensures forall j :: 0 <= j < |rules| ==> Update(rules, id, f)[j].ruleId == rules[j].ruleId
    ensures RuleIds(Update(rules, id, f)) == RuleIds(rules)
    ensures Lookup(Update(rules, id, f), id) == if id in RuleIds(rules) then f else DefaultFields
    ensures other != id ==> Lookup(Update(rules, id, f), other) == Lookup(rules, other)
  {
    var u := Update(rules, id, f);
    var k := FindRule(rules, id);
    assert forall j :: 0 <= j < |rules| ==> u[j].ruleId == rules[j].ruleId;
    SameIdsSameFind(rules, u, id);
    SameIdsSameFind(rules, u, other);
    SameIdsSameIds(rules, u);
    InIds(rules, id);
  }

  lemma {:induction false} SameIdsSameFind(a: seq<CustomRule>, b: seq<CustomRule>, id: Hash128)
    requires |a| == |b| && forall j :: 0 <= j < |a| ==> a[j].ruleId == b[j].ruleId
    ensures FindRule(a, id) == FindRule(b, id)
  {
    if a != [] && a[0].ruleId != id {
      SameIdsSameFind(a[1..], b[1..], id);
    }
  }

  lemma SameIdsSameIds(a: seq<CustomRule>, b: seq<CustomRule>)
    requires |a| == |b| && forall j :: 0 <= j < |a| ==> a[j].ruleId == b[j].ruleId
    ensures RuleIds(a) == RuleIds(b)
  {
    forall x | x in RuleIds(a) ensures x in RuleIds(b) {
      var r :| r in a && r.ruleId == x;
      var j :| 0 <= j < |a| && a[j] == r;
      assert b[j] in b;
    }
    forall x | x in RuleIds(b) ensures x in RuleIds(a) {
      var r :| r in b && r.ruleId == x;
      var j :| 0 <= j < |b| && b[j] == r;
      assert a[j] in a;
    }
  }

  /** Adding a rule with a fresh id stores exactly that rule, readable by its id,
      leaves every other id's values as they were and keeps the ids unique. */
  lemma AddThenLookup(rules: seq<CustomRule>, r: CustomRule, other: Hash128)
    requires r.ruleId !in RuleIds(rules)
    ensures Lookup(rules + [r], r.ruleId) == FieldsOf(r)
    ensures other != r.ruleId ==> Lookup(rules + [r], other) == Lookup(rules, other)
    ensures RuleIds(rules + [r]) == RuleIds(rules) + {r.ruleId}
    ensures UniqueIds(rules) ==> UniqueIds(rules + [r])
  {
    var s := rules + [r];
    InIds(rules, r.ruleId);
    assert forall j :: 0 <= j < |rules| ==> s[j] == rules[j];
    assert s[|rules|] == r;
    assert FindRule(s, r.ruleId) == |rules|;
    if other != r.ruleId {
      PrefixFind(rules, r, other);
    }
    assert forall x :: x in s <==> x in rules || x == r;
    if UniqueIds(rules) {
      forall i, j | 0 <= i < j < |s| ensures s[i].ruleId != s[j].ruleId {
        if j == |rules| {
          assert rules[i] in rules;
        }
      }
    }
  }

  lemma PrefixFind(rules: seq<CustomRule>, r: CustomRule, id: Hash128)
    requires r.ruleId != id
    ensures FindRule(rules + [r], id) == FindRule(rules, id)
  {
    var s := rules + [r];
    assert forall j :: 0 <= j < |rules| ==> s[j] == rules[j];
  }

  /** Removing an id deletes at most one rule (the first match), keeps the others in
      order, and with unique ids leaves nothing readable under that id. */
  lemma RemoveProperties(rules: seq<CustomRule>, id: Hash128, other: Hash128)
    ensures id !in RuleIds(rules) ==> Remove(rules, id) == rules
    ensures id in RuleIds(rules) ==> |Remove(rules, id)| == |rules| - 1
    ensures UniqueIds(rules) ==> UniqueIds(Remove(rules, id))
    ensures UniqueIds(rules) ==> id !in RuleIds(Remove(rules, id))
    ensures UniqueIds(rules) && other != id ==> Lookup(Remove(rules, id), other) == Lookup(rules, other)
  {
    InIds(rules, id);
    var k := FindRule(rules, id);
    if k >= 0 && UniqueIds(rules) {
      var s := Remove(rules, id);
      RemovedShape(rules, k);
      RemovedIdGone(rules, k, id);
      if other != id {
        RemovedFind(rules, k, id, other);
      }
    }
  }

  /** Deleting index k shifts the later rules down by one. */
  lemma RemovedShape(rules: seq<CustomRule>, k: int)
    requires 0 <= k < |rules|
    ensures |Without(rules, k)| == |rules| - 1
    ensures forall j :: 0 <= j < k ==> (Without(rules, k))[j] == rules[j]
    ensures forall j :: k <= j < |rules| - 1 ==> (Without(rules, k))[j] == rules[j + 1]
    ensures UniqueIds(rules) ==> UniqueIds(Without(rules, k))
  {
    var s := Without(rules, k);
    if UniqueIds(rules) {
      forall i, j | 0 <= i < j < |s| ensures s[i].ruleId != s[j].ruleId {
        var i' := if i < k then i else i + 1;
        var j' := if j < k then j else j + 1;
        assert s[i] == rules[i'] && s[j] == rules[j'] && i' < j';
      }
    }
  }

  lemma RemovedIdGone(rules: seq<CustomRule>, k: int, id: Hash128)
    requires 0 <= k < |rules| && rules[k].ruleId == id && UniqueIds(rules)
    ensures id !in RuleIds(Without(rules, k))
  {
    var s := Without(rules, k);
    RemovedShape(rules, k);
    forall j | 0 <= j < |s| ensures s[j].ruleId != id {
      if j < k { assert s[j] == rules[j]; } else { assert s[j] == rules[j + 1]; }
    }
    InIds(s, id);
  }

  lemma RemovedFind(rules: seq<CustomRule>, k: int, id: Hash128, other: Hash128)
    requires 0 <= k < |rules| && rules[k].ruleId == id && other != id
    ensures Lookup(Without(rules, k), other) == Lookup(rules, other)
  {
    var s := Without(rules, k);
    RemovedShape(rules, k);
    var ko := FindRule(rules, other);
    var ks := FindRule(s, other);
    if ko >= 0 {
      if ko < k {
        assert s[ko] == rules[ko];
        assert ks == ko;
      } else {
        assert ko != k;
        assert s[ko - 1] == rules[ko];
        forall j | 0 <= j < ko - 1 ensures s[j].ruleId != other {
          if j < k { assert s[j] == rules[j]; } else { assert s[j] == rules[j + 1]; }
        }
        assert ks == ko - 1;
      }
    } else {
      forall j | 0 <= j < |s| ensures s[j].ruleId != other {
        if j < k { assert s[j] == rules[j]; } else { assert s[j] == rules[j + 1]; }
      }
    }
  }

  // ---------------------------------------------------------------------------
  // Rule names offered per route.

  /** The five configurable custom rule names (name_Custom1..5, read from the settings
      when the class is loaded; that part of the settings is not part of this model). */
  datatype CustomNames = CustomNames(c1: string, c2: string, c3: string, c4: string, c5: string)

  const DisabledEntryKey: int := -1
  const DisabledEntryName: string := "Disabled"

  /** The keys of the entries strictly ascend. */
  predicate KeysAscend(es: seq<(int, string)>) {
    forall i, j :: 0 <= i < j < |es| ==> es[i].0 < es[j].0
  }

  /** RuleNames: the entries of the static table, ordered by key. */
  function RuleNameEntries(names: CustomNames): (es: seq<(int, string)>)
    ensures |es| == 10
    ensures KeysAscend(es)
  {
    [(DisabledEntryKey, DisabledEntryName),
     (Code(Bus), Name(Bus)), (Code(Train), Name(Train)), (Code(Tram), Name(Tram)), (Code(Subway), Name(Subway)),
     (51, names.c1), (52, names.c2), (53, names.c3), (54, names.c4), (55, names.c5)]
  }

  /** RuleNames.TryGetValue. */
  function RuleName(names: CustomNames, key: int): (r: Option<string>)
    ensures r.Some? ==> (key, r.value) in RuleNameEntries(names)
    ensures forall n :: (key, n) in RuleNameEntries(names) ==> r == Some(n)
  {
    if key == DisabledEntryKey then Some(DisabledEntryName)
    else if key == Code(Bus) then Some(Name(Bus))
    else if key == Code(Train) then Some(Name(Train))
    else if key == Code(Tram) then Some(Name(Tram))
    else if key == Code(Subway) then Some(Name(Subway))
    else if key == 51 then Some(names.c1)
    else if key == 52 then Some(names.c2)
    else if key == 53 then Some(names.c3)
    else if key == 54 then Some(names.c4)
    else if key == 55 then Some(names.c5)
    else None
  }

  /** The types the rule selector treats as disabled: Bus, Tram, Subway and Train by
      their toggles, every other type always. */
  predicate RulesDisabledFor(config: SettingsState, t: TransportType) {
    match t
    case Bus => config.bus.disabled
    case Tram => config.tram.disabled
    case Subway => config.subway.disabled
    case Train => config.train.disabled
    case _ => true
  }

  /** The keys a route of type `code` may choose: Disabled, its own type, the custom slots. */
  predicate Offered(code: int, key: int) {
    key == DisabledEntryKey || key == code || key >= 51
  }

  /** Putting a key below every key of an ascending list in front keeps it ascending. */
  lemma AscendCons(e: (int, string), rest: seq<(int, string)>)
    requires KeysAscend(rest)
    requires forall x :: x in rest ==> e.0 < x.0
    ensures KeysAscend([e] + rest)
  {
    forall i, j | 0 <= i < j < |[e] + rest| ensures ([e] + rest)[i].0 < ([e] + rest)[j].0 {
      assert ([e] + rest)[j] == rest[j - 1];
      if i > 0 {
        assert ([e] + rest)[i] == rest[i - 1];
      } else {
        assert rest[j - 1] in rest;
      }
    }
  }

  /** The head of an ascending list has a key below every other entry's. */
  lemma AscendHead(es: seq<(int, string)>)
    requires KeysAscend(es) && es != []
    ensures KeysAscend(es[1..])
    ensures forall x :: x in es[1..] ==> es[0].0 < x.0
  {
    forall x | x in es[1..] ensures es[0].0 < x.0 {
      var k :| 0 <= k < |es[1..]| && es[1..][k] == x;
      assert es[k + 1] == x;
    }
  }

  /** A `Where` over the name entries, keeping order. */
  function FilterKeys(es: seq<(int, string)>, keep: int -> bool): (r: seq<(int, string)>)
    ensures |r| <= |es|
    ensures forall e :: e in r <==> e in es && keep(e.0)
    ensures KeysAscend(es) ==> KeysAscend(r)
  {
    if es == [] then []
    else
      var rest := FilterKeys(es[1..], keep);
      assert forall e :: e in es <==> e == es[0] || e in es[1..];
      if keep(es[0].0) then
        assert forall e :: e in rest ==> e in es[1..];
        if KeysAscend(es) then
          AscendHead(es);
          AscendCons(es[0], rest);
          [es[0]] + rest
        else [es[0]] + rest
      else rest
  }

  /** What a route's entity carries in the world: its prefab's transport type, or
      `None` when the prefab has no TransportLineData. */
  datatype RoutePrefab = RoutePrefab(lineType: Option<TransportType>)

  /** A call SetRouteRuleForRoute received from the bridge. */
  datatype RouteRuleRequest = RouteRuleRequest(transportType: string, routeNumber: int, ruleId: Option<Hash128>)

  class ManageRouteSystem {
    /** The entities carrying a CustomRule component, in query order. */
    var rules: seq<CustomRule>
    /** The RouteRule components, by route entity. */
    var routeRules: map<Entity, RouteRule>
    /** Route entities that have a PrefabRef, with what their prefab says. */
    const routes: map<Entity, RoutePrefab>
    const names: CustomNames
    /** The calls forwarded to SetRouteRuleForRoute, whose body is not part of this model. */
    var routeRuleRequests: seq<RouteRuleRequest>

    /** The registry's invariant: no two stored rules share an id, so the first rule
        with an id is the only one. */
    ghost predicate Valid()
      reads this
    {
      UniqueIds(rules)
    }

    constructor (rules: seq<CustomRule>, routeRules: map<Entity, RouteRule>,
                 routes: map<Entity, RoutePrefab>, names: CustomNames)
      ensures this.rules == rules && this.routeRules == routeRules
      ensures this.routes == routes && this.names == names && routeRuleRequests == []
      ensures UniqueIds(rules) ==> Valid()
    {
      this.rules, this.routeRules, this.routes, this.names := rules, routeRules, routes, names;
      routeRuleRequests := [];
    }

    /** SetRouteRule: adds the RouteRule component or overwrites the existing one. */
    method SetRouteRule(routeEntity: Entity, routeRuleId: int)
      modifies this
      ensures routeEntity in routeRules && routeRules[routeEntity].customRule == routeRuleId
      ensures routeRules == old(routeRules)[routeEntity := NewRouteRule(routeRuleId)]
      ensures rules == old(rules) && routeRuleRequests == old(routeRuleRequests)
    {
      var routeRule := NewRouteRule(routeRuleId);
      if routeEntity in routeRules {
        routeRules := routeRules[routeEntity := routeRule];
      } else {
        routeRules := routeRules[routeEntity := routeRule];
      }
    }

    /** GetRouteRule: the key and name of the rule that applies to a route. A bound
        route gives its key's name (or `default`, (0, null), for an unknown key); an
        unbound route of an enabled type gives its type's entry; anything else gives
        Disabled. `Failure` is the exception raised when the prefab has no
        TransportLineData. */
    function GetRouteRule(routeEntity: Entity, config: SettingsState): (r: Result<(int, Option<string>)>)
      reads this
      ensures routeEntity in routeRules ==>
        var key := routeRules[routeEntity].customRule;
        r == Success(if RuleName(names, key).Some? then (key, Some(RuleName(names, key).value)) else (0, None))
      ensures routeEntity !in routeRules && routeEntity !in routes ==> r == Success((DisabledEntryKey, Some(DisabledEntryName)))
      ensures routeEntity !in routeRules && routeEntity in routes ==>
        match routes[routeEntity].lineType
        case None => r.Failure?
        case Some(t) =>
          if RulesDisabledFor(config, t) then r == Success((DisabledEntryKey, Some(DisabledEntryName)))
          else r == Success((Code(t), Some(Name(t))))
    {
      if routeEntity in routeRules then
        var key := routeRules[routeEntity].customRule;
        Success(NamedOrDefault(key))
      else if routeEntity in routes then
        match routes[routeEntity].lineType
        case None => Failure("TransportLineData missing")
        case Some(t) =>
          if !RulesDisabledFor(config, t) then
            var defaultId := Code(t);
            Success((defaultId, Some(RuleName(names, defaultId).GetOr(Name(t)))))
          else Success(NamedOrDefault(DisabledEntryKey))
      else Success(NamedOrDefault(DisabledEntryKey))
    }

    function NamedOrDefault(key: int): (int, Option<string>) {
      match RuleName(names, key)
      case Some(n) => (key, Some(n))
      case None => (0, None)
    }

    /** GetRouteRules: the entries a route may choose, ascending by key; only
        Disabled for a type the rule selector treats as disabled. */
    function GetRouteRules(routeEntity: Entity, config: SettingsState): (r: seq<(int, string)>)
      reads this
      ensures routeEntity !in routes || routes[routeEntity].lineType.None? ==> r == []
      ensures routeEntity in routes && routes[routeEntity].lineType.Some? ==>
        var t := routes[routeEntity].lineType.value;
        && (RulesDisabledFor(config, t) ==> forall e :: e in r <==> e == (DisabledEntryKey, DisabledEntryName))
        && (!RulesDisabledFor(config, t) ==> forall e :: e in r <==> e in RuleNameEntries(names) && Offered(Code(t), e.0))
        && KeysAscend(r)
    {
      if routeEntity !in routes then []
      else match routes[routeEntity].lineType
        case None => []
        case Some(t) =>
          if RulesDisabledFor(config, t) then
            var r := FilterKeys(RuleNameEntries(names), key => key == DisabledEntryKey);
            assert (DisabledEntryKey, DisabledEntryName) in RuleNameEntries(names);
            r
          else FilterKeys(RuleNameEntries(names), key => Offered(Code(t), key))
    }

    /** GetCustomRule: the values of the first rule with this id, else the default. */
    function GetCustomRule(ruleId: Hash128): (f: RuleFields)
      reads this
      ensures ruleId !in RuleIds(rules) ==> f == DefaultFields
      ensures ruleId in RuleIds(rules) ==> exists r :: r in rules && r.ruleId == ruleId && f == FieldsOf(r)
      ensures ruleId in RuleIds(rules) ==> FindRule(rules, ruleId) >= 0 && f == FieldsOf(rules[FindRule(rules, ruleId)])
    {
      InIds(rules, ruleId);
      Lookup(rules, ruleId)
    }

    /** SetCustomRule: overwrites the seven values of the first rule with this id; the
        id, every other rule and the bindings stay as they were. A missing id changes
        nothing (the warning it logs is not modelled). */
    method SetCustomRule(ruleId: Hash128, ruleName: FixedString64, occupancy: int, stdTicket: int,
                         maxTicketInc: int, maxTicketDec: int, maxVehAdj: int, minVehAdj: int)
      modifies this
      ensures rules == Update(old(rules), ruleId,
                              RuleFields(ruleName, occupancy, stdTicket, maxTicketInc, maxTicketDec, maxVehAdj, minVehAdj))
      ensures routeRules == old(routeRules) && routeRuleRequests == old(routeRuleRequests)
      ensures old(Valid()) ==> Valid()
    {
      var f := RuleFields(ruleName, occupancy, stdTicket, maxTicketInc, maxTicketDec, maxVehAdj, minVehAdj);
      if Valid() {
        OperationsKeepUniqueIds(rules, ruleId, f, NewCustomRule(ruleId, ruleName, 0, 0, 0, 0, 0, 0));
      }
      var i := 0;
      while i < |rules|
        invariant 0 <= i <= |rules|
        invariant rules == old(rules)
        invariant forall j :: 0 <= j < i ==> rules[j].ruleId != ruleId
      {
        if rules[i].ruleId == ruleId {
          rules := rules[i := WithFields(rules[i], f)];
          return;
        }
        i := i + 1;
      }
    }

    /** AddCustomRule: creates one entity with a new CustomRule holding the given
        values and a fresh id (the random Guid, supplied by the caller). */
    method AddCustomRule(freshId: Hash128, ruleName: FixedString64, occupancy: int, stdTicket: int,
                         maxTicketInc: int, maxTicketDec: int, maxVehAdj: int, minVehAdj: int)
      requires freshId !in RuleIds(rules)
      modifies this
      ensures rules == old(rules) + [NewCustomRule(freshId, ruleName, occupancy, stdTicket,
                                                   maxTicketInc, maxTicketDec, maxVehAdj, minVehAdj)]
      ensures routeRules == old(routeRules) && routeRuleRequests == old(routeRuleRequests)
      ensures old(Valid()) ==> Valid()
    {
      var r := NewCustomRule(freshId, ruleName, occupancy, stdTicket, maxTicketInc, maxTicketDec, maxVehAdj, minVehAdj);
      if Valid() {
        OperationsKeepUniqueIds(rules, freshId, FieldsOf(r), r);
      }
      rules := rules + [NewCustomRule(freshId, ruleName, occupancy, stdTicket, maxTicketInc, maxTicketDec, maxVehAdj, minVehAdj)];
    }

    /** RemoveCustomRule: destroys the first entity whose rule has this id, if any. */
    method RemoveCustomRule(ruleId: Hash128)
      modifies this
      ensures rules == Remove(old(rules), ruleId)
      ensures routeRules == old(routeRules) && routeRuleRequests == old(routeRuleRequests)
      ensures old(Valid()) ==> Valid()
    {
      var i := 0;
      while i < |rules|
        invariant 0 <= i <= |rules|
        invariant rules == old(rules)
        invariant forall j :: 0 <= j < i ==> rules[j].ruleId != ruleId
      {
        if rules[i].ruleId == ruleId {
          rules := rules[..i] + rules[i + 1..];
          break;
        }
        i := i + 1;
      }
      if old(Valid()) {
        OperationsKeepUniqueIds(old(rules), ruleId, DefaultFields, NewCustomRule(ruleId, "", 0, 0, 0, 0, 0, 0));
      }
    }

    /** GetCustomRules: one row per stored rule, in store order. */
    function GetCustomRules(): (rows: seq<RuleRow>)
      reads this
      ensures |rows| == |rules|
      ensures forall i :: 0 <= i < |rows| ==> rows[i].ruleId == rules[i].ruleId && rows[i].fields == FieldsOf(rules[i])
    {
      seq(|rules|, i requires 0 <= i < |rules| reads this => RuleRow(rules[i].ruleId, FieldsOf(rules[i])))
    }

    /** SetRouteRuleForRoute, called by the bridge; its body is not part of this model,
        so the call is recorded. */
    method SetRouteRuleForRoute(transportType: string, routeNumber: int, ruleId: Option<Hash128>)
      modifies this
      ensures routeRuleRequests == old(routeRuleRequests) + [RouteRuleRequest(transportType, routeNumber, ruleId)]
      ensures rules == old(rules) && routeRules == old(routeRules)
    {
      routeRuleRequests := routeRuleRequests + [RouteRuleRequest(transportType, routeNumber, ruleId)];
    }
  }

  /** The registry's id invariant is kept by every mutating operation. */
  lemma OperationsKeepUniqueIds(rules: seq<CustomRule>, id: Hash128, f: RuleFields, r: CustomRule)
    requires UniqueIds(rules)
    ensures UniqueIds(Update(rules, id, f))
    ensures UniqueIds(Remove(rules, id))
    ensures r.ruleId !in RuleIds(rules) ==> UniqueIds(rules + [r])
  {
    var u := Update(rules, id, f);
    UpdateThenLookup(rules, id, f, id);
    assert forall j :: 0 <= j < |rules| ==> u[j].ruleId == rules[j].ruleId;
    RemoveProperties(rules, id, id);
    if r.ruleId !in RuleIds(rules) {
      AddThenLookup(rules, r, id);
    }
  }
}
