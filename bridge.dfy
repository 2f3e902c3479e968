/** ManageRouteBridge: the static entry points the UI systems use to reach the
    rule registry. */
module Bridge {
  import opened Wrappers
  import opened Ids
  import opened Text
  import opened Components
  import opened ManageRoute

  /** One route as the registry hands it to the UI; its strings may be null. */
  datatype RouteForUI = RouteForUI(
    routeNumber: int,
    routeName: Option<string>,
    transportType: Option<string>,
    ruleName: Option<string>,
    ruleId: Hash128)

  /** The id the bridge forwards for a rule id text: none for a null or empty text,
      none when the text does not parse (the caught exception), else the parsed id. */
  function RuleIdFromText(ruleIdString: Option<string>): (r: Option<Hash128>)
    ensures IsNullOrEmpty(ruleIdString) ==> r.None?
    ensures r.Some? ==> ruleIdString.Some? && Parse(ruleIdString.value) == r
    ensures ruleIdString.Some? && !IsNullOrEmpty(ruleIdString) ==> r == Parse(ruleIdString.value)
  {
    if IsNullOrEmpty(ruleIdString) then None
    else match Parse(ruleIdString.value)
      case None => None
      case Some(id) => Some(id)
  }

  /** The text form of every id comes back as that id; a text that is not an id's
      form (wrong length or a non-hex character) becomes "no rule". */
  lemma RuleIdFromTextOfId(id: Hash128, bad: string)
    ensures RuleIdFromText(Some(ToText(id))) == Some(id)
    ensures (|bad| != HashDigits || exists i :: 0 <= i < |bad| && !IsHexChar(bad[i])) ==> RuleIdFromText(Some(bad)).None?
  {
    ParseToText(id);
  }

  /** SetRouteRuleForRoute: nothing when the registry is unavailable; otherwise the
      call is forwarded with the parsed id, or with none. */
  method SetRouteRuleForRoute(system: ManageRouteSystem?, transportType: string, routeNumber: int, ruleIdString: Option<string>)
    modifies system
    ensures system != null ==>
      system.routeRuleRequests == old(system.routeRuleRequests) + [RouteRuleRequest(transportType, routeNumber, RuleIdFromText(ruleIdString))]
    ensures system != null ==> system.rules == old(system.rules) && system.routeRules == old(system.routeRules)
  {
    if system == null {
      return;
    }
    var ruleId: Option<Hash128> := None;
    if !IsNullOrEmpty(ruleIdString) {
      match Parse(ruleIdString.value)
      case Some(id) => ruleId := Some(id);
      case None => ruleId := None;
    }
    system.SetRouteRuleForRoute(transportType, routeNumber, ruleId);
  }

  /** GetRoutesForUI: a new array copying the registry's routes field by field, in
      order; an empty array for a null or empty list. */
  method GetRoutesForUI(routes: Option<array<RouteForUI>>) returns (result: array<RouteForUI>)
    ensures fresh(result)
    ensures routes.None? ==> result.Length == 0
    ensures routes.Some? ==> result.Length == routes.value.Length
    ensures routes.Some? ==> forall i :: 0 <= i < result.Length ==> result[i] == routes.value[i]
  {
    if routes.None? || routes.value.Length == 0 {
      return new RouteForUI[0];
    }
    var source := routes.value;
    result := new RouteForUI[source.Length](_ => RouteForUI(0, None, None, None, DefaultHash));
    for i := 0 to source.Length
      invariant forall j :: 0 <= j < i ==> result[j] == source[j]
    {
      var r := source[i];
      result[i] := RouteForUI(r.routeNumber, r.routeName, r.transportType, r.ruleName, r.ruleId);
    }
  }

  /** AddCustomRule (no arguments): adds a rule with an empty name and zero values
      and returns its id, which is the fresh id supplied by the caller. The registry
      overload this forwards to is not among the registry's members; the blank values
      follow the bridge's own description ("default values"). */
  method AddCustomRule(system: ManageRouteSystem, freshId: Hash128) returns (ruleId: Hash128)
    requires freshId !in RuleIds(system.rules)
    modifies system
    ensures ruleId == freshId
    ensures system.rules == old(system.rules) + [NewCustomRule(freshId, "", 0, 0, 0, 0, 0, 0)]
    ensures system.routeRules == old(system.routeRules) && system.routeRuleRequests == old(system.routeRuleRequests)
    ensures old(system.Valid()) ==> system.Valid()
  {
    system.AddCustomRule(freshId, "", 0, 0, 0, 0, 0, 0);
    ruleId := freshId;
  }

  /** SetCustomRule with a string name: the conversion to the 64-byte fixed string
      throws for a name that does not fit, and then nothing changes. */
  method SetCustomRule(system: ManageRouteSystem, ruleId: Hash128, ruleName: string, occupancy: int, stdTicket: int,
                       maxTicketInc: int, maxTicketDec: int, maxVehAdj: int, minVehAdj: int)
    returns (ok: bool)
    modifies system
    ensures ok <==> ToFixedString64(ruleName).Some?
    ensures ok ==> system.rules == Update(old(system.rules), ruleId,
      RuleFields(ruleName, occupancy, stdTicket, maxTicketInc, maxTicketDec, maxVehAdj, minVehAdj))
    ensures !ok ==> system.rules == old(system.rules)
    ensures system.routeRules == old(system.routeRules) && system.routeRuleRequests == old(system.routeRuleRequests)
    ensures old(system.Valid()) ==> system.Valid()
  {
    match ToFixedString64(ruleName)
    case None =>
      ok := false;
    case Some(name) =>
      system.SetCustomRule(ruleId, name, occupancy, stdTicket, maxTicketInc, maxTicketDec, maxVehAdj, minVehAdj);
      ok := true;
  }
}
