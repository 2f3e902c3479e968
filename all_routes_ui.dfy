/** AllRoutesUISystem: the routes list and the disabled transport types the routes
    panel reads, and the trigger that assigns a rule to a route. */
module AllRoutesUI {
  import opened Wrappers
  import opened Ids
  import opened Text
  import opened Settings
  import opened ManageRoute
  import opened Bridge
  import Domain

  /** The list entry shows the route's values, with a null string shown as "". */
  predicate Shows(info: Domain.RouteInfo, r: RouteForUI)
    reads info
  {
    && info.routeNumber == r.routeNumber
    && info.routeName == OrEmpty(r.routeName)
    && info.transportType == OrEmpty(r.transportType)
    && info.ruleName == OrEmpty(r.ruleName)
    && info.ruleId == r.ruleId
  }

  /** The id text the panel receives for a route is the one the bridge turns back
      into that route's id when the panel sends it with setRouteRuleForRoute. */
  lemma WrittenRuleIdRoundTrip(info: Domain.RouteInfo)
    ensures var ts := info.Tokens();
      && ts[10].StringValue?
      && RuleIdFromText(Some(ts[10].s)) == Some(info.ruleId)
  {
    Domain.RouteInfoTokensShape(info);
    RuleIdFromTextOfId(info.ruleId, "");
  }

  /** The trigger's guards: a blank transport type, a route number that is not
      positive or a blank rule id is refused before anything is forwarded. */
  predicate Accepted(transportType: Option<string>, routeNumber: int, ruleId: Option<string>) {
    !IsNullOrWhiteSpace(transportType) && routeNumber > 0 && !IsNullOrWhiteSpace(ruleId)
  }

  class AllRoutesUISystem {
    /** The registry the bridge reaches; null while the game world does not exist. */
    const registry: ManageRouteSystem?
    /** The cached routes list last sent to the panel. */
    const routeInfos: Domain.RouteInfos
    /** The flags last sent to the panel. */
    var disabledTransportTypes: Domain.DisabledTransportTypes
    /** How often the routes binding was asked to refresh. */
    var routeInfosRefreshes: nat

    constructor (registry: ManageRouteSystem?)
      ensures this.registry == registry && fresh(routeInfos) && routeInfos.items == []
      ensures fresh(disabledTransportTypes) && routeInfosRefreshes == 0
    {
      this.registry := registry;
      routeInfos := new Domain.RouteInfos();
      disabledTransportTypes := new Domain.DisabledTransportTypes();
      routeInfosRefreshes := 0;
    }

    /** WriteRouteInfos: rebuilds the cached list with one entry per route the bridge
        returns, in order, and writes it as a JSON array; with no routes the array is
        empty. `systemRoutes` is what the registry's GetRoutesForUI returns. Without a
        registry the list has already been cleared when the bridge throws, and nothing
        is written. */
    method WriteRouteInfos(systemRoutes: Option<array<RouteForUI>>, writer: Domain.JsonWriter)
      modifies routeInfos, writer
      ensures registry == null ==> routeInfos.items == [] && writer.tokens == old(writer.tokens)
      ensures registry != null && systemRoutes.None? ==> routeInfos.items == []
      ensures registry != null && systemRoutes.Some? ==>
        && |routeInfos.items| == systemRoutes.value.Length
        && forall i :: 0 <= i < |routeInfos.items| ==> Shows(routeInfos.items[i], systemRoutes.value[i])
      ensures registry != null ==>
        writer.tokens == old(writer.tokens) + Domain.ArrayTokens(routeInfos.ElementTokens())
    {
      routeInfos.items := [];
      if registry == null {
        return;
      }
      var routes := GetRoutesForUI(systemRoutes);
      for i := 0 to routes.Length
        invariant writer.tokens == old(writer.tokens)
        invariant systemRoutes.Some? ==> routes.Length == systemRoutes.value.Length
        invariant systemRoutes.Some? ==> forall j :: 0 <= j < routes.Length ==> routes[j] == systemRoutes.value[j]
        invariant |routeInfos.items| == i
        invariant forall j :: 0 <= j < i ==> Shows(routeInfos.items[j], routes[j])
      {
        var r := routes[i];
        var info := new Domain.RouteInfo(r.routeNumber, OrEmpty(r.routeName), OrEmpty(r.transportType),
                                         OrEmpty(r.ruleName), r.ruleId);
        routeInfos.items := routeInfos.items + [info];
      }
      routeInfos.Write(writer);
    }

    /** WriteDisabledTransportTypes: replaces the flags with a fresh copy of the seven
        disable toggles and writes that object. */
    method WriteDisabledTransportTypes(settings: SettingsState, writer: Domain.JsonWriter)
      modifies this, writer
      ensures fresh(disabledTransportTypes)
      ensures var d := disabledTransportTypes;
        && d.bus == settings.bus.disabled && d.tram == settings.tram.disabled
        && d.subway == settings.subway.disabled && d.train == settings.train.disabled
        && d.ship == settings.ship.disabled && d.airplane == settings.airplane.disabled
        && d.ferry == settings.ferry.disabled
      ensures writer.tokens == old(writer.tokens) + disabledTransportTypes.Tokens()
      ensures routeInfosRefreshes == old(routeInfosRefreshes)
    {
      disabledTransportTypes := Domain.DisabledTransportTypes.FromSettings(settings);
      disabledTransportTypes.Write(writer);
    }

    /** SetRouteRuleForRouteFromUI: refused inputs change nothing; an accepted request
        is forwarded through the bridge (which drops it when the registry is
        unavailable) and the routes binding is refreshed. */
    method SetRouteRuleForRouteFromUI(transportType: Option<string>, routeNumber: int, ruleId: Option<string>)
      modifies this, registry
      ensures !Accepted(transportType, routeNumber, ruleId) ==>
        routeInfosRefreshes == old(routeInfosRefreshes)
        && (registry != null ==> registry.routeRuleRequests == old(registry.routeRuleRequests))
      ensures Accepted(transportType, routeNumber, ruleId) ==>
        routeInfosRefreshes == old(routeInfosRefreshes) + 1
        && (registry != null ==>
              registry.routeRuleRequests == old(registry.routeRuleRequests)
                + [RouteRuleRequest(transportType.value, routeNumber, RuleIdFromText(ruleId))])
      ensures registry != null ==> registry.rules == old(registry.rules) && registry.routeRules == old(registry.routeRules)
      ensures disabledTransportTypes == old(disabledTransportTypes)
    {
      if IsNullOrWhiteSpace(transportType) {
        return;
      }
      if routeNumber <= 0 {
        return;
      }
      if IsNullOrWhiteSpace(ruleId) {
        return;
      }
      SetRouteRuleForRoute(registry, transportType.value, routeNumber, ruleId);
      routeInfosRefreshes := routeInfosRefreshes + 1;
    }
  }

  /** An accepted request never forwards "no rule" because of a blank id: the id it
      forwards is exactly the parse of the text the panel sent. */
  lemma AcceptedForwardsParsedId(transportType: Option<string>, routeNumber: int, ruleId: Option<string>)
    requires Accepted(transportType, routeNumber, ruleId)
    ensures RuleIdFromText(ruleId) == Parse(ruleId.value)
  {
    assert ruleId.value != "" by {
      if ruleId.value == "" {
        assert IsNullOrWhiteSpace(ruleId);
      }
    }
  }
}
