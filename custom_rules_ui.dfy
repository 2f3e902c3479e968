/** CustomRulesUISystem: the rules list the custom-rules panel shows, and the
    delete trigger that panel calls. */
module CustomRulesUI {
  import opened Wrappers
  import opened Ids
  import opened Text
  import opened Settings
  import opened Components
  import opened ManageRoute
  import Domain

  // ---------------------------------------------------------------------------
  // Which stored rules the panel shows.

  /** A rule named after a transport type is left out of the list while that type is
      disabled in the settings; a rule named "Ferry" is never left out. */
  predicate Hidden(name: string, s: SettingsState) {
    || (name == "Bus" && s.bus.disabled)
    || (name == "Tram" && s.tram.disabled)
    || (name == "Subway" && s.subway.disabled)
    || (name == "Train" && s.train.disabled)
    || (name == "Ship" && s.ship.disabled)
    || (name == "Airplane" && s.airplane.disabled)
  }

  /** The registry rows the panel shows, in registry order. */
  function VisibleRows(rows: seq<RuleRow>, s: SettingsState): (vs: seq<RuleRow>)
    ensures |vs| <= |rows|
  {
    if rows == [] then []
    else
      var last := rows[|rows| - 1];
      VisibleRows(rows[..|rows| - 1], s) + (if Hidden(last.fields.ruleName, s) then [] else [last])
  }

  /** One more row of the registry adds that row to the list unless it is hidden. */
  lemma VisibleRowsStep(rows: seq<RuleRow>, i: int, s: SettingsState)
    requires 0 <= i < |rows|
    ensures VisibleRows(rows[..i + 1], s)
      == VisibleRows(rows[..i], s) + (if Hidden(rows[i].fields.ruleName, s) then [] else [rows[i]])
  {
    assert rows[..i + 1][..i] == rows[..i];
  }

  /** A row is shown exactly when it is stored and its name is not hidden. */
  lemma {:induction false} VisibleRowsMembers(rows: seq<RuleRow>, s: SettingsState, row: RuleRow)
    ensures row in VisibleRows(rows, s) <==> row in rows && !Hidden(row.fields.ruleName, s)
  {
    if rows != [] {
      var front := rows[..|rows| - 1];
      VisibleRowsMembers(front, s, row);
      assert rows == front + [rows[|rows| - 1]];
    }
  }

  /** With no transport type disabled every stored rule is shown, in order. */
  lemma {:induction false} NothingDisabledShowsAll(rows: seq<RuleRow>, s: SettingsState)
    requires !s.bus.disabled && !s.tram.disabled && !s.subway.disabled
    requires !s.train.disabled && !s.ship.disabled && !s.airplane.disabled
    ensures VisibleRows(rows, s) == rows
  {
    if rows != [] {
      NothingDisabledShowsAll(rows[..|rows| - 1], s);
      assert rows == rows[..|rows| - 1] + [rows[|rows| - 1]];
    }
  }

  /** The list entry shows exactly the values of the registry row. */
  predicate Shows(c: Domain.CustomRule, row: RuleRow) {
    && c.ruleId == row.ruleId
    && c.ruleName == row.fields.ruleName
    && c.occupancy == row.fields.occupancy
    && c.stdTicket == row.fields.stdTicket
    && c.maxTicketInc == row.fields.maxTicketInc
    && c.maxTicketDec == row.fields.maxTicketDec
    && c.maxVehAdj == row.fields.maxVehAdj
    && c.minVehAdj == row.fields.minVehAdj
  }

  // ---------------------------------------------------------------------------
  // Finding a listed rule by its id text.

  /** The index of the first listed rule whose id prints as `text`, or -1. */
  function FindListed(items: seq<Domain.CustomRule>, text: string): (k: int)
    ensures -1 <= k < |items|
    ensures k >= 0 ==> ToText(items[k].ruleId) == text
    ensures k >= 0 ==> forall j :: 0 <= j < k ==> ToText(items[j].ruleId) != text
    ensures k == -1 <==> forall j :: 0 <= j < |items| ==> ToText(items[j].ruleId) != text
  {
    if items == [] then -1
    else if ToText(items[0].ruleId) == text then 0
    else
      var k := FindListed(items[1..], text);
      if k < 0 then -1 else k + 1
  }

  /** A text that names a listed rule always parses back to that rule's id, so the
      delete trigger's parse failure is only reachable for a text not in the list. */
  lemma ListedTextParses(items: seq<Domain.CustomRule>, text: string)
    requires FindListed(items, text) >= 0
    ensures Parse(text) == Some(items[FindListed(items, text)].ruleId)
  {
    ParseToText(items[FindListed(items, text)].ruleId);
  }

  /** The names of the built-in rules, which the delete trigger refuses to remove. */
  predicate BuiltInName(name: string) {
    name in {"Bus", "Tram", "Train", "Subway", "Ship", "Airplane", "Ferry"}
  }

  /** Every name the list can hide is a built-in name. */
  lemma HiddenIsBuiltIn(name: string, s: SettingsState)
    requires Hidden(name, s)
    ensures BuiltInName(name) && name != "Ferry"
  {
  }

  // ---------------------------------------------------------------------------
  // The system.

  class CustomRulesUISystem {
    /** The registry the bridge reaches; null while the game world does not exist. */
    const registry: ManageRouteSystem?
    /** The cached list last sent to the panel. */
    const customRules: Domain.CustomRules

    constructor (registry: ManageRouteSystem?)
      ensures this.registry == registry && fresh(customRules) && customRules.items == []
    {
      this.registry := registry;
      customRules := new Domain.CustomRules();
    }

    /** GetCustomRulesJson: rebuilds the cached list from the registry's rules, leaving
        out the rules hidden by the settings, and writes it as a JSON array. Without a
        registry the list has already been cleared when reading the rules throws, and
        nothing is written. */
    method GetCustomRulesJson(settings: SettingsState, writer: Domain.JsonWriter)
      modifies customRules, writer
      ensures registry == null ==> customRules.items == [] && writer.tokens == old(writer.tokens)
      ensures registry != null ==>
        var vs := VisibleRows(registry.GetCustomRules(), settings);
        && |customRules.items| == |vs|
        && forall i :: 0 <= i < |vs| ==> Shows(customRules.items[i], vs[i])
      ensures registry != null ==>
        writer.tokens == old(writer.tokens) + Domain.ArrayTokens(customRules.ElementTokens())
    {
      customRules.items := [];
      if registry == null {
        return;
      }
      var rows := registry.GetCustomRules();
      for i := 0 to |rows|
        invariant writer.tokens == old(writer.tokens)
        invariant var vs := VisibleRows(rows[..i], settings);
          && |customRules.items| == |vs|
          && forall j :: 0 <= j < |vs| ==> Shows(customRules.items[j], vs[j])
      {
        VisibleRowsStep(rows, i, settings);
        var rule := rows[i];
        var ruleName := rule.fields.ruleName;
        if Hidden(ruleName, settings) {
          continue;
        }
        var entry := new Domain.CustomRule(rule.ruleId, ruleName, rule.fields.occupancy, rule.fields.stdTicket,
          rule.fields.maxTicketInc, rule.fields.maxTicketDec, rule.fields.maxVehAdj, rule.fields.minVehAdj);
        customRules.items := customRules.items + [entry];
      }
      assert rows[..|rows|] == rows;
      customRules.Write(writer);
    }

    /** DeleteCustomRule: ignores a blank id, an id not in the cached list and a
        built-in rule; otherwise removes the rule from the registry and from the
        cached list. Without a registry the removal throws, the exception is caught
        and the list is kept. */
    method DeleteCustomRule(ruleId: Option<string>)
      modifies registry, customRules
      ensures registry == null ==> customRules.items == old(customRules.items)
      ensures registry != null ==>
        var k := FindListed(old(customRules.items), OrEmpty(ruleId));
        if IsNullOrWhiteSpace(ruleId) || k < 0 || BuiltInName(old(customRules.items)[k].ruleName) then
          registry.rules == old(registry.rules) && customRules.items == old(customRules.items)
        else
          && registry.rules == Remove(old(registry.rules), old(customRules.items)[k].ruleId)
          && customRules.items == old(customRules.items)[..k] + old(customRules.items)[k + 1..]
      ensures registry != null ==> registry.routeRules == old(registry.routeRules)
      ensures registry != null ==> registry.routeRuleRequests == old(registry.routeRuleRequests)
      ensures registry != null ==> old(registry.Valid()) ==> registry.Valid()
    {
      if IsNullOrWhiteSpace(ruleId) {
        return;
      }
      var text := ruleId.value;
      assert OrEmpty(ruleId) == text;
      var found := FindListed(customRules.items, text);
      if found < 0 {
        return;
      }
      var rule := customRules.items[found];
      if BuiltInName(rule.ruleName) {
        return;
      }
      ListedTextParses(customRules.items, text);
      match Parse(text) {
        case None =>
          return;
        case Some(parsedId) =>
          if registry == null {
            return;
          }
          assert parsedId == rule.ruleId;
          RemoveProperties(registry.rules, parsedId, parsedId);
          registry.RemoveCustomRule(parsedId);
      }
      assert customRules.items == old(customRules.items);
      var index := FindListed(customRules.items, text);
      assert index == found;
      if index >= 0 {
        customRules.items := customRules.items[..index] + customRules.items[index + 1..];
      }
    }
  }

  /** After a delete of a listed, non-built-in rule under unique ids, its id is gone
      from the registry and every other rule reads as before. */
  lemma DeleteRemovesOnlyThatRule(rules: seq<CustomRule>, items: seq<Domain.CustomRule>, text: string, other: Hash128)
    requires UniqueIds(rules)
    requires FindListed(items, text) >= 0
    ensures var id := items[FindListed(items, text)].ruleId;
      && id !in RuleIds(Remove(rules, id))
      && (other != id ==> Lookup(Remove(rules, id), other) == Lookup(rules, other))
  {
    var id := items[FindListed(items, text)].ruleId;
    RemoveProperties(rules, id, other);
  }
}
