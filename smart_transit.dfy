/** SmartTransitSystem: the periodic pass over every transit line that reads the
    line's load, sets its ticket price and vehicle count, and posts a chirp for a
    crowded stop, with a latch per stop so the same stop is not announced again
    until it has cooled down. */
module SmartTransit {
  import opened Wrappers
  import opened Ids
  import opened Transport
  import opened Settings
  import opened Components
  import opened ManageRoute
  import opened TransitControl

  // ---------------------------------------------------------------------------
  // What the pass reads and writes.

  /** A transit line as the pass reads it. `maxVehicles`, `minVehicles` and
      `setVehicles` are the counts the game derives from the vehicle-count policy
      range and the current vehicle interval. */
  datatype Route = Route(
    entity: Entity,
    number: int,
    transportType: TransportType,
    routeRule: Option<RouteRule>,
    models: seq<Entity>,
    vehicles: seq<PassengerBuffer>,
    waypoints: seq<Waypoint>,
    maxVehicles: int,
    minVehicles: int,
    setVehicles: int)

  /** The two policy writes for one line: the ticket price (enabled exactly when
      positive) and the vehicle count behind the vehicle-interval slider. */
  datatype PolicyWrite = PolicyWrite(route: Entity, ticketEnabled: bool, ticketPrice: int, vehicles: int)

  /** A posted chirp: the clickable stop, the line it belongs to and the queue size. */
  datatype Chirp = Chirp(stop: Entity, transportType: TransportType, routeNumber: int, waiting: int)

  // ---------------------------------------------------------------------------
  // Which lines are adjusted.

  /** The disable toggle of the line's type; ferries and other types have none here. */
  predicate TypeDisabled(t: TransportType, s: SettingsState) {
    match t
    case Bus => s.bus.disabled
    case Tram => s.tram.disabled
    case Subway => s.subway.disabled
    case Train => s.train.disabled
    case Ship => s.ship.disabled
    case Airplane => s.airplane.disabled
    case _ => false
  }

  /** What the pass has measured on a line it goes on to adjust. */
  datatype Reading = Reading(
    capacity: int,
    emptyVehicles: nat,
    maxStopWaiting: int,
    busiestStop: Entity,
    ratio: Load,
    terms: Terms)

  /** The reading of a line, or `None` when the pass skips it: a line bound to the
      "disabled" key, a line whose type is disabled (with or without a rule), a line
      with no usable primary prefab or no vehicles, and a line without a rule whose
      type has no default terms. */
  function Measure(r: Route, prefabs: map<Entity, VehiclePrefab>, s: SettingsState, rules: seq<CustomRule>): Option<Reading> {
    if r.routeRule.Some? && r.routeRule.value.customRule == DisabledKey then None
    else if TypeDisabled(r.transportType, s) then None
    else if r.models == [] then None
    else
      var primary := FirstNonNull(r.models);
      if primary == Null || primary !in prefabs then None
      else if r.vehicles == [] then None
      else
        var capacity := EffectiveCapacity(prefabs[primary]);
        var (m, b) := Busiest(r.waypoints);
        var ratio := LoadRatio(Passengers(r.vehicles), TotalWaiting(r.waypoints), s.waitingTimeWeight, capacity, |r.vehicles|);
        match RouteTerms(r.routeRule, r.transportType, s, rules, r.maxVehicles, r.minVehicles)
        case None => None
        case Some(t) => Some(Reading(capacity, EmptyVehicles(r.vehicles), m, b, ratio, t))
  }

  /** The policy writes for a line: none when it is skipped, else the decided price
      and vehicle count. */
  function Evaluate(r: Route, prefabs: map<Entity, VehiclePrefab>, s: SettingsState, rules: seq<CustomRule>): Option<PolicyWrite> {
    match Measure(r, prefabs, s, rules)
    case None => None
    case Some(m) =>
      var price := PriceOf(m.ratio, m.terms.occupancy, s.threshold, m.terms.standardTicket);
      Some(PolicyWrite(r.entity, price > 0, price, VehiclesOf(m.ratio, m.terms, s.threshold, r.setVehicles, m.emptyVehicles)))
  }

  /** The writes of a whole pass, line by line in query order. */
  function Writes(routes: seq<Route>, prefabs: map<Entity, VehiclePrefab>, s: SettingsState, rules: seq<CustomRule>): seq<PolicyWrite> {
    if routes == [] then []
    else
      var last := routes[|routes| - 1];
      Writes(routes[..|routes| - 1], prefabs, s, rules)
        + (match Evaluate(last, prefabs, s, rules) case None => [] case Some(w) => [w])
  }

  /** A line bound to the "disabled" key, or of a disabled type, is never written. */
  lemma SkippedLinesUntouched(r: Route, prefabs: map<Entity, VehiclePrefab>, s: SettingsState, rules: seq<CustomRule>)
    requires (r.routeRule.Some? && r.routeRule.value.customRule == DisabledKey) || TypeDisabled(r.transportType, s)
    ensures Evaluate(r, prefabs, s, rules).None?
  {
  }

  /** Every write of a pass is the write of one of its lines, and the ticket policy is
      enabled exactly when the price is positive. */
  lemma {:induction false} WritesCome(routes: seq<Route>, prefabs: map<Entity, VehiclePrefab>, s: SettingsState,
                                      rules: seq<CustomRule>, w: PolicyWrite)
    requires w in Writes(routes, prefabs, s, rules)
    ensures exists i :: 0 <= i < |routes| && Evaluate(routes[i], prefabs, s, rules) == Some(w)
    ensures w.ticketEnabled <==> w.ticketPrice > 0
  {
    var front := routes[..|routes| - 1];
    var last := routes[|routes| - 1];
    if w in Writes(front, prefabs, s, rules) {
      WritesCome(front, prefabs, s, rules, w);
      var i :| 0 <= i < |front| && Evaluate(front[i], prefabs, s, rules) == Some(w);
      assert routes[i] == front[i];
    } else {
      assert Evaluate(routes[|routes| - 1], prefabs, s, rules) == Some(w);
    }
  }

  // ---------------------------------------------------------------------------
  // The busy-stop latch.

  /** The stop is latched: it was announced and has not cooled down since. */
  predicate Latched(alerted: map<Entity, bool>, stop: Entity) {
    stop in alerted && alerted[stop]
  }

  /** The latch after one line: armed when the stop should be announced and is not
      latched; cleared when it should not, is latched, its queue is at most the exit
      level and the line is not over target; otherwise as it was. */
  function Latch(alerted: map<Entity, bool>, stop: Entity, isBusy: bool, overTarget: bool, belowExit: bool): map<Entity, bool> {
    var should := isBusy || overTarget;
    var already := Latched(alerted, stop);
    if should && !already then alerted[stop := true]
    else if !should && already && belowExit && !overTarget then alerted - {stop}
    else alerted
  }

  /** The alert state carried from line to line: the latch, the chirps posted so far
      in this pass and their number. */
  datatype AlertState = AlertState(alerted: map<Entity, bool>, posted: seq<Chirp>, numAlerts: nat)

  /** The alert step for one line. It runs only when chirps are on, a busiest stop
      exists and the pass has not used up its alerts; it posts exactly when the stop
      is busy and not latched. */
  function AlertStep(st: AlertState, limit: nat, chirpsOn: bool, stop: Entity, isBusy: bool, overTarget: bool,
                     belowExit: bool, chirp: Chirp): AlertState {
    if !(chirpsOn && stop != Null && st.numAlerts < limit) then st
    else
      var posts := isBusy && !Latched(st.alerted, stop);
      AlertState(Latch(st.alerted, stop, isBusy, overTarget, belowExit),
                 st.posted + (if posts then [chirp] else []),
                 if posts then st.numAlerts + 1 else st.numAlerts)
  }

  /** A stop that should be announced ends up latched, and the latch only ever holds
      true. */
  lemma LatchArms(alerted: map<Entity, bool>, stop: Entity, isBusy: bool, overTarget: bool, belowExit: bool)
    requires isBusy || overTarget
    ensures Latched(Latch(alerted, stop, isBusy, overTarget, belowExit), stop)
  {
  }

  /** A latched stop is released only when it is no longer busy, the line is not
      over target and the queue is at most the exit level. */
  lemma LatchReleasesOnlyWhenCool(alerted: map<Entity, bool>, stop: Entity, isBusy: bool, overTarget: bool, belowExit: bool)
    requires Latched(alerted, stop)
    requires !Latched(Latch(alerted, stop, isBusy, overTarget, belowExit), stop)
    ensures !isBusy && !overTarget && belowExit
  {
  }

  /** Hysteresis: with the queue strictly between the exit level and the enter level
      and the line not over target, the latch does not move. */
  lemma LatchHoldsInBand(alerted: map<Entity, bool>, stop: Entity, waiting: int, capacity: int,
                         enterPct: real, exitPct: real)
    requires capacity as real * exitPct < waiting as real < capacity as real * enterPct
    ensures Latch(alerted, stop, waiting as real >= capacity as real * enterPct, false,
                  waiting as real <= capacity as real * exitPct) == alerted
  {
  }

  /** The latch of every other stop is left alone. */
  lemma LatchLocal(alerted: map<Entity, bool>, stop: Entity, isBusy: bool, overTarget: bool, belowExit: bool, other: Entity)
    requires other != stop
    ensures var m := Latch(alerted, stop, isBusy, overTarget, belowExit);
      (other in m <==> other in alerted) && (other in m ==> m[other] == alerted[other])
  {
  }

  /** A latched stop is never announced again while it stays latched, and at most one
      chirp per line is posted, counted, and within the pass's limit. */
  lemma AlertBudget(st: AlertState, limit: nat, chirpsOn: bool, stop: Entity, isBusy: bool, overTarget: bool,
                    belowExit: bool, chirp: Chirp)
    requires st.numAlerts <= limit
    ensures var r := AlertStep(st, limit, chirpsOn, stop, isBusy, overTarget, belowExit, chirp);
      && st.numAlerts <= r.numAlerts <= limit
      && |r.posted| - |st.posted| == r.numAlerts - st.numAlerts <= 1
      && r.posted[..|st.posted|] == st.posted
      && (Latched(st.alerted, stop) ==> r.posted == st.posted)
      && ((forall e :: e in st.alerted ==> st.alerted[e]) ==> forall e :: e in r.alerted ==> r.alerted[e])
  {
  }

  // ---------------------------------------------------------------------------
  // The system.

  class SmartTransitSystem {
    /** The share of a vehicle's capacity waiting at a stop that makes it busy. */
    const busyStopEnterPct: real
    /** The share at or below which a latched stop may be released. */
    const busyStopExitPct: real
    /** The chirp toggle, read once when the system is created. */
    const chirpsEnabled: bool
    /** At most this many chirps per pass. */
    const maxAlertsPerCycle: nat
    /** The per-stop latch. */
    var busyStopAlerted: map<Entity, bool>
    /** Every chirp posted so far. */
    var chirps: seq<Chirp>
    /** Every policy write made so far. */
    var policyWrites: seq<PolicyWrite>

    /** The latch only ever records `true`. */
    ghost predicate Valid()
      reads this
    {
      forall e :: e in busyStopAlerted ==> busyStopAlerted[e]
    }

    /** Creation reads the two busy-stop levels (given in percent) and the chirp
        toggle from the settings of that moment. */
    constructor (settings: SettingsState)
      ensures Valid()
      ensures busyStopEnterPct == settings.busyStopEnterPct / 100.0
      ensures busyStopExitPct == settings.busyStopExitPct / 100.0
      ensures chirpsEnabled == !settings.disableChirps && maxAlertsPerCycle == 1
      ensures busyStopAlerted == map[] && chirps == [] && policyWrites == []
    {
      busyStopEnterPct := settings.busyStopEnterPct / 100.0;
      busyStopExitPct := settings.busyStopExitPct / 100.0;
      chirpsEnabled := !settings.disableChirps;
      maxAlertsPerCycle := 1;
      busyStopAlerted := map[];
      chirps := [];
      policyWrites := [];
    }

    /** The alert step of a line with the system's own levels. */
    function AlertOf(st: AlertState, chirpsAvailable: bool, r: Route, m: Reading, s: SettingsState): AlertState
    {
      AlertStep(st, maxAlertsPerCycle, chirpsEnabled && chirpsAvailable, m.busiestStop,
                m.maxStopWaiting as real >= m.capacity as real * busyStopEnterPct,
                m.ratio.Above((m.terms.occupancy as real + 2.0 * s.threshold) / 100.0),
                m.maxStopWaiting as real <= m.capacity as real * busyStopExitPct,
                Chirp(m.busiestStop, r.transportType, r.number, m.maxStopWaiting))
    }

    /** The alert state after a line: unchanged for a skipped line. */
    function AfterRoute(st: AlertState, chirpsAvailable: bool, r: Route, prefabs: map<Entity, VehiclePrefab>,
                        s: SettingsState, rules: seq<CustomRule>): AlertState
    {
      match Measure(r, prefabs, s, rules)
      case None => st
      case Some(m) => AlertOf(st, chirpsAvailable, r, m, s)
    }

    /** The alert block of one line. */
    method UpdateBusyStop(r: Route, m: Reading, s: SettingsState, chirpsAvailable: bool, numAlerts: nat)
      returns (alerts: nat)
      modifies this
      ensures var st := AlertOf(AlertState(old(busyStopAlerted), [], numAlerts), chirpsAvailable, r, m, s);
        busyStopAlerted == st.alerted && chirps == old(chirps) + st.posted && alerts == st.numAlerts
      ensures policyWrites == old(policyWrites)
    {
      alerts := numAlerts;
      var busiestStop := m.busiestStop;
      if chirpsEnabled && chirpsAvailable && busiestStop != Null && numAlerts < maxAlertsPerCycle {
        var isBusy := m.maxStopWaiting as real >= m.capacity as real * busyStopEnterPct;
        var routeOverTarget := m.ratio.Above((m.terms.occupancy as real + 2.0 * s.threshold) / 100.0);
        var shouldAlert := isBusy || routeOverTarget;
        var alreadyAlerted := busiestStop in busyStopAlerted && busyStopAlerted[busiestStop];
        if shouldAlert && !alreadyAlerted {
          if isBusy {
            chirps := chirps + [Chirp(busiestStop, r.transportType, r.number, m.maxStopWaiting)];
            alerts := alerts + 1;
          }
          busyStopAlerted := busyStopAlerted[busiestStop := true];
        } else if !shouldAlert && alreadyAlerted {
          if m.maxStopWaiting as real <= m.capacity as real * busyStopExitPct && !routeOverTarget {
            busyStopAlerted := busyStopAlerted - {busiestStop};
          }
        }
      }
    }

    /** The body of the pass for one line: its policy write, when it is not skipped,
        and its alert step. */
    method ProcessRoute(r: Route, prefabs: map<Entity, VehiclePrefab>, s: SettingsState, rules: seq<CustomRule>,
                        chirpsAvailable: bool, numAlerts: nat)
      returns (w: Option<PolicyWrite>, alerts: nat)
      modifies this
      ensures w == Evaluate(r, prefabs, s, rules)
      ensures var st := AfterRoute(AlertState(old(busyStopAlerted), [], numAlerts), chirpsAvailable, r, prefabs, s, rules);
        busyStopAlerted == st.alerted && chirps == old(chirps) + st.posted && alerts == st.numAlerts
      ensures policyWrites == old(policyWrites)
    {
      w, alerts := None, numAlerts;
      if r.routeRule.Some? && r.routeRule.value.customRule == DisabledKey {
        return;
      }
      if TypeDisabled(r.transportType, s) {
        return;
      }
      if r.models == [] {
        return;
      }
      var primary := PickPrimary(r.models);
      if primary == Null || primary !in prefabs {
        return;
      }
      var passengers, emptyVehicles := CountPassengers(r.vehicles);
      var capacity := ComputeCapacity(prefabs[primary]);
      var waiting, maxStopWaiting, busiestStop := ScanWaypoints(r.waypoints);
      if |r.vehicles| == 0 {
        return;
      }
      var ratio := LoadRatio(passengers, waiting, s.waitingTimeWeight, capacity, |r.vehicles|);
      var terms := RouteTerms(r.routeRule, r.transportType, s, rules, r.maxVehicles, r.minVehicles);
      if terms.None? {
        return;
      }
      var m := Reading(capacity, emptyVehicles, maxStopWaiting, busiestStop, ratio, terms.value);
      assert Measure(r, prefabs, s, rules) == Some(m);
      alerts := UpdateBusyStop(r, m, s, chirpsAvailable, numAlerts);
      var ticketPrice, vehicles := Decide(ratio, terms.value, s.threshold, r.setVehicles, emptyVehicles);
      w := Some(PolicyWrite(r.entity, ticketPrice > 0, ticketPrice, vehicles));
    }

    /** Chirps posted by a line only add to those already posted. */
    lemma AfterRouteFromEmpty(st: AlertState, chirpsAvailable: bool, r: Route, prefabs: map<Entity, VehiclePrefab>,
                              s: SettingsState, rules: seq<CustomRule>)
      ensures var a := AfterRoute(st, chirpsAvailable, r, prefabs, s, rules);
        var b := AfterRoute(AlertState(st.alerted, [], st.numAlerts), chirpsAvailable, r, prefabs, s, rules);
        a == AlertState(b.alerted, st.posted + b.posted, b.numAlerts)
    {
    }

    /** The alert state after a sequence of lines. */
    function AfterRoutes(st: AlertState, chirpsAvailable: bool, routes: seq<Route>, prefabs: map<Entity, VehiclePrefab>,
                         s: SettingsState, rules: seq<CustomRule>): AlertState
    {
      if routes == [] then st
      else AfterRoute(AfterRoutes(st, chirpsAvailable, routes[..|routes| - 1], prefabs, s, rules),
                      chirpsAvailable, routes[|routes| - 1], prefabs, s, rules)
    }

    /** The alert budget for one line. */
    lemma RouteBudget(st: AlertState, chirpsAvailable: bool, r: Route, prefabs: map<Entity, VehiclePrefab>,
                      s: SettingsState, rules: seq<CustomRule>)
      requires st.numAlerts <= maxAlertsPerCycle
      requires forall e :: e in st.alerted ==> st.alerted[e]
      ensures var a := AfterRoute(st, chirpsAvailable, r, prefabs, s, rules);
        && st.numAlerts <= a.numAlerts <= maxAlertsPerCycle
        && |a.posted| - |st.posted| == a.numAlerts - st.numAlerts
        && a.posted[..|st.posted|] == st.posted
        && (forall e :: e in a.alerted ==> a.alerted[e])
    {
      match Measure(r, prefabs, s, rules) {
        case None =>
        case Some(m) =>
          ReadingBudget(st, chirpsAvailable, r, m, s);
      }
    }

    /** The alert budget for a line that was measured. */
    lemma ReadingBudget(st: AlertState, chirpsAvailable: bool, r: Route, m: Reading, s: SettingsState)
      requires st.numAlerts <= maxAlertsPerCycle
      requires forall e :: e in st.alerted ==> st.alerted[e]
      ensures var a := AlertOf(st, chirpsAvailable, r, m, s);
        && st.numAlerts <= a.numAlerts <= maxAlertsPerCycle
        && |a.posted| - |st.posted| == a.numAlerts - st.numAlerts
        && a.posted[..|st.posted|] == st.posted
        && (forall e :: e in a.alerted ==> a.alerted[e])
    {
      AlertBudget(st, maxAlertsPerCycle, chirpsEnabled && chirpsAvailable, m.busiestStop,
                  m.maxStopWaiting as real >= m.capacity as real * busyStopEnterPct,
                  m.ratio.Above((m.terms.occupancy as real + 2.0 * s.threshold) / 100.0),
                  m.maxStopWaiting as real <= m.capacity as real * busyStopExitPct,
                  Chirp(m.busiestStop, r.transportType, r.number, m.maxStopWaiting));
    }

    /** The alert budget holds over any number of lines: the count stays within the
        per-pass limit and matches the chirps posted, the latch only holds true, and
        the chirps already posted stay in place. */
    lemma {:induction false} PassBudget(st: AlertState, chirpsAvailable: bool, routes: seq<Route>,
                                        prefabs: map<Entity, VehiclePrefab>, s: SettingsState, rules: seq<CustomRule>)
      requires st.numAlerts <= maxAlertsPerCycle
      requires forall e :: e in st.alerted ==> st.alerted[e]
      ensures var r := AfterRoutes(st, chirpsAvailable, routes, prefabs, s, rules);
        && st.numAlerts <= r.numAlerts <= maxAlertsPerCycle
        && |r.posted| - |st.posted| == r.numAlerts - st.numAlerts
        && r.posted[..|st.posted|] == st.posted
        && (forall e :: e in r.alerted ==> r.alerted[e])
    {
      if routes != [] {
        var front := routes[..|routes| - 1];
        PassBudget(st, chirpsAvailable, front, prefabs, s, rules);
        var mid := AfterRoutes(st, chirpsAvailable, front, prefabs, s, rules);
        RouteBudget(mid, chirpsAvailable, routes[|routes| - 1], prefabs, s, rules);
        var r := AfterRoutes(st, chirpsAvailable, routes, prefabs, s, rules);
        assert r.posted[..|mid.posted|] == mid.posted;
        assert r.posted[..|st.posted|] == r.posted[..|mid.posted|][..|st.posted|];
      }
    }

    /** One more line of the pass extends its alert state and its writes by that line. */
    lemma PassStep(st: AlertState, chirpsAvailable: bool, routes: seq<Route>, i: int,
                   prefabs: map<Entity, VehiclePrefab>, s: SettingsState, rules: seq<CustomRule>)
      requires 0 <= i < |routes|
      ensures AfterRoutes(st, chirpsAvailable, routes[..i + 1], prefabs, s, rules)
        == AfterRoute(AfterRoutes(st, chirpsAvailable, routes[..i], prefabs, s, rules), chirpsAvailable, routes[i], prefabs, s, rules)
      ensures Writes(routes[..i + 1], prefabs, s, rules)
        == Writes(routes[..i], prefabs, s, rules) + (match Evaluate(routes[i], prefabs, s, rules) case None => [] case Some(w) => [w])
    {
      assert routes[..i + 1][..i] == routes[..i];
    }

    /** OnUpdate: one pass over the lines, in query order, against the rules of the
        registry. Every line that is not skipped gets its write; the chirps of the
        pass are those of the alert steps, at most `maxAlertsPerCycle` of them. */
    method OnUpdate(routes: seq<Route>, prefabs: map<Entity, VehiclePrefab>, s: SettingsState,
                    registry: ManageRouteSystem, chirpsAvailable: bool)
      requires Valid()
      modifies this
      ensures Valid()
      ensures policyWrites == old(policyWrites) + Writes(routes, prefabs, s, registry.rules)
      ensures var st := AfterRoutes(AlertState(old(busyStopAlerted), [], 0), chirpsAvailable, routes, prefabs, s, registry.rules);
        busyStopAlerted == st.alerted && chirps == old(chirps) + st.posted
      ensures |old(chirps)| <= |chirps| <= |old(chirps)| + maxAlertsPerCycle
    {
      var rules := registry.rules;
      var numAlerts := 0;
      for i := 0 to |routes|
        invariant var st := AfterRoutes(AlertState(old(busyStopAlerted), [], 0), chirpsAvailable, routes[..i], prefabs, s, rules);
          busyStopAlerted == st.alerted && chirps == old(chirps) + st.posted && numAlerts == st.numAlerts
        invariant policyWrites == old(policyWrites) + Writes(routes[..i], prefabs, s, rules)
      {
        PassStep(AlertState(old(busyStopAlerted), [], 0), chirpsAvailable, routes, i, prefabs, s, rules);
        ghost var prev := AfterRoutes(AlertState(old(busyStopAlerted), [], 0), chirpsAvailable, routes[..i], prefabs, s, rules);
        AfterRouteFromEmpty(prev, chirpsAvailable, routes[i], prefabs, s, rules);
        ghost var b := AfterRoute(AlertState(prev.alerted, [], prev.numAlerts), chirpsAvailable, routes[i], prefabs, s, rules);
        var w;
        w, numAlerts := ProcessRoute(routes[i], prefabs, s, rules, chirpsAvailable, numAlerts);
        ConcatAssoc(old(chirps), prev.posted, b.posted);
        ghost var ws := Writes(routes[..i], prefabs, s, rules);
        if w.Some? {
          ConcatAssoc(old(policyWrites), ws, [w.value]);
          policyWrites := policyWrites + [w.value];
        } else {
          assert ws + [] == ws;
        }
      }
      assert routes[..|routes|] == routes;
      PassBudget(AlertState(old(busyStopAlerted), [], 0), chirpsAvailable, routes, prefabs, s, rules);
    }
  }

  /** GetUpdateInterval: a game day of 262144 ticks divided by the chosen number of
      updates per day. */
  function UpdateInterval(f: UpdateFreq): (ticks: int)
    ensures ticks * f.Value() == 262144
    ensures ticks == 4096 || ticks == 8192 || ticks == 16384
  {
    262144 / f.Value()
  }
}
