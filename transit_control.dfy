/** The arithmetic of the per-route controller in SmartTransitSystem: telemetry
    gathered from the route, the effective vehicle capacity, the terms a rule or the
    type settings give, and the ticket-price and vehicle-count decision. */
module TransitControl {
  import opened Wrappers
  import opened Ids
  import opened Transport
  import opened Settings
  import opened Components
  import opened ManageRoute

  // ---------------------------------------------------------------------------
  // Rounding.

  /** `Math.Round`: the nearest integer, halves to the even neighbour. */
  function RoundHalfEven(x: real): (r: int)
    ensures x - 0.5 <= r as real <= x + 0.5
    ensures (r as real - x == 0.5 || x - r as real == 0.5) ==> r % 2 == 0
  {
    var f := x.Floor;
    var d := x - f as real;
    if d < 0.5 then f
    else if d > 0.5 then f + 1
    else if f % 2 == 0 then f
    else f + 1
  }

  // ---------------------------------------------------------------------------
  // Passengers on board.

  /** One vehicle of the route: the length of its passenger buffer, or `None` when the
      vehicle has no readable buffer. */
  type PassengerBuffer = Option<nat>

  /** Passengers on board: the sum of the readable buffer lengths. */
  function Passengers(vs: seq<PassengerBuffer>): nat {
    if vs == [] then 0
    else Passengers(vs[..|vs| - 1]) + vs[|vs| - 1].GetOr(0)
  }

  /** Empty vehicles: those whose buffer is readable and of length 0. */
  function EmptyVehicles(vs: seq<PassengerBuffer>): nat {
    if vs == [] then 0
    else EmptyVehicles(vs[..|vs| - 1]) + (if vs[|vs| - 1] == Some(0) then 1 else 0)
  }

  /** The loop over the route's vehicles. */
  method CountPassengers(vs: seq<PassengerBuffer>) returns (passengers: nat, emptyVehicles: nat)
    ensures passengers == Passengers(vs) && emptyVehicles == EmptyVehicles(vs)
  {
    passengers, emptyVehicles := 0, 0;
    for i := 0 to |vs|
      invariant passengers == Passengers(vs[..i]) && emptyVehicles == EmptyVehicles(vs[..i])
    {
      assert vs[..i + 1][..i] == vs[..i];
      match vs[i] {
        case Some(n) =>
          if n == 0 {
            emptyVehicles := emptyVehicles + 1;
          }
          passengers := passengers + n;
        case None =>
      }
    }
    assert vs[..|vs|] == vs;
  }

  /** There are never more empty vehicles than vehicles, and when every vehicle is
      empty nobody is on board. */
  lemma {:induction false} EmptyVehiclesBound(vs: seq<PassengerBuffer>)
    ensures EmptyVehicles(vs) <= |vs|
    ensures EmptyVehicles(vs) == |vs| ==> Passengers(vs) == 0
  {
    if vs != [] {
      EmptyVehiclesBound(vs[..|vs| - 1]);
    }
  }

  // ---------------------------------------------------------------------------
  // Waiting passengers and the busiest stop.

  /** One waypoint of the route: its waiting count when it has one, and the stop it is
      connected to when it has one. */
  datatype Waypoint = Waypoint(waiting: Option<int>, connected: Option<Entity>)

  /** A waypoint that takes part in the busiest-stop search. */
  predicate Counted(w: Waypoint) {
    w.waiting.Some? && w.connected.Some?
  }

  /** Waiting passengers: the sum over the waypoints that have a count. */
  function TotalWaiting(wps: seq<Waypoint>): int {
    if wps == [] then 0
    else TotalWaiting(wps[..|wps| - 1]) + wps[|wps| - 1].waiting.GetOr(0)
  }

  /** The largest waiting count at a connected waypoint (0 when none is positive) and
      the stop where a strictly larger count was last seen (Null when none). */
  function Busiest(wps: seq<Waypoint>): (r: (int, Entity))
    ensures r.0 >= 0
  {
    if wps == [] then (0, Null)
    else
      var (m, b) := Busiest(wps[..|wps| - 1]);
      var w := wps[|wps| - 1];
      if Counted(w) && w.waiting.value > m then (w.waiting.value, w.connected.value) else (m, b)
  }

  /** The loop over the route's waypoints. */
  method ScanWaypoints(wps: seq<Waypoint>) returns (waiting: int, maxStopWaiting: int, busiestStop: Entity)
    ensures waiting == TotalWaiting(wps)
    ensures (maxStopWaiting, busiestStop) == Busiest(wps)
  {
    waiting, maxStopWaiting, busiestStop := 0, 0, Null;
    for i := 0 to |wps|
      invariant waiting == TotalWaiting(wps[..i])
      invariant (maxStopWaiting, busiestStop) == Busiest(wps[..i])
    {
      assert wps[..i + 1][..i] == wps[..i];
      var w := wps[i];
      if w.waiting.Some? {
        waiting := waiting + w.waiting.value;
        if w.connected.Some? {
          if w.waiting.value > maxStopWaiting {
            maxStopWaiting := w.waiting.value;
            busiestStop := w.connected.value;
          }
        }
      }
    }
    assert wps[..|wps|] == wps;
  }

  /** The busiest stop is the first connected waypoint with the largest count: no
      connected count exceeds the maximum, every earlier one is strictly smaller, and
      with no positive count the stop stays Null. */
  lemma {:induction false} BusiestIsFirstMax(wps: seq<Waypoint>)
    ensures var (m, b) := Busiest(wps);
      && (forall i :: 0 <= i < |wps| && Counted(wps[i]) ==> wps[i].waiting.value <= m)
      && (m == 0 ==> b == Null)
      && (m > 0 ==> exists i :: 0 <= i < |wps| && Counted(wps[i]) && wps[i].waiting.value == m
                     && wps[i].connected.value == b
                     && forall j :: 0 <= j < i && Counted(wps[j]) ==> wps[j].waiting.value < m)
  {
    if wps != [] {
      var front := wps[..|wps| - 1];
      BusiestIsFirstMax(front);
      var (m0, b0) := Busiest(front);
      var w := wps[|wps| - 1];
      assert forall i :: 0 <= i < |front| ==> wps[i] == front[i];
      if Counted(w) && w.waiting.value > m0 {
        var k := |wps| - 1;
        assert Counted(wps[k]) && wps[k].waiting.value == w.waiting.value;
      } else if m0 > 0 {
        var i :| 0 <= i < |front| && Counted(front[i]) && front[i].waiting.value == m0
                 && front[i].connected.value == b0
                 && forall j :: 0 <= j < i && Counted(front[j]) ==> front[j].waiting.value < m0;
        assert wps[i] == front[i];
      }
    }
  }

  // ---------------------------------------------------------------------------
  // Vehicle capacity.

  /** A carriage entry of a train prefab: how many of that carriage, and the passenger
      capacity of its prefab. */
  datatype Carriage = Carriage(count: int, capacity: int)

  /** TrainEngineData (its engine count) and the carriage buffer, when present. */
  datatype TrainEngine = TrainEngine(count: int, carriages: Option<seq<Carriage>>)

  /** The vehicle data of a primary prefab: its own passenger capacity, and its train
      data when it is a train. */
  datatype VehiclePrefab = VehiclePrefab(capacity: int, engine: Option<TrainEngine>)

  /** Seats added by the carriages. */
  function CarriageSeats(cs: seq<Carriage>): int {
    if cs == [] then 0
    else CarriageSeats(cs[..|cs| - 1]) + cs[|cs| - 1].count * cs[|cs| - 1].capacity
  }

  /** The effective capacity of one vehicle: the prefab's capacity plus its carriages',
      times the engine count when that count is positive. */
  function EffectiveCapacity(p: VehiclePrefab): int {
    match p.engine
    case None => p.capacity
    case Some(e) =>
      var seats := p.capacity + CarriageSeats(e.carriages.GetOr([]));
      if e.count > 0 then seats * e.count else seats
  }

  /** The capacity computation, with its loop over the carriages. */
  method ComputeCapacity(p: VehiclePrefab) returns (capacity: int)
    ensures capacity == EffectiveCapacity(p)
  {
    capacity := p.capacity;
    var engines := 1;
    if p.engine.Some? {
      engines := p.engine.value.count;
      if p.engine.value.carriages.Some? {
        var cs := p.engine.value.carriages.value;
        for i := 0 to |cs|
          invariant capacity == p.capacity + CarriageSeats(cs[..i])
        {
          assert cs[..i + 1][..i] == cs[..i];
          capacity := capacity + cs[i].count * cs[i].capacity;
        }
        assert cs[..|cs|] == cs;
      }
    }
    if engines > 0 {
      capacity := capacity * engines;
    }
  }

  /** Carriage seats add up over a split of the carriage list. */
  lemma {:induction false} CarriageSeatsAppend(a: seq<Carriage>, b: seq<Carriage>)
    ensures CarriageSeats(a + b) == CarriageSeats(a) + CarriageSeats(b)
    decreases |b|
  {
    if b == [] {
      assert a + b == a;
    } else {
      assert (a + b)[..|a + b| - 1] == a + b[..|b| - 1];
      CarriageSeatsAppend(a, b[..|b| - 1]);
    }
  }

  /** Adding a carriage entry of positive count and capacity to a train with engines
      strictly raises the effective capacity. */
  lemma MoreCarriagesMoreCapacity(base: int, count: int, cs: seq<Carriage>, c: Carriage)
    requires count > 0 && c.count > 0 && c.capacity > 0
    ensures EffectiveCapacity(VehiclePrefab(base, Some(TrainEngine(count, Some(cs + [c])))))
          > EffectiveCapacity(VehiclePrefab(base, Some(TrainEngine(count, Some(cs)))))
  {
    CarriageSeatsAppend(cs, [c]);
    assert [c][..0] == [];
    var s := base + CarriageSeats(cs);
    assert (s + c.count * c.capacity) * count == s * count + c.count * c.capacity * count;
  }

  // ---------------------------------------------------------------------------
  // The primary prefab.

  /** The first non-Null primary prefab of the vehicle models, or Null. */
  function FirstNonNull(models: seq<Entity>): (e: Entity)
    ensures e != Null ==> e in models
    ensures e == Null <==> forall i :: 0 <= i < |models| ==> models[i] == Null
  {
    if models == [] then Null
    else if models[0] != Null then models[0]
    else FirstNonNull(models[1..])
  }

  /** The search for the primary prefab, falling back to the first model. */
  method PickPrimary(models: seq<Entity>) returns (primary: Entity)
    requires |models| > 0
    ensures primary == FirstNonNull(models)
  {
    primary := Null;
    var i := 0;
    while i < |models|
      invariant 0 <= i <= |models|
      invariant primary == Null ==> FirstNonNull(models) == FirstNonNull(models[i..])
      invariant primary != Null ==> primary == FirstNonNull(models)
      decreases |models| - i
    {
      assert models[i..] == [models[i]] + models[i + 1..];
      if models[i] != Null {
        primary := models[i];
        break;
      }
      i := i + 1;
    }
    if primary == Null {
      primary := models[0];
    }
  }

  // ---------------------------------------------------------------------------
  // The terms the controller works with.

  /** Target occupancy, ticket terms and the two vehicle bounds. */
  datatype Terms = Terms(occupancy: int, standardTicket: int, maxIncrease: int, maxDiscount: int,
                         maxVehicles: int, minVehicles: int)

  /** The rule id looked up for a route's rule key: the key's 32-bit pattern, widened.
      The conversion from the stored int to the 128-bit id is not shown in the source. */
  function LegacyId(key: int): (id: Hash128)
    ensures 0 <= key < 0x1_0000_0000 ==> id as int == key
  {
    (key % 0x1_0000_0000) as Hash128
  }

  /** `Math.Round(n * (1 + adj / 100))`: the upper bound widened by a percentage. */
  function ScaleUp(n: int, adj: int): int {
    RoundHalfEven(n as real * (1.0 + adj as real / 100.0))
  }

  /** `Math.Round(n * (1 - adj / 100))`: the lower bound narrowed by a percentage. */
  function ScaleDown(n: int, adj: int): int {
    RoundHalfEven(n as real * (1.0 - adj as real / 100.0))
  }

  /** The types that have default terms in the settings. */
  predicate HasDefaultTerms(t: TransportType) {
    t.Bus? || t.Tram? || t.Subway? || t.Train? || t.Ship? || t.Airplane?
  }

  /** The terms for a route: from its custom rule when it has one (only the lower
      vehicle bound is scaled), else from the settings of its type (both bounds
      scaled); none for a type without defaults, which the controller then skips. */
  function RouteTerms(routeRule: Option<RouteRule>, t: TransportType, s: SettingsState, rules: seq<CustomRule>,
                      maxVehicles: int, minVehicles: int): (r: Option<Terms>)
    ensures r.None? <==> routeRule.None? && !HasDefaultTerms(t)
  {
    if routeRule.Some? then
      var f := Lookup(rules, LegacyId(routeRule.value.customRule));
      Some(Terms(f.occupancy, f.stdTicket, f.maxTicketInc, f.maxTicketDec,
                 maxVehicles, ScaleDown(minVehicles, f.minVehAdj)))
    else if HasDefaultTerms(t) then
      var ts := ForType(s, t);
      Some(Terms(ts.targetOccupancy, ts.standardTicket, ts.maxTicketIncrease, ts.maxTicketDiscount,
                 ScaleUp(maxVehicles, ts.maxVehiclesAdj), ScaleDown(minVehicles, ts.minVehiclesAdj)))
    else None
  }

  /** A custom rule's vehicle-maximum adjustment has no effect: two rules that differ
      only there give the same terms, and the upper bound is the game's own. */
  lemma CustomRuleIgnoresMaxVehAdj(rr: RouteRule, t: TransportType, s: SettingsState, rules: seq<CustomRule>,
                                   maxVehicles: int, minVehicles: int, other: int)
    requires FindRule(rules, LegacyId(rr.customRule)) >= 0
    ensures var k := FindRule(rules, LegacyId(rr.customRule));
      var changed := rules[k := rules[k].(maxVehAdj := other)];
      && RouteTerms(Some(rr), t, s, changed, maxVehicles, minVehicles)
         == RouteTerms(Some(rr), t, s, rules, maxVehicles, minVehicles)
      && RouteTerms(Some(rr), t, s, rules, maxVehicles, minVehicles).value.maxVehicles == maxVehicles
  {
    var id := LegacyId(rr.customRule);
    var k := FindRule(rules, id);
    var changed := rules[k := rules[k].(maxVehAdj := other)];
    UpdateThenLookup(rules, id, FieldsOf(changed[k]), id);
    assert changed == Update(rules, id, FieldsOf(changed[k]));
  }

  /** Without a custom rule, a type with defaults scales both bounds by its settings,
      and a zero adjustment leaves a bound as the game computed it. */
  lemma DefaultTermsScaleBoth(t: TransportType, s: SettingsState, rules: seq<CustomRule>, maxVehicles: int, minVehicles: int)
    requires HasDefaultTerms(t)
    ensures var r := RouteTerms(None, t, s, rules, maxVehicles, minVehicles).value;
      && r.maxVehicles == ScaleUp(maxVehicles, ForType(s, t).maxVehiclesAdj)
      && r.minVehicles == ScaleDown(minVehicles, ForType(s, t).minVehiclesAdj)
      && (ForType(s, t).maxVehiclesAdj == 0 ==> r.maxVehicles == maxVehicles)
      && (ForType(s, t).minVehiclesAdj == 0 ==> r.minVehicles == minVehicles)
  {
    assert RoundHalfEven(maxVehicles as real) == maxVehicles;
    assert RoundHalfEven(minVehicles as real) == minVehicles;
  }

  // ---------------------------------------------------------------------------
  // Single-precision division.

  /** The value of a floating-point quotient: a number, or the infinities and NaN
      that a division by zero gives. */
  datatype Load = Finite(value: real) | PlusInfinity | MinusInfinity | NotANumber {
    /** `<` against a number: false for NaN. */
    predicate Below(bound: real) {
      match this
      case Finite(v) => v < bound
      case MinusInfinity => true
      case _ => false
    }
    /** `>` against a number: false for NaN. */
    predicate Above(bound: real) {
      match this
      case Finite(v) => v > bound
      case PlusInfinity => true
      case _ => false
    }
  }

  /** `n / d` on floats; the divisor is never a negative zero here. */
  function Divide(n: real, d: real): (q: Load)
    ensures d != 0.0 ==> q == Finite(n / d)
    ensures d == 0.0 ==> (q.PlusInfinity? <==> n > 0.0) && (q.MinusInfinity? <==> n < 0.0) && (q.NotANumber? <==> n == 0.0)
  {
    if d != 0.0 then Finite(n / d)
    else if n > 0.0 then PlusInfinity
    else if n < 0.0 then MinusInfinity
    else NotANumber
  }

  /** The load of a line: passengers on board plus the weighted waiting passengers,
      over the seats of all its vehicles. */
  function LoadRatio(passengers: int, waiting: int, weight: real, capacity: int, vehicleCount: int): (q: Load)
    ensures capacity != 0 && vehicleCount != 0 ==>
      q == Finite((passengers as real + waiting as real * weight) / (capacity as real * vehicleCount as real))
  {
    Divide(passengers as real + waiting as real * weight, capacity as real * vehicleCount as real)
  }

  /** A number compares as a number, and NaN is neither below nor above any bound. */
  lemma CompareLoad(q: Load, bound: real)
    ensures q.NotANumber? ==> !q.Below(bound) && !q.Above(bound)
    ensures q.Finite? ==> (q.Below(bound) <==> q.value < bound) && (q.Above(bound) <==> q.value > bound)
    ensures !(q.Below(bound) && q.Above(bound))
  {
  }

  // ---------------------------------------------------------------------------
  // The decision.

  /** The load is below the target band. */
  predicate Low(ratio: Load, occupancy: int, threshold: real) {
    ratio.Below((occupancy as real - threshold) / 100.0)
  }

  /** The load is above the target band. */
  predicate High(ratio: Load, occupancy: int, threshold: real) {
    ratio.Above((occupancy as real + threshold) / 100.0)
  }

  /** The ticket price the controller sets: one below the standard ticket when the
      load is low, one above when it is high, the standard ticket in between, and 0
      whenever the standard ticket is 0. */
  function PriceOf(ratio: Load, occupancy: int, threshold: real, standardTicket: int): int {
    if standardTicket == 0 then 0
    else if Low(ratio, occupancy, threshold) then standardTicket - 1
    else if High(ratio, occupancy, threshold) then standardTicket + 1
    else standardTicket
  }

  /** The vehicle count after the band step: one fewer when low, one more when high. */
  function StepVehicles(ratio: Load, occupancy: int, threshold: real, vehicles: int): int {
    if Low(ratio, occupancy, threshold) then vehicles - 1
    else if High(ratio, occupancy, threshold) then vehicles + 1
    else vehicles
  }

  /** Clamped to the maximum first, then to the minimum. */
  function Clamp(v: int, maxVehicles: int, minVehicles: int): int {
    var capped := if v > maxVehicles then maxVehicles else v;
    if capped < minVehicles then minVehicles else capped
  }

  /** The lower bound after it is raised to at least 1. */
  function AtLeastOne(minVehicles: int): (m: int)
    ensures m >= 1 && m >= minVehicles
  {
    if minVehicles < 1 then 1 else minVehicles
  }

  /** Too many empty vehicles: more than 30% of the current count (a zero count
      brakes exactly when some vehicle is empty, the quotient being infinite). */
  predicate Brake(emptyVehicles: int, oldVehicles: int) {
    Divide(emptyVehicles as real, oldVehicles as real).Above(0.3)
  }

  /** The vehicle count the controller sets: the current count when braking, else the
      band step clamped to the bounds. */
  function VehiclesOf(ratio: Load, t: Terms, threshold: real, vehicles: int, emptyVehicles: int): int {
    if Brake(emptyVehicles, vehicles) then vehicles
    else Clamp(StepVehicles(ratio, t.occupancy, threshold, vehicles), t.maxVehicles, AtLeastOne(t.minVehicles))
  }

  /** The price and vehicle decision as the controller performs it, from the reset of
      the price to the standard ticket to the free-ticket override; the branches for a
      price already away from the standard ticket are kept although the reset makes
      them unreachable. */
  method Decide(ratio: Load, t: Terms, threshold: real, setVehicles: int, emptyVehicles: int)
    returns (ticketPrice: int, vehicles: int)
    ensures ticketPrice == PriceOf(ratio, t.occupancy, threshold, t.standardTicket)
    ensures vehicles == VehiclesOf(ratio, t, threshold, setVehicles, emptyVehicles)
  {
    var oldVehicles := setVehicles;
    var standardTicket := t.standardTicket;
    ticketPrice := standardTicket;
    var minVehicles := t.minVehicles;
    if minVehicles < 1 {
      minVehicles := 1;
    }
    vehicles := setVehicles;
    // The band limits and the price limits, evaluated ahead of the branches.
    var low := (t.occupancy as real - threshold) / 100.0;
    var high := (t.occupancy as real + threshold) / 100.0;
    var veryLow := (t.occupancy as real - 2.0 * threshold) / 100.0;
    var veryHigh := (t.occupancy as real + 2.0 * threshold) / 100.0;
    var lowestPrice := RoundHalfEven(((100 - t.maxDiscount) * standardTicket) as real / 100.0);
    var highestPrice := RoundHalfEven(((100 + t.maxIncrease) * standardTicket) as real / 100.0);
    if ratio.Below(low) {
      vehicles := vehicles - 1;
      if ticketPrice < standardTicket && ratio.Below(veryLow) {
        if ticketPrice > lowestPrice {
          ticketPrice := ticketPrice - 1;
        }
      } else if ticketPrice == standardTicket {
        ticketPrice := ticketPrice - 1;
      }
    } else if ratio.Above(high) {
      if ticketPrice > standardTicket && ratio.Above(veryHigh) {
        if ticketPrice < highestPrice {
          ticketPrice := ticketPrice + 1;
        }
      } else if ticketPrice == standardTicket {
        ticketPrice := ticketPrice + 1;
      }
      vehicles := vehicles + 1;
    }
    if vehicles > t.maxVehicles {
      vehicles := t.maxVehicles;
    }
    if vehicles < minVehicles {
      vehicles := minVehicles;
    }
    if Divide(emptyVehicles as real, oldVehicles as real).Above(0.3) {
      vehicles := oldVehicles;
    }
    if standardTicket == 0 {
      ticketPrice := 0;
    }
  }

  /** The price never strays more than one step from the standard ticket, and a higher
      load never gives a lower price. */
  lemma PriceWithinOneStep(ratio: real, occupancy: int, threshold: real, standardTicket: int, ratio2: real)
    ensures var p := PriceOf(Finite(ratio), occupancy, threshold, standardTicket);
      standardTicket != 0 ==> standardTicket - 1 <= p <= standardTicket + 1
    ensures ratio <= ratio2 ==>
      PriceOf(Finite(ratio), occupancy, threshold, standardTicket) <= PriceOf(Finite(ratio2), occupancy, threshold, standardTicket)
    ensures PriceOf(NotANumber, occupancy, threshold, standardTicket) == standardTicket
  {
  }

  /** Without braking the count respects the lower bound (at least 1), respects the
      upper bound when the bounds are consistent, and moves by at most one vehicle
      when the current count lies strictly inside them; braking keeps the count. */
  lemma {:induction false} VehicleBounds(ratio: Load, t: Terms, threshold: real, vehicles: int, emptyVehicles: int)
    ensures var v := VehiclesOf(ratio, t, threshold, vehicles, emptyVehicles);
      && (Brake(emptyVehicles, vehicles) ==> v == vehicles)
      && (!Brake(emptyVehicles, vehicles) ==> v >= AtLeastOne(t.minVehicles) && v >= 1)
      && (!Brake(emptyVehicles, vehicles) && AtLeastOne(t.minVehicles) <= t.maxVehicles ==> v <= t.maxVehicles)
      && (!Brake(emptyVehicles, vehicles) && AtLeastOne(t.minVehicles) < vehicles < t.maxVehicles ==>
            v == StepVehicles(ratio, t.occupancy, threshold, vehicles))
  {
  }
}
