/** The bike-station telemetry feed: one tick of the simulation loop perturbs
    the available count of every station near the proximity value and clamps
    it to the station's capacity. Coordinates are reals rather than floats. */
module Telemetry {

  datatype BikeStation = BikeStation(id: string, name: string, capacity: int, available: int, x: real)

  /** A station strictly closer than this to the proximity value is perturbed. */
  const NearThreshold: real := 5.0
  /** Each tick draws the perturbation from `Random.nextInt(-2, 3)`. */
  const MaxDelta: int := 2

  function Abs(r: real): real {
    if r < 0.0 then -r else r
  }

  predicate Near(st: BikeStation, proximity: real) {
    Abs(st.x - proximity) < NearThreshold
  }

  predicate DeltaInRange(delta: int) {
    -MaxDelta <= delta <= MaxDelta
  }

  /** Available count within the station's capacity. */
  predicate Stocked(st: BikeStation) {
    0 <= st.available <= st.capacity
  }

  /** Kotlin `coerceIn(lo, hi)`, which rejects `lo > hi`. */
  function CoerceIn(v: int, lo: int, hi: int): (r: int)
    requires lo <= hi
    ensures lo <= r <= hi
    ensures lo <= v <= hi ==> r == v
    ensures v < lo ==> r == lo
    ensures hi < v ==> r == hi
  {
    if v < lo then lo else if hi < v then hi else v
  }

  /** What the tick does to one station. */
  function Perturb(st: BikeStation, proximity: real, delta: int): BikeStation
    requires Near(st, proximity) ==> 0 <= st.capacity
  {
    if Near(st, proximity) then st.(available := CoerceIn(st.available + delta, 0, st.capacity)) else st
  }

  predicate AllStocked(stations: seq<BikeStation>) {
    forall i :: 0 <= i < |stations| ==> Stocked(stations[i])
  }

  /** Capacity is non-negative wherever the tick clamps, as `coerceIn`
      demands of its bounds. */
  predicate ClampableAt(stations: seq<BikeStation>, proximity: real) {
    forall i :: 0 <= i < |stations| && Near(stations[i], proximity) ==> 0 <= stations[i].capacity
  }

  /** One pass of the loop body over all stations; `deltas[i]` is the random
      draw for station `i` (unused when the station is not near). */
  function Tick(stations: seq<BikeStation>, proximity: real, deltas: seq<int>): (r: seq<BikeStation>)
    requires |deltas| == |stations|
    requires ClampableAt(stations, proximity)
    ensures |r| == |stations|
    ensures forall i :: 0 <= i < |r| ==>
      r[i] == stations[i].(available := r[i].available)
    ensures forall i :: 0 <= i < |r| && !Near(stations[i], proximity) ==> r[i] == stations[i]
    ensures forall i :: 0 <= i < |r| && Near(stations[i], proximity) ==> Stocked(r[i])
    ensures AllStocked(stations) ==> AllStocked(r)
    ensures forall i :: 0 <= i < |r| && Near(stations[i], proximity) ==>
      r[i].available == CoerceIn(stations[i].available + deltas[i], 0, stations[i].capacity)
  {
    if |stations| == 0 then []
    else
      assert ClampableAt(stations[1..], proximity) by {
        forall i | 0 <= i < |stations| - 1 && Near(stations[1..][i], proximity)
          ensures 0 <= stations[1..][i].capacity
        {
          assert stations[1..][i] == stations[i + 1];
        }
      }
      [Perturb(stations[0], proximity, deltas[0])] + Tick(stations[1..], proximity, deltas[1..])
  }

  /** Starting from stocked stations, a tick moves each available count by
      at most the largest draw. */
  lemma TickMovesLittle(stations: seq<BikeStation>, proximity: real, deltas: seq<int>)
    requires |deltas| == |stations|
    requires AllStocked(stations)
    requires forall i :: 0 <= i < |deltas| ==> DeltaInRange(deltas[i])
    ensures forall i :: 0 <= i < |stations| ==>
      -MaxDelta <= Tick(stations, proximity, deltas)[i].available - stations[i].available <= MaxDelta
  {
    assert ClampableAt(stations, proximity);
  }

  /** The stations created at start-up. */
  function InitialStations(): seq<BikeStation> {
    [ BikeStation("ST-001", "Gare Centrale", 18, 6, 0.0),
      BikeStation("ST-002", "Campus IMT", 22, 14, 12.0),
      BikeStation("ST-003", "Centre Ville", 12, 3, 25.0) ]
  }

  /** The proximity value at start-up. */
  const InitialProximity: real := 15.0

  /** A tick where only station `k` is near, and its draw stays within
      bounds, moves that station by the draw and nothing else. */
  lemma TickSingleNear(stations: seq<BikeStation>, proximity: real, deltas: seq<int>, k: nat)
    requires |deltas| == |stations|
    requires k < |stations|
    requires Near(stations[k], proximity)
    requires forall i :: 0 <= i < |stations| && i != k ==> !Near(stations[i], proximity)
    requires 0 <= stations[k].available + deltas[k] <= stations[k].capacity
    ensures Tick(stations, proximity, deltas)
         == stations[k := stations[k].(available := stations[k].available + deltas[k])]
  {
    assert ClampableAt(stations, proximity);
    var r := Tick(stations, proximity, deltas);
    var e := stations[k := stations[k].(available := stations[k].available + deltas[k])];
    assert forall i :: 0 <= i < |r| ==> r[i] == e[i];
  }

  /** Which of the start-up stations are near a given proximity value. */
  lemma InitialNearness(proximity: real)
    requires 7.0 < proximity < 17.0
    ensures !Near(InitialStations()[0], proximity)
    ensures Near(InitialStations()[1], proximity)
    ensures !Near(InitialStations()[2], proximity)
  {
  }

  /** A tick with three stations of which only the middle one is near, and
      whose draw stays in range, moves only the middle one. */
  lemma TickMiddleOnly(stations: seq<BikeStation>, proximity: real, deltas: seq<int>)
    requires |stations| == 3 && |deltas| == 3
    requires !Near(stations[0], proximity) && Near(stations[1], proximity) && !Near(stations[2], proximity)
    requires 0 <= stations[1].available + deltas[1] <= stations[1].capacity
    ensures Tick(stations, proximity, deltas)
         == [stations[0], stations[1].(available := stations[1].available + deltas[1]), stations[2]]
  {
    assert ClampableAt(stations, proximity);
    var r := Tick(stations, proximity, deltas);
    assert r[0] == stations[0] && r[2] == stations[2];
    assert r[1] == stations[1].(available := stations[1].available + deltas[1]);
  }

  /** For any proximity strictly between 7 and 17 (10, say, at distance 2
      from Campus IMT) only Campus IMT moves. */
  lemma CampusOnlyScenario(proximity: real, deltas: seq<int>)
    requires 7.0 < proximity < 17.0
    requires |deltas| == 3
    requires DeltaInRange(deltas[1])
    ensures Tick(InitialStations(), proximity, deltas)
         == [InitialStations()[0], InitialStations()[1].(available := 14 + deltas[1]), InitialStations()[2]]
  {
    InitialNearness(proximity);
    TickMiddleOnly(InitialStations(), proximity, deltas);
  }

  /** At the start-up proximity of 15 only the station at 12 is near. */
  lemma InitialProximityScenario(deltas: seq<int>)
    requires |deltas| == 3
    requires forall i :: 0 <= i < 3 ==> DeltaInRange(deltas[i])
    ensures Tick(InitialStations(), InitialProximity, deltas)
         == [InitialStations()[0], InitialStations()[1].(available := 14 + deltas[1]), InitialStations()[2]]
  {
    CampusOnlyScenario(InitialProximity, deltas);
  }
}
