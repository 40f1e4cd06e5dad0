/** The Q-table controller's state and decision: two lane counts, flattened into a
    row index of a table of action values, and the row's argmax. */
module Tabular {
  import opened Faults
  import opened Traci
  import opened Policy

  /** The row stride the encoding assumes (`ramp * 10 + main`). */
  const Base: nat := 10

  /** The observed state: vehicles on the ramp lane and on the main-road lane. */
  datatype State = State(ramp: nat, main: nat)

  /** The state as the report line shows it. */
  function Vector(s: State): seq<int>
  {
    [s.ramp, s.main]
  }

  /** Row-major flattening of the state. The index is a natural number, and as long
      as the main-road count stays below the stride, the index gives both counts back. */
  function EncodeState(s: State): (index: nat)
    ensures s.ramp * Base <= index
    ensures s.main < Base ==> index / Base == s.ramp && index % Base == s.main
  {
    s.ramp * Base + s.main
  }

  /** The reported pair names the table row the decision read. */
  lemma VectorNamesRow(s: State)
    ensures |Vector(s)| == 2 && Vector(s)[0] * Base + Vector(s)[1] == EncodeState(s)
  {
  }

  /** Distinct states with main-road counts below the stride never share a row. */
  lemma EncodeStateInjective(s: State, t: State)
    requires s.main < Base && t.main < Base
    requires EncodeState(s) == EncodeState(t)
    ensures s == t
  {
  }

  /** Past the stride, rows are shared: 10 vehicles on the main road and none on the
      ramp land on the same row as one on the ramp and none on the main road. */
  lemma EncodeStateCollides()
    ensures State(0, 10) != State(1, 0)
    ensures EncodeState(State(0, 10)) == EncodeState(State(1, 0)) == 10
  {
  }

  /** Pick the action of the state's row: the row index must lie inside the table
      (there is no clamping or wrap-around), the row must not be empty, and the
      action is the first position of the row's maximum. */
  function SelectAction(table: seq<seq<real>>, s: State): (r: Result<nat>)
    ensures r.Ok? <==> EncodeState(s) < |table| && |table[EncodeState(s)]| > 0
    ensures EncodeState(s) >= |table| ==> r == Err(IndexOutOfRange(EncodeState(s), |table|))
    ensures EncodeState(s) < |table| && table[EncodeState(s)] == [] ==> r == Err(EmptyArgmax)
    ensures r.Ok? ==> IsFirstMax(table[EncodeState(s)], r.value)
  {
    var index := EncodeState(s);
    if index >= |table| then Err(IndexOutOfRange(index, |table|))
    else if |table[index]| == 0 then Err(EmptyArgmax)
    else Ok(Argmax(table[index]))
  }

  /** Table of shape 100 by 2, state (2, 3): row 23 holds [0.1, 0.9], so the
      controller closes the ramp meter (action 1). */
  lemma SelectActionRowTwentyThree(table: seq<seq<real>>)
    requires |table| == 100 && table[23] == [0.1, 0.9]
    ensures SelectAction(table, State(2, 3)) == Ok(1)
  {
  }

  /** A tie in the row goes to the lower action: [0.5, 0.5] opens the ramp meter. */
  lemma SelectActionTieOpens(table: seq<seq<real>>)
    requires |table| > 0 && table[0] == [0.5, 0.5]
    ensures SelectAction(table, State(0, 0)) == Ok(0)
  {
  }

  /** The state observation: query the ramp lane, then the main-road lane, and count
      the vehicle IDs of each. A raising query ends the observation there. */
  function Observe(w: World, h: seq<Event>): (o: Observed<State>)
    ensures o.trace == h + [LaneQuery(RampLane)] || o.trace == h + [LaneQuery(RampLane), LaneQuery(MainLane)]
    ensures o.result.Ok? <==>
              !w.raises(h, LaneQuery(RampLane)) && !w.raises(h + [LaneQuery(RampLane)], LaneQuery(MainLane))
    ensures o.result.Ok? ==> o.trace == h + [LaneQuery(RampLane), LaneQuery(MainLane)]
    ensures o.result.Ok? ==> o.result.value.ramp == |w.vehicles(h, RampLane)|
    ensures o.result.Ok? ==> o.result.value.main == |w.vehicles(h + [LaneQuery(RampLane)], MainLane)|
    ensures o.result.Err? ==> o.result.fault == TraciError
  {
    var h1 := h + [LaneQuery(RampLane)];
    if w.raises(h, LaneQuery(RampLane)) then Observed(h1, Err(TraciError))
    else
      var h2 := h1 + [LaneQuery(MainLane)];
      if w.raises(h1, LaneQuery(MainLane)) then Observed(h2, Err(TraciError))
      else Observed(h2, Ok(State(|w.vehicles(h, RampLane)|, |w.vehicles(h1, MainLane)|)))
  }

  /** `get_current_state` on a live session. */
  method GetCurrentState(s: Session) returns (r: Result<State>)
    modifies s
    ensures Observed(s.trace, r) == Observe(s.world, old(s.trace))
  {
    var rampIds := s.GetLastStepVehicleIds(RampLane);
    if rampIds.Err? {
      return Err(rampIds.fault);
    }
    var mainIds := s.GetLastStepVehicleIds(MainLane);
    if mainIds.Err? {
      return Err(mainIds.fault);
    }
    r := Ok(State(|rampIds.value|, |mainIds.value|));
  }
}
