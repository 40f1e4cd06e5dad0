/** The DQN controller's state and decision: two lane counts and a traffic-light
    phase, fed to a trained network, and the argmax of its output. */
module Network {
  import opened Faults
  import opened Traci
  import opened Policy

  /** The trained network in evaluation mode: a deterministic map from a state
      vector to its action values (the output tensor, flattened). */
  type Net = seq<int> -> seq<real>

  /** Pick the first position of the network output's maximum; an empty output
      raises. */
  function SelectAction(net: Net, state: seq<int>): (r: Result<nat>)
    ensures r.Ok? <==> |net(state)| > 0
    ensures r.Ok? ==> IsFirstMax(net(state), r.value) && r.value < |net(state)|
    ensures r.Err? ==> r.fault == EmptyArgmax
  {
    var values := net(state);
    if |values| == 0 then Err(EmptyArgmax) else Ok(Argmax(values))
  }

  /** The action depends on the state only through the network's output: two
      networks and states with the same output select the same action. */
  lemma SelectActionByOutput(net1: Net, s: seq<int>, net2: Net, t: seq<int>)
    requires net1(s) == net2(t)
    ensures SelectAction(net1, s) == SelectAction(net2, t)
  {
  }

  /** Output [2.3, -1.1] for state (5, 12, 1) opens the ramp meter (action 0). */
  lemma SelectActionFirstValueWins(net: Net)
    requires net([5, 12, 1]) == [2.3, -1.1]
    ensures SelectAction(net, [5, 12, 1]) == Ok(0)
  {
  }

  /** The state observation: query the ramp lane, the main-road lane and the phase
      of the intersection's light; the state is the two counts and the phase. */
  function Observe(w: World, h: seq<Event>): (o: Observed<seq<int>>)
    ensures h < o.trace && o.trace <= h + [LaneQuery(RampLane), LaneQuery(MainLane), PhaseQuery(IntersectionLight)]
    ensures o.result.Ok? <==>
              && !w.raises(h, LaneQuery(RampLane))
              && !w.raises(h + [LaneQuery(RampLane)], LaneQuery(MainLane))
              && !w.raises(h + [LaneQuery(RampLane), LaneQuery(MainLane)], PhaseQuery(IntersectionLight))
    ensures o.result.Ok? ==> o.trace == h + [LaneQuery(RampLane), LaneQuery(MainLane), PhaseQuery(IntersectionLight)]
    ensures o.result.Ok? ==> o.result.value == [
              |w.vehicles(h, RampLane)|,
              |w.vehicles(h + [LaneQuery(RampLane)], MainLane)|,
              w.phase(h + [LaneQuery(RampLane), LaneQuery(MainLane)], IntersectionLight)]
    ensures o.result.Ok? ==> |o.result.value| == 3
    ensures o.result.Err? ==> o.result.fault == TraciError
  {
    var h1 := h + [LaneQuery(RampLane)];
    if w.raises(h, LaneQuery(RampLane)) then Observed(h1, Err(TraciError))
    else
      var h2 := h + [LaneQuery(RampLane), LaneQuery(MainLane)];
      if w.raises(h1, LaneQuery(MainLane)) then Observed(h2, Err(TraciError))
      else
        var h3 := h + [LaneQuery(RampLane), LaneQuery(MainLane), PhaseQuery(IntersectionLight)];
        if w.raises(h2, PhaseQuery(IntersectionLight)) then Observed(h3, Err(TraciError))
        else Observed(h3, Ok([|w.vehicles(h, RampLane)|, |w.vehicles(h1, MainLane)|, w.phase(h2, IntersectionLight)]))
  }

  /** `get_current_state` on a live session. */
  method GetCurrentState(s: Session) returns (r: Result<seq<int>>)
    modifies s
    ensures Observed(s.trace, r) == Observe(s.world, old(s.trace))
  {
    var rampIds := s.GetLastStepVehicleIds(RampLane);
    if rampIds.Err? {
      return Err(rampIds.fault);
    }
    var mainIds := s.GetLastStepVehicleIds(MainLane);
    if mainIds.Err? {
      return Err(mainIds.fault);
    }
    assert s.trace == old(s.trace) + [LaneQuery(RampLane), LaneQuery(MainLane)];
    var phase := s.GetPhase(IntersectionLight);
    assert s.trace == old(s.trace) + [LaneQuery(RampLane), LaneQuery(MainLane), PhaseQuery(IntersectionLight)];
    if phase.Err? {
      return Err(phase.fault);
    }
    r := Ok([|rampIds.value|, |mainIds.value|, phase.value]);
  }
}
