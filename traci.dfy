/** The simulator connection (SUMO's TraCI API) as seen by the controller: every call
    it makes is appended to a trace of events, and the simulated world is an input
    that answers queries and decides which call raises, as a function of all the
    calls made before it. */
module Traci {
  import opened Faults

  /** Configuration the two controllers share. */
  const SumoConfigFile: string := "simulation.sumocfg"
  const SumoCommand: seq<string> := ["sumo", "-c", SumoConfigFile]
  const RampLane: string := "ramp_0"
  const MainLane: string := "main_road_0"
  const IntersectionLight: string := "intersection_0"
  const RampMeter: string := "ramp_meter"

  /** What one iteration reports: step index, observed state and chosen action. */
  datatype StepRecord = StepRecord(step: nat, state: seq<int>, action: int)

  /** One call into the simulator, or one report line of the controller. */
  datatype Event =
    | Start(command: seq<string>)          // traci.start
    | SimulationStep                       // traci.simulationStep
    | LaneQuery(lane: string)              // traci.lane.getLastStepVehicleIDs
    | PhaseQuery(light: string)            // traci.trafficlight.getPhase
    | SetPhase(light: string, phase: int)  // traci.trafficlight.setPhase
    | Close                                // traci.close
    | Report(record: StepRecord)           // the per-step report line

  /** The simulated world. Each answer may depend on the whole history of calls,
      so the effect of earlier `SetPhase` commands on the traffic is not lost. */
  datatype World = World(
    raises: (seq<Event>, Event) -> bool,          // does this call, after this history, raise?
    vehicles: (seq<Event>, string) -> seq<string>, // vehicle IDs on a lane in the last step
    phase: (seq<Event>, string) -> nat)            // current phase of a traffic light

  /** A call that issued some events and then returned a value or raised. */
  datatype Observed<T> = Observed(trace: seq<Event>, result: Result<T>)

  /** The connection. `trace` holds every call made on it so far, in order. */
  class Session {
    const world: World
    var trace: seq<Event>

    constructor (world: World)
      ensures this.world == world && trace == []
    {
      this.world := world;
      trace := [];
    }

    method Start(command: seq<string>) returns (ok: bool)
      modifies this
      ensures trace == old(trace) + [Event.Start(command)]
      ensures ok == !world.raises(old(trace), Event.Start(command))
    {
      ok := !world.raises(trace, Event.Start(command));
      trace := trace + [Event.Start(command)];
    }

    method SimulationStep() returns (ok: bool)
      modifies this
      ensures trace == old(trace) + [Event.SimulationStep]
      ensures ok == !world.raises(old(trace), Event.SimulationStep)
    {
      ok := !world.raises(trace, Event.SimulationStep);
      trace := trace + [Event.SimulationStep];
    }

    method GetLastStepVehicleIds(lane: string) returns (r: Result<seq<string>>)
      modifies this
      ensures trace == old(trace) + [LaneQuery(lane)]
      ensures r == if world.raises(old(trace), LaneQuery(lane)) then Err(TraciError)
                   else Ok(world.vehicles(old(trace), lane))
    {
      r := if world.raises(trace, LaneQuery(lane)) then Err(TraciError)
           else Ok(world.vehicles(trace, lane));
      trace := trace + [LaneQuery(lane)];
    }

    method GetPhase(light: string) returns (r: Result<nat>)
      modifies this
      ensures trace == old(trace) + [PhaseQuery(light)]
      ensures r == if world.raises(old(trace), PhaseQuery(light)) then Err(TraciError)
                   else Ok(world.phase(old(trace), light))
    {
      r := if world.raises(trace, PhaseQuery(light)) then Err(TraciError)
           else Ok(world.phase(trace, light));
      trace := trace + [PhaseQuery(light)];
    }

    method SetPhase(light: string, phase: int) returns (ok: bool)
      modifies this
      ensures trace == old(trace) + [Event.SetPhase(light, phase)]
      ensures ok == !world.raises(old(trace), Event.SetPhase(light, phase))
    {
      ok := !world.raises(trace, Event.SetPhase(light, phase));
      trace := trace + [Event.SetPhase(light, phase)];
    }

    method Close() returns (ok: bool)
      modifies this
      ensures trace == old(trace) + [Event.Close]
      ensures ok == !world.raises(old(trace), Event.Close)
    {
      ok := !world.raises(trace, Event.Close);
      trace := trace + [Event.Close];
    }

    /** The report line; writing it never raises. */
    method Report(record: StepRecord)
      modifies this
      ensures trace == old(trace) + [Event.Report(record)]
    {
      trace := trace + [Event.Report(record)];
    }
  }
}
