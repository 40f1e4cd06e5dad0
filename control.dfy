/** The control loop both entry points run: start the simulator, then for each of a
    fixed number of steps advance it, observe the state, pick an action with the
    policy, apply it to the ramp meter and report the step; close the simulator on
    every way out of the loop. */
module Control {
  import opened Faults
  import opened Traci
  import Tabular
  import Network
  import Policy

  /** Number of iterations of a run. */
  const NumSteps: nat := 1000

  /** The report's names of the two ramp-meter actions. */
  const ActionMapping: map<int, string> := map[0 := "green", 1 := "red"]

  /** The decision procedure, loaded before the run and read-only during it. */
  datatype Backend =
    | TabularBackend(table: seq<seq<real>>)
    | NetworkBackend(net: Network.Net)

  /** The iteration that raised and what it raised. */
  datatype Abort = Abort(step: nat, fault: Fault)

  /** How a run ends. A fault raised by `close` replaces the one pending, as an
      exception raised in a `finally` block does. */
  datatype Exit =
    | Finished
    | StartFailed
    | Aborted(step: nat, fault: Fault)
    | CloseFailed(pending: Option<Abort>)

  /** The state of the loop: calls made so far, records of the completed
      iterations, and the fault that stopped it, if any. */
  datatype Progress = Progress(trace: seq<Event>, records: seq<StepRecord>, abort: Option<Abort>)

  /** A whole run: every call made, the records reported, how it ended. */
  datatype Execution = Execution(trace: seq<Event>, records: seq<StepRecord>, exit: Exit)

  // ---------------------------------------------------------------------------
  // Applying an action

  /** `apply_action`: action 0 opens the ramp meter, action 1 closes it, and any
      other value issues no command. */
  method ApplyAction(s: Session, action: int) returns (ok: bool)
    modifies s
    ensures action == 0 ==> s.trace == old(s.trace) + [SetPhase(RampMeter, 0)]
    ensures action == 1 ==> s.trace == old(s.trace) + [SetPhase(RampMeter, 1)]
    ensures action == 0 || action == 1 ==> ok == !s.world.raises(old(s.trace), SetPhase(RampMeter, action))
    ensures action != 0 && action != 1 ==> s.trace == old(s.trace) && ok
  {
    if action == 0 {
      ok := s.SetPhase(RampMeter, 0);
    } else if action == 1 {
      ok := s.SetPhase(RampMeter, 1);
    } else {
      ok := true;
    }
  }

  // ---------------------------------------------------------------------------
  // One iteration, as a function of the history of calls

  /** Observe the state and select an action with the backend. */
  function Decide(b: Backend, w: World, h: seq<Event>): Observed<(seq<int>, nat)>
  {
    match b
    case TabularBackend(table) =>
      var o := Tabular.Observe(w, h);
      if o.result.Err? then Observed(o.trace, Err(o.result.fault))
      else
        var a := Tabular.SelectAction(table, o.result.value);
        if a.Err? then Observed(o.trace, Err(a.fault))
        else Observed(o.trace, Ok((Tabular.Vector(o.result.value), a.value)))
    case NetworkBackend(net) =>
      var o := Network.Observe(w, h);
      if o.result.Err? then Observed(o.trace, Err(o.result.fault))
      else
        var a := Network.SelectAction(net, o.result.value);
        if a.Err? then Observed(o.trace, Err(a.fault))
        else Observed(o.trace, Ok((o.result.value, a.value)))
  }

  /** Iteration `k` after history `h`: advance, observe and decide, apply, look the
      action up in `ActionMapping`, report. */
  function Iteration(b: Backend, w: World, h: seq<Event>, k: nat): Observed<StepRecord>
  {
    var stepped := h + [SimulationStep];
    if w.raises(h, SimulationStep) then Observed(stepped, Err(TraciError))
    else
      var d := Decide(b, w, stepped);
      if d.result.Err? then Observed(d.trace, Err(d.result.fault))
      else
        var state := d.result.value.0;
        var action := d.result.value.1;
        var sets := action == 0 || action == 1;
        var applied := if sets then d.trace + [SetPhase(RampMeter, action)] else d.trace;
        if sets && w.raises(d.trace, SetPhase(RampMeter, action)) then Observed(applied, Err(TraciError))
        else if action !in ActionMapping then Observed(applied, Err(UnmappedAction(action)))
        else
          var record := StepRecord(k, state, action);
          Observed(applied + [Report(record)], Ok(record))
  }

  /** A loop body: iteration `k` after a history of calls. */
  type Body = (seq<Event>, nat) -> Observed<StepRecord>

  /** The loop body of a run with backend `b` in world `w`. */
  function BodyOf(b: Backend, w: World): Body
  {
    (h: seq<Event>, k: nat) => Iteration(b, w, h, k)
  }

  /** The loop from iteration `|records|` on, up to `n` iterations, stopping at the
      first that raises. */
  function Loop(body: Body, h: seq<Event>, records: seq<StepRecord>, n: nat): Progress
    decreases n - |records|
  {
    if n <= |records| then Progress(h, records, None)
    else
      var it := body(h, |records|);
      match it.result
      case Err(f) => Progress(it.trace, records, Some(Abort(|records|, f)))
      case Ok(record) => Loop(body, it.trace, records + [record], n)
  }

  /** The exit of a run whose loop stopped with `abort` and whose `close` did or did
      not succeed. */
  function ExitOf(abort: Option<Abort>, closed: bool): Exit
  {
    if !closed then CloseFailed(abort)
    else match abort
      case None => Finished
      case Some(a) => Aborted(a.step, a.fault)
  }

  /** A run of `n` iterations in world `w`. A failing start is outside the guarded
      block, so then nothing is closed. */
  function Execute(b: Backend, w: World, n: nat): Execution
  {
    var started := [Start(SumoCommand)];
    if w.raises([], Start(SumoCommand)) then Execution(started, [], StartFailed)
    else
      var p := Loop(BodyOf(b, w), started, [], n);
      Execution(p.trace + [Close], p.records, ExitOf(p.abort, !w.raises(p.trace, Close)))
  }

  // ---------------------------------------------------------------------------
  // The run on a live session

  /** One pass of the loop body on a live session. */
  method RunIteration(s: Session, b: Backend, k: nat) returns (r: Result<StepRecord>)
    modifies s
    ensures Observed(s.trace, r) == Iteration(b, s.world, old(s.trace), k)
  {
    var stepped := s.SimulationStep();
    if !stepped {
      return Err(TraciError);
    }
    var state: seq<int>;
    var action: nat;
    match b {
      case TabularBackend(table) =>
        var o := Tabular.GetCurrentState(s);
        if o.Err? {
          return Err(o.fault);
        }
        var a := Tabular.SelectAction(table, o.value);
        if a.Err? {
          return Err(a.fault);
        }
        state, action := Tabular.Vector(o.value), a.value;
      case NetworkBackend(net) =>
        var o := Network.GetCurrentState(s);
        if o.Err? {
          return Err(o.fault);
        }
        var a := Network.SelectAction(net, o.value);
        if a.Err? {
          return Err(a.fault);
        }
        state, action := o.value, a.value;
    }
    var applied := ApplyAction(s, action);
    if !applied {
      return Err(TraciError);
    }
    if action !in ActionMapping {
      return Err(UnmappedAction(action));
    }
    r := Ok(StepRecord(k, state, action));
    s.Report(r.value);
  }

  /** `main`: start the simulator, run `n` iterations inside a guarded block and
      close the simulator however the block ends. */
  method Run(s: Session, b: Backend, n: nat) returns (exit: Exit)
    requires s.trace == []
    modifies s
    ensures s.trace == Execute(b, s.world, n).trace
    ensures exit == Execute(b, s.world, n).exit
  {
    var started := s.Start(SumoCommand);
    if !started {
      assert s.trace == [Start(SumoCommand)];
      assert s.world.raises([], Start(SumoCommand));
      return StartFailed;
    }
    ghost var h0 := s.trace;
    ghost var records: seq<StepRecord> := [];
    var k := 0;
    var abort: Option<Abort> := None;
    while k < n && abort.None?
      invariant k == |records| <= n
      invariant abort.None? ==> Loop(BodyOf(b, s.world), s.trace, records, n) == Loop(BodyOf(b, s.world), h0, [], n)
      invariant abort.Some? ==> Loop(BodyOf(b, s.world), h0, [], n) == Progress(s.trace, records, abort)
      decreases n - k, if abort.None? then 1 else 0
    {
      var r := RunIteration(s, b, k);
      if r.Err? {
        abort := Some(Abort(k, r.fault));
      } else {
        records := records + [r.value];
        k := k + 1;
      }
    }
    assert Loop(BodyOf(b, s.world), h0, [], n) == Progress(s.trace, records, abort);
    var closed := s.Close();
    exit := ExitOf(abort, closed);
  }

  /** The Q-table entry point. */
  method QLearningMain(s: Session, table: seq<seq<real>>) returns (exit: Exit)
    requires s.trace == []
    modifies s
    ensures s.trace == Execute(TabularBackend(table), s.world, NumSteps).trace
    ensures exit == Execute(TabularBackend(table), s.world, NumSteps).exit
  {
    exit := Run(s, TabularBackend(table), NumSteps);
  }

  /** The DQN entry point. */
  method DqnMain(s: Session, net: Network.Net) returns (exit: Exit)
    requires s.trace == []
    modifies s
    ensures s.trace == Execute(NetworkBackend(net), s.world, NumSteps).trace
    ensures exit == Execute(NetworkBackend(net), s.world, NumSteps).exit
  {
    exit := Run(s, NetworkBackend(net), NumSteps);
  }

  // ---------------------------------------------------------------------------
  // What a run looks like from outside

  /** The queries of the observation: the two lanes, then (for the network) the
      phase of the intersection's light. */
  function Queries(b: Backend): seq<Event>
  {
    [LaneQuery(RampLane), LaneQuery(MainLane)]
      + (if b.NetworkBackend? then [PhaseQuery(IntersectionLight)] else [])
  }

  /** The calls an iteration makes before it decides: advance, then observe. */
  function Attempt(b: Backend): seq<Event>
  {
    [SimulationStep] + Queries(b)
  }

  /** The calls of one completed iteration, in order. */
  function Block(b: Backend, record: StepRecord): seq<Event>
  {
    Attempt(b) + [SetPhase(RampMeter, record.action), Report(record)]
  }

  /** Completed iterations back to back. */
  function Render(b: Backend, records: seq<StepRecord>): seq<Event>
  {
    if records == [] then []
    else Render(b, records[..|records| - 1]) + Block(b, records[|records| - 1])
  }

  /** The calls of an iteration that raised: a non-empty start of the calls made
      before deciding, or all of them followed by a ramp-meter command that raised. */
  predicate Interrupted(b: Backend, part: seq<Event>)
  {
    var attempt := Attempt(b);
    if |part| <= |attempt| then 0 < |part| && part == attempt[..|part|]
    else
      && |part| == |attempt| + 1
      && part[|attempt|].SetPhase?
      && part[|attempt|].phase in ActionMapping
      && part == attempt + [SetPhase(RampMeter, part[|attempt|].phase)]
  }

  /** Records of completed iterations: numbered from 0 in order, each action one of
      the two mapped ones, each state of the backend's fixed shape. */
  predicate WellFormed(b: Backend, records: seq<StepRecord>)
  {
    forall i :: 0 <= i < |records| ==>
      && records[i].step == i
      && records[i].action in ActionMapping
      && |records[i].state| == (if b.TabularBackend? then 2 else 3)
  }

  /** The report lines of a trace, in order. */
  function Reports(trace: seq<Event>): seq<StepRecord>
  {
    if trace == [] then []
    else Reports(trace[..|trace| - 1]) + (if trace[|trace| - 1].Report? then [trace[|trace| - 1].record] else [])
  }

  /** The iteration that was cut short, if any. */
  function Pending(exit: Exit): Option<Abort>
  {
    match exit
    case Aborted(k, f) => Some(Abort(k, f))
    case CloseFailed(p) => p
    case _ => None
  }

  /** Observing and deciding makes the backend's queries, or a non-empty start of
      them when a query raises, and a decided state has the backend's shape. */
  lemma DecideShape(b: Backend, w: World, h: seq<Event>)
    ensures var d := Decide(b, w, h);
      && (d.result.Ok? ==> d.trace == h + Queries(b)
                           && |d.result.value.0| == (if b.TabularBackend? then 2 else 3))
      && (d.result.Err? ==> h < d.trace <= h + Queries(b))
  {
    match b
    case TabularBackend(_) =>
    case NetworkBackend(_) =>
  }

  /** A completed iteration makes exactly the calls of `Block`, and its record
      carries its index, a mapped action and a state of the backend's shape. */
  lemma IterationCompletes(b: Backend, w: World, h: seq<Event>, k: nat)
    requires Iteration(b, w, h, k).result.Ok?
    ensures var it := Iteration(b, w, h, k);
      && it.trace == h + Block(b, it.result.value)
      && it.result.value.step == k
      && it.result.value.action in ActionMapping
      && |it.result.value.state| == (if b.TabularBackend? then 2 else 3)
  {
    DecideShape(b, w, h + [SimulationStep]);
  }

  /** An iteration whose observation or decision raises has made a non-empty start
      of the calls before deciding. */
  lemma DecideInterrupted(b: Backend, w: World, h: seq<Event>, k: nat)
    requires !w.raises(h, SimulationStep)
    requires Decide(b, w, h + [SimulationStep]).result.Err?
    ensures var it := Iteration(b, w, h, k);
      h < it.trace && Interrupted(b, it.trace[|h|..])
  {
    var stepped := h + [SimulationStep];
    var d := Decide(b, w, stepped);
    DecideShape(b, w, stepped);
    assert Iteration(b, w, h, k).trace == d.trace;
    assert d.trace[|h|..] == [SimulationStep] + d.trace[|stepped|..];
  }

  /** An iteration that decided and then raised has made all the calls before
      deciding, and possibly the ramp-meter command. */
  lemma ApplyInterrupted(b: Backend, w: World, h: seq<Event>, k: nat)
    requires !w.raises(h, SimulationStep)
    requires Decide(b, w, h + [SimulationStep]).result.Ok?
    requires Iteration(b, w, h, k).result.Err?
    ensures var it := Iteration(b, w, h, k);
      h < it.trace && Interrupted(b, it.trace[|h|..])
  {
    DecideShape(b, w, h + [SimulationStep]);
    assert Decide(b, w, h + [SimulationStep]).trace == h + Attempt(b);
  }

  /** An iteration that raises stops part-way through, before its report. */
  lemma IterationInterrupted(b: Backend, w: World, h: seq<Event>, k: nat)
    requires Iteration(b, w, h, k).result.Err?
    ensures var it := Iteration(b, w, h, k);
      h < it.trace && Interrupted(b, it.trace[|h|..])
  {
    if w.raises(h, SimulationStep) {
      assert Iteration(b, w, h, k).trace[|h|..] == [SimulationStep];
    } else if Decide(b, w, h + [SimulationStep]).result.Err? {
      DecideInterrupted(b, w, h, k);
    } else {
      ApplyInterrupted(b, w, h, k);
    }
  }

  /** An iteration either completes or raises part-way through. */
  lemma IterationShape(b: Backend, w: World, h: seq<Event>, k: nat)
    ensures var it := Iteration(b, w, h, k);
      && (it.result.Ok? ==>
            && it.trace == h + Block(b, it.result.value)
            && it.result.value.step == k
            && it.result.value.action in ActionMapping
            && |it.result.value.state| == (if b.TabularBackend? then 2 else 3))
      && (it.result.Err? ==> h < it.trace && Interrupted(b, it.trace[|h|..]))
  {
    if Iteration(b, w, h, k).result.Ok? {
      IterationCompletes(b, w, h, k);
    } else {
      IterationInterrupted(b, w, h, k);
    }
  }

  /** With the Q-table, deciding makes exactly the observation's calls; it succeeds
      exactly when the observation and the row lookup do, and then yields the
      observed counts and the first maximum of their row. */
  lemma DecideTabular(table: seq<seq<real>>, w: World, h: seq<Event>)
    ensures var o := Tabular.Observe(w, h);
      Decide(TabularBackend(table), w, h).trace == o.trace
    ensures var o := Tabular.Observe(w, h);
      Decide(TabularBackend(table), w, h).result.Ok? <==>
        o.result.Ok? && Tabular.SelectAction(table, o.result.value).Ok?
    ensures var o := Tabular.Observe(w, h); var d := Decide(TabularBackend(table), w, h);
      d.result.Ok? ==>
        && d.result.value.0 == Tabular.Vector(o.result.value)
        && Policy.IsFirstMax(table[Tabular.EncodeState(o.result.value)], d.result.value.1)
  {
  }

  /** With the network, deciding makes exactly the observation's calls; it succeeds
      exactly when the observation does and the output is non-empty, and then yields
      the observed vector and the first maximum of the network's output for it. */
  lemma DecideNetwork(net: Network.Net, w: World, h: seq<Event>)
    ensures var o := Network.Observe(w, h);
      Decide(NetworkBackend(net), w, h).trace == o.trace
    ensures var o := Network.Observe(w, h);
      Decide(NetworkBackend(net), w, h).result.Ok? <==> o.result.Ok? && |net(o.result.value)| > 0
    ensures var o := Network.Observe(w, h); var d := Decide(NetworkBackend(net), w, h);
      d.result.Ok? ==>
        && d.result.value.0 == o.result.value
        && Policy.IsFirstMax(net(o.result.value), d.result.value.1)
  {
  }

  /** A completed iteration reports its own index with the state it observed and the
      action the policy selected. */
  lemma IterationRecord(b: Backend, w: World, h: seq<Event>, k: nat)
    requires Iteration(b, w, h, k).result.Ok?
    ensures !w.raises(h, SimulationStep)
    ensures var d := Decide(b, w, h + [SimulationStep]);
      && d.result.Ok?
      && Iteration(b, w, h, k).result.value == StepRecord(k, d.result.value.0, d.result.value.1)
  {
  }

  /** A selected action outside {0, 1} issues no ramp-meter command; the report's
      `ActionMapping` lookup then raises, so the iteration ends right after deciding,
      with nothing reported. */
  lemma IterationUnmapped(b: Backend, w: World, h: seq<Event>, k: nat, state: seq<int>, action: nat)
    requires !w.raises(h, SimulationStep)
    requires Decide(b, w, h + [SimulationStep]).result == Ok((state, action))
    requires action != 0 && action != 1
    ensures Iteration(b, w, h, k) ==
      Observed(Decide(b, w, h + [SimulationStep]).trace, Err(UnmappedAction(action)))
  {
  }

  /** A ramp-meter command that raises ends the iteration with the simulator fault,
      the command being the last call and nothing reported. */
  lemma IterationCommandFails(b: Backend, w: World, h: seq<Event>, k: nat, state: seq<int>, action: nat)
    requires !w.raises(h, SimulationStep)
    requires Decide(b, w, h + [SimulationStep]).result == Ok((state, action))
    requires action == 0 || action == 1
    requires w.raises(Decide(b, w, h + [SimulationStep]).trace, SetPhase(RampMeter, action))
    ensures Iteration(b, w, h, k) ==
      Observed(Decide(b, w, h + [SimulationStep]).trace + [SetPhase(RampMeter, action)], Err(TraciError))
  {
  }

  lemma {:induction false} RenderAppend(b: Backend, records: seq<StepRecord>, record: StepRecord)
    ensures Render(b, records + [record]) == Render(b, records) + Block(b, record)
  {
    assert (records + [record])[..|records|] == records;
  }

  /** What an iteration promises: a completed one makes exactly the calls of its
      block and carries its index, a mapped action and a state of the backend's
      shape; one that raises stops part-way through, before its report. */
  predicate Shaped(b: Backend, h: seq<Event>, k: nat, it: Observed<StepRecord>)
  {
    && (it.result.Ok? ==>
          && it.trace == h + Block(b, it.result.value)
          && it.result.value.step == k
          && it.result.value.action in ActionMapping
          && |it.result.value.state| == (if b.TabularBackend? then 2 else 3))
    && (it.result.Err? ==> h < it.trace && Interrupted(b, it.trace[|h|..]))
  }

  /** Every iteration of a run is shaped. */
  lemma BodyShaped(b: Backend, w: World)
    ensures forall h, k :: Shaped(b, h, k, BodyOf(b, w)(h, k))
  {
    forall h, k ensures Shaped(b, h, k, BodyOf(b, w)(h, k)) {
      IterationShape(b, w, h, k);
    }
  }

  /** From any point where the completed iterations are `records`, a loop of shaped
      iterations adds well-formed records one at a time, and stops either after `n`
      of them or at the first iteration that raises. */
  lemma {:induction false} LoopRecords(b: Backend, body: Body, h: seq<Event>, records: seq<StepRecord>, n: nat)
    requires forall h, k :: Shaped(b, h, k, body(h, k))
    requires WellFormed(b, records) && |records| <= n
    ensures var p := Loop(body, h, records, n);
      && WellFormed(b, p.records)
      && records <= p.records
      && |p.records| == (if p.abort.None? then n else p.abort.value.step)
      && (p.abort.Some? ==> p.abort.value.step < n)
    decreases n - |records|
  {
    if |records| < n {
      var it := body(h, |records|);
      assert Shaped(b, h, |records|, it);
      if it.result.Ok? {
        LoopRecords(b, body, it.trace, records + [it.result.value], n);
      }
    }
  }

  /** From any point where the calls so far are `h0` followed by the blocks of
      `records`, the calls of a loop of shaped iterations are `h0`, the blocks of all
      its records, and the calls `part` of the iteration that raised, empty exactly
      when none did. */
  lemma {:induction false} LoopShape(b: Backend, body: Body, h0: seq<Event>, h: seq<Event>, records: seq<StepRecord>, n: nat)
    returns (part: seq<Event>)
    requires forall h, k :: Shaped(b, h, k, body(h, k))
    requires h == h0 + Render(b, records)
    ensures var p := Loop(body, h, records, n);
      && p.trace == h0 + Render(b, p.records) + part
      && (p.abort.None? <==> part == [])
      && (p.abort.Some? ==> Interrupted(b, part))
    decreases n - |records|
  {
    if n <= |records| {
      part := [];
    } else {
      var it := body(h, |records|);
      assert Shaped(b, h, |records|, it);
      if it.result.Ok? {
        RenderAppend(b, records, it.result.value);
        part := LoopShape(b, body, h0, it.trace, records + [it.result.value], n);
      } else {
        part := it.trace[|h|..];
        assert it.trace == h + part;
      }
    }
  }

  /** After an iteration that completes, the loop goes on from its calls with its
      record appended. */
  lemma LoopContinues(body: Body, h: seq<Event>, records: seq<StepRecord>, n: nat)
    requires |records| < n && body(h, |records|).result.Ok?
    ensures var it := body(h, |records|);
      Loop(body, h, records, n) == Loop(body, it.trace, records + [it.result.value], n)
  {
  }

  /** After an iteration that raises, the loop stops with that iteration's fault. */
  lemma LoopStops(body: Body, h: seq<Event>, records: seq<StepRecord>, n: nat)
    requires |records| < n && body(h, |records|).result.Err?
    ensures var it := body(h, |records|);
      Loop(body, h, records, n) == Progress(it.trace, records, Some(Abort(|records|, it.result.fault)))
  {
  }

  lemma {:induction false} RenderHasNoLifecycleCalls(b: Backend, records: seq<StepRecord>)
    ensures forall e :: e in Render(b, records) ==> !e.Start? && !e.Close?
  {
    if records != [] {
      RenderHasNoLifecycleCalls(b, records[..|records| - 1]);
    }
  }

  /** An interrupted iteration holds only simulator commands: no report, no start,
      no close. */
  lemma InterruptedCalls(b: Backend, part: seq<Event>)
    requires Interrupted(b, part)
    ensures forall e :: e in part ==> e.SimulationStep? || e.LaneQuery? || e.PhaseQuery? || e.SetPhase?
  {
    forall e | e in part
      ensures e.SimulationStep? || e.LaneQuery? || e.PhaseQuery? || e.SetPhase?
    {
      var i :| 0 <= i < |part| && part[i] == e;
      assert e in Attempt(b) + [SetPhase(RampMeter, 0), SetPhase(RampMeter, 1)];
    }
  }

  lemma {:induction false} ReportsAppend(t: seq<Event>, u: seq<Event>)
    ensures Reports(t + u) == Reports(t) + Reports(u)
    decreases |u|
  {
    if u != [] {
      assert (t + u)[..|t + u| - 1] == t + u[..|u| - 1];
      ReportsAppend(t, u[..|u| - 1]);
    } else {
      assert t + u == t;
    }
  }

  lemma {:induction false} ReportsOfNoReports(t: seq<Event>)
    requires forall e :: e in t ==> !e.Report?
    ensures Reports(t) == []
  {
    if t != [] {
      ReportsOfNoReports(t[..|t| - 1]);
    }
  }

  lemma ReportsOfBlock(b: Backend, record: StepRecord)
    ensures Reports(Block(b, record)) == [record]
  {
    var commands := Attempt(b) + [SetPhase(RampMeter, record.action)];
    assert Block(b, record) == commands + [Report(record)];
    ReportsAppend(commands, [Report(record)]);
    ReportsOfNoReports(commands);
    assert Reports([Report(record)]) == Reports([]) + [record];
  }

  /** The report lines of completed iterations are their records, in order. */
  lemma {:induction false} ReportsOfRender(b: Backend, records: seq<StepRecord>)
    ensures Reports(Render(b, records)) == records
  {
    if records != [] {
      var last := records[|records| - 1];
      ReportsOfRender(b, records[..|records| - 1]);
      ReportsAppend(Render(b, records[..|records| - 1]), Block(b, last));
      ReportsOfBlock(b, last);
    }
  }

  /** A started run is the start, the completed iterations, possibly one
      interrupted iteration, and the close. */
  lemma ExecuteShape(b: Backend, w: World, n: nat) returns (part: seq<Event>)
    requires !w.raises([], Start(SumoCommand))
    ensures var e := Execute(b, w, n);
      && !e.exit.StartFailed?
      && e.trace == [Start(SumoCommand)] + Render(b, e.records) + part + [Close]
      && (part == [] || Interrupted(b, part))
      && WellFormed(b, e.records)
      && (Pending(e.exit).None? <==> part == [])
      && (Pending(e.exit).None? ==> |e.records| == n)
      && (Pending(e.exit).Some? ==> Pending(e.exit).value.step < n
                                    && |e.records| == Pending(e.exit).value.step
                                    && Interrupted(b, part))
  {
    var started := [Start(SumoCommand)];
    var p := Loop(BodyOf(b, w), started, [], n);
    BodyShaped(b, w);
    LoopRecords(b, BodyOf(b, w), started, [], n);
    part := LoopShape(b, BodyOf(b, w), started, started, [], n);
    var closed := !w.raises(p.trace, Close);
    assert Execute(b, w, n) == Execution(p.trace + [Close], p.records, ExitOf(p.abort, closed));
    assert Pending(ExitOf(p.abort, closed)) == p.abort;
  }

  /** In a started run, only the first call starts the simulator. */
  lemma StartedRunStartsOnce(b: Backend, records: seq<StepRecord>, part: seq<Event>)
    requires part == [] || Interrupted(b, part)
    ensures var t := [Start(SumoCommand)] + Render(b, records) + part + [Close];
      forall i :: 0 < i < |t| ==> !t[i].Start?
  {
    var rendered := Render(b, records);
    var t := [Start(SumoCommand)] + rendered + part + [Close];
    RenderHasNoLifecycleCalls(b, records);
    if part != [] {
      InterruptedCalls(b, part);
    }
    forall i | 0 < i < |t|
      ensures !t[i].Start?
    {
      if i <= |rendered| {
        assert t[i] == rendered[i - 1];
      } else if i < |rendered| + |part| + 1 {
        assert t[i] == part[i - 1 - |rendered|];
      }
    }
  }

  /** In a started run, the last call closes the simulator and no other does. */
  lemma StartedRunClosesOnce(b: Backend, records: seq<StepRecord>, part: seq<Event>)
    requires part == [] || Interrupted(b, part)
    ensures var t := [Start(SumoCommand)] + Render(b, records) + part + [Close];
      t[|t| - 1] == Close && multiset(t)[Close] == 1
  {
    var rendered := Render(b, records);
    RenderHasNoLifecycleCalls(b, records);
    if part != [] {
      InterruptedCalls(b, part);
    }
    var before := [Start(SumoCommand)] + rendered + part;
    assert Close !in before;
    assert multiset(before)[Close] == 0;
    assert multiset(before + [Close]) == multiset(before) + multiset([Close]);
  }

  /** In a started run, the report lines are the records of the completed
      iterations. */
  lemma StartedRunReports(b: Backend, records: seq<StepRecord>, part: seq<Event>)
    requires part == [] || Interrupted(b, part)
    ensures Reports([Start(SumoCommand)] + Render(b, records) + part + [Close]) == records
  {
    var started, rendered, closed := [Start(SumoCommand)], Render(b, records), [Close];
    if part != [] {
      InterruptedCalls(b, part);
    }
    ReportsOfNoReports(started);
    ReportsOfNoReports(part);
    ReportsOfNoReports(closed);
    ReportsOfRender(b, records);
    ReportsAppend(started, rendered);
    ReportsAppend(started + rendered, part);
    ReportsAppend(started + rendered + part, closed);
    calc {
      Reports(started + rendered + part + closed);
      Reports(started + rendered + part) + Reports(closed);
      Reports(started + rendered) + Reports(part);
      Reports(started) + Reports(rendered);
      records;
    }
  }

  /** The simulator is started exactly once, by the first call of the run. */
  lemma ExecuteStartsOnce(b: Backend, w: World, n: nat)
    ensures var e := Execute(b, w, n);
      && 0 < |e.trace| && e.trace[0] == Start(SumoCommand)
      && forall i :: 0 < i < |e.trace| ==> !e.trace[i].Start?
  {
    if !w.raises([], Start(SumoCommand)) {
      var part := ExecuteShape(b, w, n);
      StartedRunStartsOnce(b, Execute(b, w, n).records, part);
    }
  }

  /** The simulator is closed exactly once, by the last call, on every way out of the
      loop; only a failing start leaves nothing to close. */
  lemma ExecuteClosesOnce(b: Backend, w: World, n: nat)
    ensures var e := Execute(b, w, n);
      && (e.exit.StartFailed? <==> w.raises([], Start(SumoCommand)))
      && (e.exit.StartFailed? ==> e.trace == [Start(SumoCommand)])
      && (!e.exit.StartFailed? ==> e.trace[|e.trace| - 1] == Close && multiset(e.trace)[Close] == 1)
  {
    if !w.raises([], Start(SumoCommand)) {
      var part := ExecuteShape(b, w, n);
      StartedRunClosesOnce(b, Execute(b, w, n).records, part);
    }
  }

  /** Iterations run strictly one after another: between the start and the close,
      a started run is its completed iterations in order, all `n` of them unless
      iteration `k < n` raised, which then is the last iteration begun and leaves
      exactly `k` completed ones before it. */
  lemma ExecuteIterations(b: Backend, w: World, n: nat)
    ensures var e := Execute(b, w, n);
      && WellFormed(b, e.records)
      && (!e.exit.StartFailed? ==>
            2 <= |e.trace| &&
            var body := e.trace[1..|e.trace| - 1];
            && (Pending(e.exit).None? ==> |e.records| == n && body == Render(b, e.records))
            && (Pending(e.exit).Some? ==>
                  && Pending(e.exit).value.step < n
                  && |e.records| == Pending(e.exit).value.step
                  && Render(b, e.records) < body
                  && Interrupted(b, body[|Render(b, e.records)|..])))
  {
    if !w.raises([], Start(SumoCommand)) {
      var e := Execute(b, w, n);
      var part := ExecuteShape(b, w, n);
      assert e.trace[1..|e.trace| - 1] == Render(b, e.records) + part;
    }
  }

  /** The report lines of a run are the records of its completed iterations: one
      per iteration, numbered 0, 1, ... in order. */
  lemma ExecuteReports(b: Backend, w: World, n: nat)
    ensures var e := Execute(b, w, n);
      && WellFormed(b, e.records)
      && Reports(e.trace) == e.records
  {
    if w.raises([], Start(SumoCommand)) {
      assert Reports([Start(SumoCommand)]) == Reports([]) + [];
    } else {
      var part := ExecuteShape(b, w, n);
      StartedRunReports(b, Execute(b, w, n).records, part);
    }
  }

  // ---------------------------------------------------------------------------
  // A run whose third step raises

  /** A world in which every call succeeds except the third `simulationStep`; the
      lanes are empty and every light shows phase 0. */
  function ThirdStepRaises(): World
  {
    World(
      (h: seq<Event>, e: Event) => e == SimulationStep && multiset(h)[SimulationStep] == 2,
      (h: seq<Event>, lane: string) => [],
      (h: seq<Event>, light: string) => 0)
  }

  /** A network that always prefers opening the ramp meter. */
  function PrefersOpen(): Network.Net
  {
    (state: seq<int>) => [2.3, -1.1]
  }

  /** Before the third step, an iteration in that world completes and opens the
      ramp meter. */
  lemma QuietIteration(h: seq<Event>, k: nat)
    requires multiset(h)[SimulationStep] < 2
    ensures var it := Iteration(NetworkBackend(PrefersOpen()), ThirdStepRaises(), h, k);
      && it.result == Ok(StepRecord(k, [0, 0, 0], 0))
      && multiset(it.trace)[SimulationStep] == multiset(h)[SimulationStep] + 1
  {
    var b := NetworkBackend(PrefersOpen());
    var w := ThirdStepRaises();
    var stepped := h + [SimulationStep];
    var calls := [LaneQuery(RampLane), LaneQuery(MainLane), PhaseQuery(IntersectionLight)];
    assert Network.Observe(w, stepped).result == Ok([0, 0, 0]);
    assert Network.SelectAction(PrefersOpen(), [0, 0, 0]) == Ok(0);
    var it := Iteration(b, w, h, k);
    assert it.trace == stepped + calls + [SetPhase(RampMeter, 0), Report(StepRecord(k, [0, 0, 0], 0))];
  }

  /** The third step raises in that world. */
  lemma ThirdStep(h: seq<Event>, k: nat)
    requires multiset(h)[SimulationStep] == 2
    ensures Iteration(NetworkBackend(PrefersOpen()), ThirdStepRaises(), h, k).result == Err(TraciError)
  {
  }

  /** In that world, a loop of three iterations completes two and stops at the
      third with the simulator's fault. */
  lemma ThirdStepFailureLoop() returns (p: Progress)
    ensures p == Loop(BodyOf(NetworkBackend(PrefersOpen()), ThirdStepRaises()), [Start(SumoCommand)], [], 3)
    ensures p.abort == Some(Abort(2, TraciError)) && |p.records| == 2
  {
    var b := NetworkBackend(PrefersOpen());
    var w := ThirdStepRaises();
    var body := BodyOf(b, w);
    var h0 := [Start(SumoCommand)];
    assert multiset(h0)[SimulationStep] == 0;
    QuietIteration(h0, 0);
    var it0 := body(h0, 0);
    LoopContinues(body, h0, [], 3);
    QuietIteration(it0.trace, 1);
    var it1 := body(it0.trace, 1);
    LoopContinues(body, it0.trace, [it0.result.value], 3);
    ThirdStep(it1.trace, 2);
    LoopStops(body, it1.trace, [it0.result.value, it1.result.value], 3);
    p := Loop(body, h0, [], 3);
  }

  /** Three configured steps, the third `simulationStep` raises: the run reports the
      fault at step index 2, after two completed iterations, and still closes the
      simulator exactly once. */
  lemma ThirdStepFailureClosesOnce()
    ensures var e := Execute(NetworkBackend(PrefersOpen()), ThirdStepRaises(), 3);
      && e.exit == Aborted(2, TraciError)
      && |e.records| == 2
      && multiset(e.trace)[Close] == 1
  {
    var p := ThirdStepFailureLoop();
    assert !ThirdStepRaises().raises(p.trace, Close);
    ExecuteClosesOnce(NetworkBackend(PrefersOpen()), ThirdStepRaises(), 3);
  }
}
