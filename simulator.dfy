/**
 * The screen state of the macro-simulator prototype. React's `useState`
 * slots are one record; every setter call replaces the record with a new
 * value. The timers that `handleStartSimulation` arms are data, a list of
 * (delay, event) pairs, and the state some milliseconds after the start is
 * the result of firing the due timers in order.
 */
module Simulator {
  import opened Wrappers
  import opened Indicators

  /** Number of entries in the step navigation bar. */
  const StepCount: int := 4
  /** Delay between the activation of two consecutive agents, in milliseconds. */
  const Stagger: nat := 1200
  /** The consensus is shown `n * Stagger + ConsensusDelay` ms after the press: 2000 ms after the last of `n` activations. */
  const ConsensusDelay: nat := 800

  /** Agent registry, in declaration order. */
  const AgentIds: seq<string> := ["consumer", "business", "government", "centralbank", "bank"]

  predicate Distinct(ids: seq<string>) {
    forall i, j :: 0 <= i < j < |ids| ==> ids[i] != ids[j]
  }

  lemma AgentIdsDistinct()
    ensures Distinct(AgentIds)
  {
  }

  datatype UiState = UiState(
    currentStep: int,
    simValues: SimValues,
    activeAgent: Option<string>,
    isAnalyzing: bool,
    showConsensus: bool)

  ghost predicate Valid(s: UiState) {
    1 <= s.currentStep <= StepCount && Total(s.simValues)
  }

  /** The state on first render: step 1, sliders at their baselines, nothing running. */
  function Initial(): (s: UiState)
    ensures Valid(s) && s.currentStep == 1
    ensures s.activeAgent == None && !s.isAnalyzing && !s.showConsensus
    ensures !StartEnabled(s.simValues)
  {
    UiState(1, InitialSimValues(), None, false, false)
  }

  /** A slider change: `setSimValues({...simValues, [key]: value})`. */
  function MoveSlider(s: UiState, k: Key, v: real): (r: UiState)
    ensures r.simValues.Keys == s.simValues.Keys + {k}
    ensures r.simValues[k] == v && GetDelta(r.simValues, k) == v - Baseline(k)
    ensures forall j :: j in s.simValues && j != k ==> r.simValues[j] == s.simValues[j]
    ensures r.(simValues := s.simValues) == s
    ensures Valid(s) ==> Valid(r)
  {
    s.(simValues := s.simValues[k := v])
  }

  /** Moving a slider back to its baseline undoes the change it made to the gate. */
  lemma SliderBackToBaseline(s: UiState, k: Key, v: real)
    requires Valid(s) && s.simValues[k] == Baseline(k)
    ensures MoveSlider(MoveSlider(s, k, v), k, Baseline(k)) == s
  {
    assert MoveSlider(MoveSlider(s, k, v), k, Baseline(k)).simValues == s.simValues;
  }

  /** A click on entry `idx` (0-based) of the step navigation bar. */
  function NavClick(s: UiState, idx: nat): (r: UiState)
    requires idx < StepCount
    ensures r.currentStep <= s.currentStep
    ensures r.currentStep == idx + 1 <==> idx + 1 <= s.currentStep
    ensures r.(currentStep := s.currentStep) == s
    ensures Valid(s) ==> Valid(r)
  {
    if idx + 1 <= s.currentStep then s.(currentStep := idx + 1) else s
  }

  /** The call-to-action of step 1, which opens the scenario step. */
  function OpenScenario(s: UiState): (r: UiState)
    ensures r.currentStep == 2 && r.(currentStep := s.currentStep) == s
    ensures Valid(s) ==> Valid(r)
  {
    s.(currentStep := 2)
  }

  /** The "detailed report" button of step 3, which opens the report step. */
  function OpenReport(s: UiState): (r: UiState)
    ensures r.currentStep == 4 && r.(currentStep := s.currentStep) == s
    ensures Valid(s) ==> Valid(r)
  {
    s.(currentStep := 4)
  }

  /**
   * A press of the start button. While no indicator has changed the button
   * is disabled and the press does nothing; otherwise the handler moves to
   * step 3 and raises the analysing flag.
   */
  function PressStart(s: UiState): (r: UiState)
    requires Total(s.simValues)
    ensures !StartEnabled(s.simValues) ==> r == s
    ensures StartEnabled(s.simValues) ==> r.currentStep == 3 && r.isAnalyzing
    ensures r.simValues == s.simValues && r.activeAgent == s.activeAgent
    ensures r.showConsensus == s.showConsensus
    ensures Valid(s) ==> Valid(r)
  {
    if StartEnabled(s.simValues) then s.(currentStep := 3, isAnalyzing := true) else s
  }

  /** What a timer does when it fires. */
  datatype Event = Activate(agentId: string) | Conclude

  /** A `setTimeout` call: its delay from the press and its callback. */
  datatype Timer = Timer(delay: nat, event: Event)

  function Fire(s: UiState, e: Event): (r: UiState)
    ensures e.Activate? ==> r == s.(activeAgent := Some(e.agentId))
    ensures e.Conclude? ==> r == s.(isAnalyzing := false, showConsensus := true)
  {
    match e
    case Activate(id) => s.(activeAgent := Some(id))
    case Conclude => s.(isAnalyzing := false, showConsensus := true)
  }

  /** The timers armed by the start handler, in the order it arms them. */
  function Schedule(agents: seq<string>): seq<Timer> {
    seq(|agents|, i requires 0 <= i < |agents| => Timer(i * Stagger, Activate(agents[i])))
      + [Timer(|agents| * Stagger + ConsensusDelay, Conclude)]
  }

  /** Delays strictly increase, so arming order is firing order. */
  lemma ScheduleChronological(agents: seq<string>)
    ensures |Schedule(agents)| == |agents| + 1
    ensures forall i, j :: 0 <= i < j < |Schedule(agents)| ==> Schedule(agents)[i].delay < Schedule(agents)[j].delay
  {
    var sch := Schedule(agents);
    forall i, j | 0 <= i < j < |sch| ensures sch[i].delay < sch[j].delay {
      if j < |agents| {
        assert sch[i].delay == i * Stagger && sch[j].delay == j * Stagger;
      } else {
        assert sch[i].delay == i * Stagger;
        assert i * Stagger <= (|agents| - 1) * Stagger;
      }
    }
  }

  /**
   * The `forEach` of the start handler: one activation per agent at
   * `idx * 1200`, then the conclusion at `n * 1200 + 800`.
   */
  method ScheduleTimers(agents: seq<string>) returns (timers: seq<Timer>)
    ensures |timers| == |agents| + 1
    ensures forall i :: 0 <= i < |agents| ==> timers[i] == Timer(i * Stagger, Activate(agents[i]))
    ensures timers[|agents|] == Timer(|agents| * Stagger + ConsensusDelay, Conclude)
    ensures |agents| > 0 ==> timers[|agents|].delay > timers[|agents| - 1].delay
    ensures timers == Schedule(agents)
  {
    timers := [];
    for idx := 0 to |agents|
      invariant |timers| == idx
      invariant forall i :: 0 <= i < idx ==> timers[i] == Timer(i * Stagger, Activate(agents[i]))
    {
      timers := timers + [Timer(idx * Stagger, Activate(agents[idx]))];
    }
    timers := timers + [Timer(|agents| * Stagger + ConsensusDelay, Conclude)];
  }

  /** The state `t` milliseconds after the timers were armed: every due timer has fired, in order. */
  function RunTimers(s: UiState, timers: seq<Timer>, t: int): UiState
    decreases |timers|
  {
    if timers == [] then s
    else
      var before := RunTimers(s, timers[..|timers| - 1], t);
      var last := timers[|timers| - 1];
      if last.delay <= t then Fire(before, last.event) else before
  }

  function Min(a: int, b: int): int {
    if a <= b then a else b
  }

  /** After the first `k` activation timers, the agent of the latest due slot is active. */
  lemma {:induction false} ActivationsUpTo(s: UiState, agents: seq<string>, k: nat, t: int)
    requires k <= |agents| && t >= 0
    ensures RunTimers(s, Schedule(agents)[..k], t)
         == if k == 0 then s else s.(activeAgent := Some(agents[Min(t / Stagger, k - 1)]))
  {
    var sch := Schedule(agents);
    if k == 0 {
      assert sch[..0] == [];
    } else {
      assert sch[..k][..k - 1] == sch[..k - 1];
      ActivationsUpTo(s, agents, k - 1, t);
      assert sch[..k][k - 1] == Timer((k - 1) * Stagger, Activate(agents[k - 1]));
      if (k - 1) * Stagger <= t {
        assert t / Stagger >= k - 1;
      } else {
        assert k >= 2;
        assert t / Stagger < k - 1;
      }
    }
  }

  /** The whole timeline of one start: who is active and which flags are up at time `t`. */
  lemma {:induction false} TimelineAt(s: UiState, agents: seq<string>, t: int)
    requires |agents| > 0 && t >= 0
    ensures var r := RunTimers(s, Schedule(agents), t);
      && r.activeAgent == Some(agents[Min(t / Stagger, |agents| - 1)])
      && r.isAnalyzing == (s.isAnalyzing && t < |agents| * Stagger + ConsensusDelay)
      && r.showConsensus == (s.showConsensus || t >= |agents| * Stagger + ConsensusDelay)
      && r.currentStep == s.currentStep && r.simValues == s.simValues
  {
    var n := |agents|;
    var sch := Schedule(agents);
    assert sch[..|sch| - 1] == sch[..n];
    ActivationsUpTo(s, agents, n, t);
  }

  /** `agents.findIndex(a => a.id === activeAgent)`: the first matching index, or -1. */
  function FindIndex(ids: seq<string>, active: Option<string>): (r: int)
    ensures -1 <= r < |ids|
    ensures r == -1 <==> active.None? || active.value !in ids
    ensures r >= 0 ==> active == Some(ids[r]) && forall j :: 0 <= j < r ==> ids[j] != active.value
  {
    if ids == [] || active.None? then -1
    else if ids[0] == active.value then 0
    else
      var rest := FindIndex(ids[1..], active);
      if rest == -1 then -1 else rest + 1
  }

  /** The highlighted card: `activeAgent === agent.id`. */
  predicate IsActive(s: UiState, agents: seq<string>, idx: nat)
    requires idx < |agents|
  {
    s.activeAgent == Some(agents[idx])
  }

  /** The completed mark: the active agent's index lies beyond this card's. */
  predicate IsCompleted(s: UiState, agents: seq<string>, idx: nat)
    requires idx < |agents|
  {
    FindIndex(agents, s.activeAgent) > idx
  }

  /** With distinct ids at most one card is highlighted. */
  lemma AtMostOneActive(s: UiState, agents: seq<string>, i: nat, j: nat)
    requires Distinct(agents) && i < |agents| && j < |agents|
    requires IsActive(s, agents, i) && IsActive(s, agents, j)
    ensures i == j
  {
  }

  /** A card is completed exactly when it precedes the highlighted one; so never both. */
  lemma CompletedIffBeforeActive(s: UiState, agents: seq<string>, idx: nat)
    requires Distinct(agents) && idx < |agents|
    ensures IsCompleted(s, agents, idx) <==> exists a :: idx < a < |agents| && IsActive(s, agents, a)
    ensures !(IsActive(s, agents, idx) && IsCompleted(s, agents, idx))
  {
    var f := FindIndex(agents, s.activeAgent);
    if exists a :: idx < a < |agents| && IsActive(s, agents, a) {
      var a :| idx < a < |agents| && IsActive(s, agents, a);
      assert f >= 0;
      assert f == a;
    }
    if IsCompleted(s, agents, idx) {
      assert IsActive(s, agents, f);
    }
    if IsActive(s, agents, idx) {
      assert f == idx;
    }
  }

  /** The last card can be highlighted but is never marked completed. */
  lemma LastNeverCompleted(s: UiState, agents: seq<string>)
    requires |agents| > 0
    ensures !IsCompleted(s, agents, |agents| - 1)
  {
  }

  /**
   * The screen `t` milliseconds after a press of the start button: the
   * handler ran only if the button was enabled.
   */
  function AfterStart(s: UiState, t: int): UiState
    requires Total(s.simValues)
  {
    if StartEnabled(s.simValues) then RunTimers(PressStart(s), Schedule(AgentIds), t) else s
  }

  /**
   * Agents light up one after another every 1200 ms; cards before the lit one
   * are completed; analysis ends and the consensus appears at 6800 ms.
   */
  lemma {:induction false} StartedRun(s: UiState, t: int, idx: nat)
    requires Valid(s) && StartEnabled(s.simValues) && t >= 0 && idx < |AgentIds|
    ensures var r := AfterStart(s, t);
      && r.currentStep == 3 && r.simValues == s.simValues
      && (IsActive(r, AgentIds, idx) <==> idx == Min(t / Stagger, |AgentIds| - 1))
      && (IsCompleted(r, AgentIds, idx) <==> idx < Min(t / Stagger, |AgentIds| - 1))
      && (r.isAnalyzing <==> t < 6800)
      && (r.showConsensus <==> s.showConsensus || t >= 6800)
  {
    TimelineAt(PressStart(s), AgentIds, t);
    var r := AfterStart(s, t);
    var m := Min(t / Stagger, |AgentIds| - 1);
    AgentIdsDistinct();
    assert FindIndex(AgentIds, r.activeAgent) == m;
  }

  /** A press while nothing changed arms no timer: the screen stays as it was. */
  lemma DisabledStartIsInert(s: UiState, t: int)
    requires Valid(s) && !StartEnabled(s.simValues)
    ensures AfterStart(s, t) == s
  {
  }
}
