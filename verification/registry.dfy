/**
 * The workflow registry: each workflow type as a table of phases. Prompt texts are left out; a phase keeps
 * its limits, the step its first handoff asks for, and the flags the control code branches on.
 */
module Registry {
  datatype HandoffStep = Review | Fix | Implement | Execute

  datatype Phase = Phase(
    name: string,
    reviewed: bool,            // reviewerRole !== null
    maxRounds: nat,
    initialStep: HandoffStep,
    repeats: bool,             // repeatUntilComplete
    maxIterations: nat,        // read only when repeats
    anchorsBase: bool,         // anchorCommitBaseOnEntry
    mentionsCommitRange: bool  // some template of the phase holds the commit-range placeholder
  ) {
    predicate EstablishesBase() {
      initialStep == Execute || anchorsBase
    }

    predicate UsesCommitRange() {
      EstablishesBase() || mentionsCommitRange
    }
  }

  datatype Definition = Definition(phases: seq<Phase>, needsSetup: bool)

  const SPEC_DRIVEN_DEVELOPMENT := Definition([
    Phase("spec-refining", true, 5, Review, false, 0, false, false),
    Phase("plan-writing", true, 5, Implement, false, 0, false, false),
    Phase("plan-execution", false, 1, Execute, false, 0, false, false),
    Phase("code-review", true, 5, Review, false, 0, false, true)], false)

  const RALPH_LOOP := Definition([
    Phase("ralph-iteration", true, 5, Implement, true, 100, false, false)], true)

  const COMPLEX_BUG_FIXING := Definition([
    Phase("diagnosis", true, 5, Implement, false, 0, true, false),
    Phase("fix-and-verify", true, 5, Implement, false, 0, false, true),
    Phase("post-mortem", true, 3, Implement, false, 0, false, false)], true)

  const DELIBERATION := Definition([
    Phase("objectives", true, 6, Implement, false, 0, false, false),
    Phase("approaches", true, 10, Implement, false, 0, false, false),
    Phase("tradeoffs", true, 10, Implement, false, 0, false, false),
    Phase("synthesis", true, 5, Implement, false, 0, false, false)], true)

  const QUICK_TASK := Definition([
    Phase("implement-and-review", true, 5, Implement, false, 0, true, true)], false)

  const REGISTRY := map[
    "spec-driven-development" := SPEC_DRIVEN_DEVELOPMENT,
    "ralph-loop" := RALPH_LOOP,
    "complex-bug-fixing" := COMPLEX_BUG_FIXING,
    "deliberation" := DELIBERATION,
    "quick-task" := QUICK_TASK]

  /** What a phase must satisfy for the control code to keep its promises about rounds and completion claims. */
  ghost predicate PhaseOk(p: Phase) {
    && 1 <= p.maxRounds
    // the `delivered` verdict adds a round without looking at the limit
    && (p.initialStep == Fix || p.initialStep == Implement ==> 2 <= p.maxRounds)
    // a looping phase starts with work, so a review there always follows a delivery
    && (p.repeats ==> 1 <= p.maxIterations && (p.initialStep == Fix || p.initialStep == Implement))
  }

  /**
   * Only the last phase may loop. An execute phase is not the first, so a review precedes it, and no phase before it
   * sets the commit base that an advance rewrites.
   */
  ghost predicate DefinitionOk(d: Definition) {
    && |d.phases| > 0
    && d.phases[0].initialStep != Execute
    && (forall i | 0 <= i < |d.phases| :: PhaseOk(d.phases[i]) && (d.phases[i].repeats ==> i == |d.phases| - 1))
    && (forall i, j | 0 <= i < j < |d.phases| :: d.phases[j].initialStep == Execute ==> !d.phases[i].EstablishesBase())
  }

  lemma RegistryIsOk(kind: string)
    requires kind in REGISTRY
    ensures DefinitionOk(REGISTRY[kind])
  {
    var d := REGISTRY[kind];
    assert d in {SPEC_DRIVEN_DEVELOPMENT, RALPH_LOOP, COMPLEX_BUG_FIXING, DELIBERATION, QUICK_TASK};
  }

  /**
   * A phase that speaks of the commit range has the base from itself or from a phase before it, and only a first phase
   * anchors one without executing, because an advance records none for it.
   */
  ghost predicate RangesOk(d: Definition) {
    && (forall j | 0 <= j < |d.phases| && d.phases[j].mentionsCommitRange :: exists i :: 0 <= i <= j && d.phases[i].EstablishesBase())
    && (forall j | 0 < j < |d.phases| :: d.phases[j].EstablishesBase() ==> d.phases[j].initialStep == Execute)
  }

  lemma RegistryRangesOk(kind: string)
    requires kind in REGISTRY
    ensures RangesOk(REGISTRY[kind])
  {
    var d := REGISTRY[kind];
    assert d in {SPEC_DRIVEN_DEVELOPMENT, RALPH_LOOP, COMPLEX_BUG_FIXING, DELIBERATION, QUICK_TASK};
    assert SPEC_DRIVEN_DEVELOPMENT.phases[2].EstablishesBase();
    assert COMPLEX_BUG_FIXING.phases[0].EstablishesBase();
    assert QUICK_TASK.phases[0].EstablishesBase();
  }
}
