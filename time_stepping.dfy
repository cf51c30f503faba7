/**
 * Time-step selection (aspect::TimeStepping::Manager).
 *
 * The manager holds the time-stepping plugins chosen in the parameter file.
 * Each plugin proposes a step size and a reaction. The manager takes the
 * smallest proposal, caps it by the maximum step, by the allowed growth
 * over the previous step and, on the first step, by the maximum first
 * step, and finally lets the termination criteria shorten it.
 *
 * The plugins' answers and the termination criteria belong to
 * collaborators that are not part of this model: the answers are given as
 * a sequence, one per active plugin, and the termination adjustment as a
 * function parameter.
 */
module TimeStepping {
  import opened Wrappers

  /**
   * What a plugin asks the simulator to do. The enumeration is ordered and
   * the manager combines reactions by taking the smallest; Advance is the
   * greatest, the neutral start of that fold.
   */
  datatype Reaction = RefineAndRepeatStep | RepeatStep | Advance

  function Rank(r: Reaction): nat
  {
    match r
    case RefineAndRepeatStep => 0
    case RepeatStep => 1
    case Advance => 2
  }

  /** The smaller of two reactions in the enumeration's order. */
  function MinReaction(a: Reaction, b: Reaction): (m: Reaction)
    ensures m == a || m == b
    ensures Rank(m) <= Rank(a) && Rank(m) <= Rank(b)
  {
    if Rank(a) <= Rank(b) then a else b
  }

  /** One plugin's answer: its reaction and its proposed step size. */
  datatype Answer = Answer(reaction: Reaction, step: real)

  /** std::numeric_limits<double>::max(), the start of the minimum over proposals. */
  const MaxDouble: real := 1.7976931348623157e308

  /** The smallest proposed step, or MaxDouble when no plugin is active. */
  function MinProposedStep(answers: seq<Answer>): (s: real)
    ensures s <= MaxDouble
    ensures forall i :: 0 <= i < |answers| ==> s <= answers[i].step
    ensures s == MaxDouble || exists i :: 0 <= i < |answers| && s == answers[i].step
  {
    if |answers| == 0 then MaxDouble
    else
      var last := |answers| - 1;
      var rest := MinProposedStep(answers[..last]);
      if rest <= answers[last].step then
        assert rest != MaxDouble ==> exists i :: 0 <= i < last && rest == answers[..last][i].step;
        rest
      else answers[last].step
  }

  /** The smallest reaction of all plugins, Advance when no plugin is active. */
  function CombinedReaction(answers: seq<Answer>): (r: Reaction)
    ensures forall i :: 0 <= i < |answers| ==> Rank(r) <= Rank(answers[i].reaction)
    ensures r == Advance || exists i :: 0 <= i < |answers| && r == answers[i].reaction
  {
    if |answers| == 0 then Advance
    else
      var last := |answers| - 1;
      var rest := CombinedReaction(answers[..last]);
      assert rest != Advance ==> exists i :: 0 <= i < last && rest == answers[..last][i].reaction;
      MinReaction(rest, answers[last].reaction)
  }

  /** The combined reaction is Advance exactly when every plugin answers Advance. */
  lemma CombinedReactionIsAdvance(answers: seq<Answer>)
    ensures CombinedReaction(answers) == Advance <==> forall i :: 0 <= i < |answers| ==> answers[i].reaction == Advance
  {
  }

  /** The simulator's time-stepping parameters. */
  datatype Parameters = Parameters(
    maximumTimeStep: real,
    maximumRelativeIncreaseTimeStep: real,
    maximumFirstTimeStep: real,
    useConductionTimestep: bool)

  /** The length of the previous time step and the number of the current one. */
  datatype TimeState = TimeState(timeStep: real, timeStepNumber: nat)

  /**
   * A proposed step after the three caps: the maximum step, the growth
   * limit relative to a non-zero previous step, and the first-step limit.
   */
  function CappedStep(proposed: real, params: Parameters, state: TimeState): (s: real)
    ensures s <= proposed
    ensures s <= params.maximumTimeStep
    ensures state.timeStep != 0.0 ==> s <= GrowthLimit(params, state)
    ensures state.timeStepNumber == 0 ==> s <= params.maximumFirstTimeStep
    ensures || s == proposed
            || s == params.maximumTimeStep
            || (state.timeStep != 0.0 && s == GrowthLimit(params, state))
            || (state.timeStepNumber == 0 && s == params.maximumFirstTimeStep)
  {
    var s1 := Min(proposed, params.maximumTimeStep);
    var s2 := if state.timeStep != 0.0 then Min(s1, GrowthLimit(params, state)) else s1;
    if state.timeStepNumber == 0 then Min(s2, params.maximumFirstTimeStep) else s2
  }

  /** The largest step allowed after a previous step of length state.timeStep. */
  function GrowthLimit(params: Parameters, state: TimeState): real
  {
    state.timeStep + state.timeStep * params.maximumRelativeIncreaseTimeStep
  }

  /** The termination criteria may shorten a step but never lengthen it. */
  ghost predicate NeverLengthens(lastStepAdjustment: real -> real)
  {
    forall t :: lastStepAdjustment(t) <= t
  }

  /** Why a step size could not be computed. */
  datatype TimeStepError =
    /** Some plugin asked for something other than Advance. */
    | ReactionNotImplemented
    /** The computed step was zero or negative. */
    | NonPositiveTimeStep(step: real)

  /** Why the time-stepping parameters were rejected. */
  datatype ParseError =
    | DuplicateModelNames
    | ConductionTimestepWithModelList

  const ConvectionTimeStep: string := "convection time step"
  const ConductionTimeStep: string := "conduction time step"

  predicate HasUniqueEntries(names: seq<string>)
  {
    forall i, j :: 0 <= i < j < |names| ==> names[i] != names[j]
  }

  /**
   * The plugins used for a model-name list: the list itself, or, when it is
   * empty, the convection step followed by the conduction step if asked for.
   */
  function SelectedModels(modelNames: seq<string>, useConductionTimestep: bool): (selected: seq<string>)
    ensures |modelNames| > 0 ==> selected == modelNames
    ensures |modelNames| == 0 ==>
              && |selected| == (if useConductionTimestep then 2 else 1)
              && selected[0] == ConvectionTimeStep
              && (useConductionTimestep ==> selected[1] == ConductionTimeStep)
  {
    if |modelNames| == 0 then
      [ConvectionTimeStep] + (if useConductionTimestep then [ConductionTimeStep] else [])
    else modelNames
  }

  /** The selected plugins are never empty and never name a plugin twice. */
  lemma SelectedModelsAreUnique(modelNames: seq<string>, useConductionTimestep: bool)
    requires HasUniqueEntries(modelNames)
    ensures |SelectedModels(modelNames, useConductionTimestep)| > 0
    ensures HasUniqueEntries(SelectedModels(modelNames, useConductionTimestep))
    ensures |modelNames| == 0 ==>
              (ConductionTimeStep in SelectedModels(modelNames, useConductionTimestep) <==> useConductionTimestep)
  {
  }

  /**
   * The step chosen from a set of answers does not depend on the order in
   * which the plugins were listed.
   */
  lemma {:induction false} StepIndependentOfPluginOrder(a: seq<Answer>, b: seq<Answer>)
    requires multiset(a) == multiset(b)
    ensures MinProposedStep(a) == MinProposedStep(b)
    ensures CombinedReaction(a) == CombinedReaction(b)
  {
    MinProposedStepBelow(a, b);
    MinProposedStepBelow(b, a);
    CombinedReactionBelow(a, b);
    CombinedReactionBelow(b, a);
    var ra, rb := CombinedReaction(a), CombinedReaction(b);
    assert Rank(ra) == Rank(rb);
  }

  /** The minimum over a is no larger than the minimum over any b holding the same answers. */
  lemma MinProposedStepBelow(a: seq<Answer>, b: seq<Answer>)
    requires multiset(a) == multiset(b)
    ensures MinProposedStep(a) <= MinProposedStep(b)
  {
    var sb := MinProposedStep(b);
    if sb != MaxDouble {
      var j :| 0 <= j < |b| && sb == b[j].step;
      assert b[j] in multiset(a);
      var i :| 0 <= i < |a| && a[i] == b[j];
    }
  }

  lemma CombinedReactionBelow(a: seq<Answer>, b: seq<Answer>)
    requires multiset(a) == multiset(b)
    ensures Rank(CombinedReaction(a)) <= Rank(CombinedReaction(b))
  {
    var rb := CombinedReaction(b);
    if rb != Advance {
      var j :| 0 <= j < |b| && rb == b[j].reaction;
      assert b[j] in multiset(a);
      var i :| 0 <= i < |a| && a[i] == b[j];
    }
  }

  class Manager {
    /** The names of the active plugins, in the order they were created. */
    var activePlugins: seq<string>
    var doCheckpointOnTerminate: bool

    constructor ()
      ensures activePlugins == [] && !doCheckpointOnTerminate
    {
      activePlugins := [];
      doCheckpointOnTerminate := false;
    }

    /** Whether to write a checkpoint right before terminating. */
    function NeedCheckpointOnTerminate(): bool
      reads this`doCheckpointOnTerminate
    {
      doCheckpointOnTerminate
    }

    /**
     * Reads the checkpoint flag and the list of plugin names, validates the
     * list, supplies the default list when it is empty, and creates one
     * plugin per name, in list order, after those already active.
     */
    method ParseParameters(checkpointOnTermination: bool, modelNames: seq<string>, useConductionTimestep: bool)
      returns (r: Outcome<ParseError>)
      modifies this
      ensures NeedCheckpointOnTerminate() == checkpointOnTermination
      ensures !HasUniqueEntries(modelNames) ==> r == Fail(DuplicateModelNames)
      ensures HasUniqueEntries(modelNames) && |modelNames| > 0 && useConductionTimestep ==>
                r == Fail(ConductionTimestepWithModelList)
      ensures r.Pass? <==> HasUniqueEntries(modelNames) && (|modelNames| == 0 || !useConductionTimestep)
      ensures r.Pass? ==> activePlugins == old(activePlugins) + SelectedModels(modelNames, useConductionTimestep)
      ensures r.Fail? ==> activePlugins == old(activePlugins)
    {
      doCheckpointOnTerminate := checkpointOnTermination;
      if !HasUniqueEntries(modelNames) {
        return Fail(DuplicateModelNames);
      }
      var names := modelNames;
      if |names| == 0 {
        // the default case, where no time stepping scheme was chosen explicitly
        names := names + [ConvectionTimeStep];
        if useConductionTimestep {
          names := names + [ConductionTimeStep];
        }
      } else if useConductionTimestep {
        return Fail(ConductionTimestepWithModelList);
      }
      var k := 0;
      while k < |names|
        invariant 0 <= k <= |names|
        invariant activePlugins == old(activePlugins) + names[..k]
        invariant doCheckpointOnTerminate == checkpointOnTermination
      {
        activePlugins := activePlugins + [names[k]];
        k := k + 1;
      }
      assert names[..k] == names;
      r := Pass;
    }

    /**
     * The step size for the next time step. `answers` holds, for each
     * active plugin in order, what that plugin proposes; the termination
     * criteria's adjustment is `lastStepAdjustment`.
     */
    method ComputeTimeStepSize(answers: seq<Answer>, params: Parameters, state: TimeState,
                               lastStepAdjustment: real -> real)
      returns (r: Result<real, TimeStepError>)
      requires |answers| == |activePlugins|
      ensures (exists i :: 0 <= i < |answers| && answers[i].reaction != Advance) <==> r == Failure(ReactionNotImplemented)
      ensures r.Success? <==>
                && CombinedReaction(answers) == Advance
                && lastStepAdjustment(CappedStep(MinProposedStep(answers), params, state)) > 0.0
      ensures r.Success? ==> r.value > 0.0
      ensures r.Success? ==> r.value == lastStepAdjustment(CappedStep(MinProposedStep(answers), params, state))
      ensures r.Success? && NeverLengthens(lastStepAdjustment) ==>
                && (forall i :: 0 <= i < |answers| ==> r.value <= answers[i].step)
                && r.value <= params.maximumTimeStep
                && (state.timeStep != 0.0 ==> r.value <= GrowthLimit(params, state))
                && (state.timeStepNumber == 0 ==> r.value <= params.maximumFirstTimeStep)
    {
      var newTimeStep := MaxDouble;
      var reaction := Advance;
      var i := 0;
      while i < |answers|
        invariant 0 <= i <= |answers|
        invariant newTimeStep == MinProposedStep(answers[..i])
        invariant reaction == CombinedReaction(answers[..i])
      {
        assert answers[..i + 1][..i] == answers[..i];
        newTimeStep := Min(newTimeStep, answers[i].step);
        reaction := MinReaction(reaction, answers[i].reaction);
        i := i + 1;
      }
      assert answers[..i] == answers;
      CombinedReactionIsAdvance(answers);

      // only the default reaction is supported
      if reaction != Advance {
        return Failure(ReactionNotImplemented);
      }

      // do not exceed the maximum time step length
      newTimeStep := Min(newTimeStep, params.maximumTimeStep);
      // do not let the time step grow too fast
      if state.timeStep != 0.0 {
        newTimeStep := Min(newTimeStep, GrowthLimit(params, state));
      }
      // do not exceed the maximum length of the first time step
      if state.timeStepNumber == 0 {
        newTimeStep := Min(newTimeStep, params.maximumFirstTimeStep);
      }
      assert newTimeStep == CappedStep(MinProposedStep(answers), params, state);
      // shorten the step if the simulation ends after it
      newTimeStep := lastStepAdjustment(newTimeStep);

      if newTimeStep <= 0.0 {
        return Failure(NonPositiveTimeStep(newTimeStep));
      }
      r := Success(newTimeStep);
    }
  }
}
