/** The wizard controller of InfraWizard.tsx: the request record the four steps
    accumulate, its shallow-merge update, the clamped step counter and the
    progress header. */
module Wizard {
  import opened Common

  /** The deployment request under construction (`WizardData`). `customConfig`
      is an optional field of the TypeScript record. */
  datatype WizardData = WizardData(
    projectName: string,
    cloudProvider: string,
    service: string,
    variables: map<string, string>,
    customConfig: Option<string>,
    dryRun: bool)

  /** A `Partial<WizardData>`: `None` marks a field the partial leaves out. */
  datatype Patch = Patch(
    projectName: Option<string>,
    cloudProvider: Option<string>,
    service: Option<string>,
    variables: Option<map<string, string>>,
    customConfig: Option<string>,
    dryRun: Option<bool>)

  /** The partial that carries no field. */
  const NoChange := Patch(None, None, None, None, None, None)

  /** What a step's Continue handler decides: advance, or stay with a message. */
  datatype StepOutcome = Advance | Blocked(message: string)

  /** The initial request of a fresh wizard. */
  function Initial(): (d: WizardData)
    ensures d.projectName == "" && d.cloudProvider == "" && d.service == ""
    ensures d.variables == map[] && d.customConfig == None && !d.dryRun
  {
    WizardData("", "", "", map[], None, false)
  }

  /** `updateData`: `{ ...prev, ...data }`. Each field the partial carries is
      overwritten, every other field keeps its old value. */
  function Merge(d: WizardData, p: Patch): (r: WizardData)
    ensures p.projectName.Some? ==> r.projectName == p.projectName.value
    ensures p.projectName.None? ==> r.projectName == d.projectName
    ensures p.cloudProvider.Some? ==> r.cloudProvider == p.cloudProvider.value
    ensures p.cloudProvider.None? ==> r.cloudProvider == d.cloudProvider
    ensures p.service.Some? ==> r.service == p.service.value
    ensures p.service.None? ==> r.service == d.service
    ensures p.variables.Some? ==> r.variables == p.variables.value
    ensures p.variables.None? ==> r.variables == d.variables
    ensures p.customConfig.Some? ==> r.customConfig == p.customConfig
    ensures p.customConfig.None? ==> r.customConfig == d.customConfig
    ensures p.dryRun.Some? ==> r.dryRun == p.dryRun.value
    ensures p.dryRun.None? ==> r.dryRun == d.dryRun
  {
    WizardData(
      p.projectName.GetOr(d.projectName),
      p.cloudProvider.GetOr(d.cloudProvider),
      p.service.GetOr(d.service),
      p.variables.GetOr(d.variables),
      if p.customConfig.Some? then p.customConfig else d.customConfig,
      p.dryRun.GetOr(d.dryRun))
  }

  /** The later partial wins on every field both carry. */
  function Then(p: Patch, q: Patch): Patch {
    Patch(
      if q.projectName.Some? then q.projectName else p.projectName,
      if q.cloudProvider.Some? then q.cloudProvider else p.cloudProvider,
      if q.service.Some? then q.service else p.service,
      if q.variables.Some? then q.variables else p.variables,
      if q.customConfig.Some? then q.customConfig else p.customConfig,
      if q.dryRun.Some? then q.dryRun else p.dryRun)
  }

  /** An empty partial changes nothing. */
  lemma MergeNothing(d: WizardData)
    ensures Merge(d, NoChange) == d
  {
  }

  /** Two updates in a row equal one update with the combined partial, so the
      order of independent field edits does not matter beyond "last write wins". */
  lemma MergeTwice(d: WizardData, p: Patch, q: Patch)
    ensures Merge(Merge(d, p), q) == Merge(d, Then(p, q))
  {
  }

  /** Repeating an update changes nothing more. */
  lemma MergeIdempotent(d: WizardData, p: Patch)
    ensures Merge(Merge(d, p), p) == Merge(d, p)
  {
  }

  /** The first step; `currentStep` starts here. */
  const FirstStep := 1
  /** The review step; `nextStep` never goes past it. */
  const LastStep := 4

  /** A step number the controller can hold. */
  predicate ValidStep(step: int) {
    FirstStep <= step <= LastStep
  }

  /** `nextStep`: `Math.min(prev + 1, 4)`. */
  function NextStep(step: int): (r: int)
    ensures ValidStep(step) ==> ValidStep(r)
    ensures step < LastStep ==> r == step + 1
    ensures step >= LastStep ==> r == LastStep
  {
    if step + 1 < LastStep then step + 1 else LastStep
  }

  /** `prevStep`: `Math.max(prev - 1, 1)`. */
  function PrevStep(step: int): (r: int)
    ensures ValidStep(step) ==> ValidStep(r)
    ensures step > FirstStep ==> r == step - 1
    ensures step <= FirstStep ==> r == FirstStep
  {
    if step - 1 > FirstStep then step - 1 else FirstStep
  }

  /** Back then Next lands on the step one started from, and so does Next then
      Back away from the two ends. */
  lemma BackThenNext(step: int)
    ensures FirstStep < step <= LastStep ==> NextStep(PrevStep(step)) == step
    ensures FirstStep <= step < LastStep ==> PrevStep(NextStep(step)) == step
  {
  }

  /** One entry of the `steps` header table. */
  datatype StepInfo = StepInfo(number: int, title: string, description: string)

  const Steps: seq<StepInfo> := [
    StepInfo(1, "Cloud Provider", "Select your cloud platform"),
    StepInfo(2, "Service Selection", "Choose infrastructure services"),
    StepInfo(3, "Configuration", "Set variables and options"),
    StepInfo(4, "Review & Deploy", "Review and deploy infrastructure")
  ]

  /** `steps[currentStep - 1]`: in bounds for every valid step, and the entry
      found carries that step's number. */
  function Header(step: int): (r: StepInfo)
    requires ValidStep(step)
    ensures r.number == step
    ensures r in Steps
  {
    Steps[step - 1]
  }

  /** `(currentStep / 4) * 100`, exact for a valid step. */
  function Progress(step: int): (r: int)
    requires ValidStep(step)
    ensures r * LastStep == step * 100
    ensures r == 25 || r == 50 || r == 75 || r == 100
  {
    step * 100 / LastStep
  }
}
