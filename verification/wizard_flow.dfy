/** The whole wizard as the user drives it (InfraWizard.tsx and the three
    input steps): a state holding the controller's step and request plus the
    mounted step's local error, JSON error and tab, the user events each step
    offers, and the consequences of running any sequence of them. Leaving a
    step unmounts it, so its local state starts afresh on the next visit; on
    the configuration step the defaults effect runs after every render. */
module WizardFlow {
  import opened Common
  import opened Wizard
  import ProviderStep
  import ServiceStep
  import VariableStep
  import DemoServices
  import ReviewDeploy

  /** The controller's step and request, and the mounted step's local state. */
  datatype State = State(step: int, data: WizardData, error: string, jsonError: string, tab: VariableStep.Tab)

  /** The wizard as it first renders. */
  function Start(): (s: State)
    ensures s.step == FirstStep && s.data == Initial() && s.error == "" && s.jsonError == ""
  {
    State(FirstStep, Initial(), "", "", VariableStep.VariablesTab)
  }

  /** What the user can do. A card or input that a step does not render cannot
      be used, so an event offered on another step does nothing. */
  datatype Event =
    | EditName(name: string)
    | PickProvider(provider: string)
    | PickService(service: string)
    | EditVariable(variable: string, value: string)
    | EditConfig(text: Option<string>)
    | SetDryRun(on: bool)
    | SwitchTab(tab: VariableStep.Tab)
    | Continue
    | Back

  /** A service card the step renders for `provider`. */
  predicate Offered(provider: string, service: string) {
    exists i :: 0 <= i < |ServiceStep.Services(provider)| && ServiceStep.Services(provider)[i].id == service
  }

  /** An input the configuration step renders for `service`. */
  predicate HasInput(service: string, variable: string) {
    exists i :: 0 <= i < |VariableStep.Schema(service)| && VariableStep.Schema(service)[i].name == variable
  }

  /** Mounting a step: its local error, JSON error and tab start afresh. */
  function Enter(s: State, step: int): State {
    State(step, s.data, "", "", VariableStep.VariablesTab)
  }

  /** The defaults effect of the configuration step after a render. */
  function Settle(s: State): (r: State)
    ensures r == s.(data := r.data)
    ensures r.data == s.data.(variables := r.data.variables)
    ensures s.step != 3 ==> r == s
  {
    if s.step == 3 then s.(data := VariableStep.ApplyDefaults(s.data)) else s
  }

  /** Step 1: the name input, the provider cards and Continue. Typing keeps
      the error; picking a card clears it. */
  function OnProviderStep(s: State, e: Event): (r: State)
    ensures r.step == s.step || (e == Continue && r.step == NextStep(s.step))
    ensures r.step != s.step ==> ProviderStep.Next(s.data).Advance? && r.data == s.data
    ensures r.data == s.data.(projectName := r.data.projectName, cloudProvider := r.data.cloudProvider)
    ensures r.data.cloudProvider == s.data.cloudProvider || r.data.cloudProvider in ProviderStep.ProviderIds()
  {
    match e
    case EditName(name) => s.(data := ProviderStep.SetProjectName(s.data, name))
    case PickProvider(p) =>
      if p in ProviderStep.ProviderIds() then s.(data := ProviderStep.SelectProvider(s.data, p), error := "") else s
    case Continue =>
      (match ProviderStep.Next(s.data)
       case Advance => Enter(s, NextStep(s.step))
       case Blocked(m) => s.(error := m))
    case _ => s
  }

  /** Step 2: the service cards of the chosen provider, Back and Continue. */
  function OnServiceStep(s: State, e: Event): (r: State)
    ensures r.step == s.step || (e == Continue && r.step == NextStep(s.step)) || (e == Back && r.step == PrevStep(s.step))
    ensures r.data == s.data.(service := r.data.service)
    ensures r.step != s.step ==> r.data == s.data
    ensures e == Continue && r.step != s.step ==> s.data.service != ""
  {
    match e
    case PickService(id) =>
      if Offered(s.data.cloudProvider, id) then s.(data := ServiceStep.SelectService(s.data, id), error := "") else s
    case Continue =>
      (match ServiceStep.Next(s.data)
       case Advance => Enter(s, NextStep(s.step))
       case Blocked(m) => s.(error := m))
    case Back => Enter(s, PrevStep(s.step))
    case _ => s
  }

  /** Step 3: the variable inputs, the JSON editor, the dry-run switch, the
      tabs, Back and Continue. A blocked Continue shows the tab at fault. */
  function OnConfigStep(s: State, e: Event, json: string -> bool): (r: State)
    ensures r.step == s.step || (e == Continue && r.step == NextStep(s.step)) || (e == Back && r.step == PrevStep(s.step))
    ensures r.data == s.data.(variables := r.data.variables, customConfig := r.data.customConfig, dryRun := r.data.dryRun)
    ensures r.data.customConfig == s.data.customConfig || (r.data.customConfig.Some? && json(r.data.customConfig.value))
    ensures r.step != s.step ==> r.data == s.data
    ensures e == Continue && r.step != s.step ==> RequiredFilled(s.data)
  {
    match e
    case EditVariable(name, value) =>
      if HasInput(s.data.service, name) then s.(data := VariableStep.SetVariable(s.data, name, value), error := "") else s
    case EditConfig(text) =>
      var r := VariableStep.EditConfig(s.data, s.jsonError, text, json);
      s.(data := r.data, jsonError := r.jsonError)
    case SetDryRun(on) => s.(data := Merge(s.data, NoChange.(dryRun := Some(on))))
    case SwitchTab(t) => s.(tab := t)
    case Continue =>
      var r := VariableStep.Next(s.data, s.jsonError);
      (match r.outcome
       case Advance => Enter(s, NextStep(s.step))
       case Blocked(m) => s.(error := m, tab := r.tab.GetOr(s.tab)))
    case Back => Enter(s, PrevStep(s.step))
    case _ => s
  }

  /** Step 4: only Back changes the wizard; the deploy button has its own
      state (module ReviewDeploy). */
  function OnReviewStep(s: State, e: Event): (r: State)
    ensures r.step == s.step || (e == Back && r.step == PrevStep(s.step))
    ensures r.data == s.data
  {
    if e == Back then Enter(s, PrevStep(s.step)) else s
  }

  /** One event on the step it is offered on. */
  function Handle(s: State, e: Event, json: string -> bool): (r: State)
    ensures ValidStep(s.step) ==> ValidStep(r.step)
    ensures r.step != s.step ==> (e == Continue && r.step == s.step + 1) || (e == Back && r.step == s.step - 1)
    ensures s.step == LastStep ==> r.data == s.data
    ensures s.step == FirstStep ==> r.data.customConfig == s.data.customConfig && r.data.variables == s.data.variables
  {
    if s.step == 1 then OnProviderStep(s, e)
    else if s.step == 2 then OnServiceStep(s, e)
    else if s.step == 3 then OnConfigStep(s, e, json)
    else if s.step == 4 then OnReviewStep(s, e)
    else s
  }

  /** An event followed by the render it causes. The step moves by one, only
      through Continue or Back, and never leaves 1..4; on the review step
      nothing but Back changes the wizard. */
  function Apply(s: State, e: Event, json: string -> bool): (r: State)
    ensures ValidStep(s.step) ==> ValidStep(r.step)
    ensures r.step != s.step ==> (e == Continue && r.step == s.step + 1) || (e == Back && r.step == s.step - 1)
    ensures s.step == LastStep && e != Back ==> r == s
    ensures s.step == FirstStep ==> r.data.customConfig == s.data.customConfig && r.data.variables == s.data.variables
  {
    Settle(Handle(s, e, json))
  }

  /** Events applied one after another. */
  function Run(s: State, events: seq<Event>, json: string -> bool): State
    decreases |events|
  {
    if events == [] then s else Run(Apply(s, events[0], json), events[1..], json)
  }

  /** Every required variable of the request's service has a non-blank value. */
  predicate RequiredFilled(d: WizardData) {
    forall v :: v in VariableStep.Schema(d.service) && v.required ==> !VariableStep.BlankValue(d.variables, v.name)
  }

  /** What holds in every state the wizard can reach: a valid step, a provider
      that is unset or one of the cards, stored configuration text that
      parses, the guard of every step already passed, and from the
      configuration step on no default left to fill. */
  predicate Consistent(s: State, json: string -> bool) {
    && ValidStep(s.step)
    && (s.data.cloudProvider == "" || s.data.cloudProvider in ProviderStep.ProviderIds())
    && (s.data.customConfig.Some? ==> json(s.data.customConfig.value))
    && (s.step >= 2 ==> !Blank(s.data.projectName) && s.data.cloudProvider != "")
    && (s.step >= 3 ==> s.data.service != "")
    && (s.step >= 3 ==> VariableStep.Prepopulate(VariableStep.Schema(s.data.service), s.data.variables).None?)
    && (s.step == 4 ==> RequiredFilled(s.data))
  }

  lemma StartConsistent(json: string -> bool)
    ensures Consistent(Start(), json)
  {
  }

  /** The configuration step's effect leaves nothing for itself to do. */
  lemma SettleSettles(s: State)
    requires s.step == 3
    ensures VariableStep.Prepopulate(VariableStep.Schema(Settle(s).data.service), Settle(s).data.variables).None?
  {
    VariableStep.PrepopulateIdempotent(VariableStep.Schema(s.data.service), s.data.variables);
  }

  /** Back from the review re-runs the defaults effect, which finds nothing
      to fill: the request reaches the configuration step unchanged. */
  lemma ReviewBackKeepsRequest(s: State, json: string -> bool)
    requires Consistent(s, json) && s.step == LastStep
    ensures Apply(s, Back, json) == Enter(s, 3)
  {
    assert Handle(s, Back, json) == Enter(s, 3);
  }

  /** Back followed by Continue returns to the same step with the same
      request, from any step past the first that the wizard can reach. */
  lemma BackThenContinue(s: State, json: string -> bool)
    requires Consistent(s, json) && s.step > FirstStep
    ensures var t := Apply(Apply(s, Back, json), Continue, json);
      t.step == s.step && t.data == s.data
  {
    ApplyConsistent(s, Back, json);
    if s.step == 2 {
      BackThenContinueFromService(s, json);
    } else if s.step == 3 {
      BackThenContinueFromConfig(s, json);
    } else {
      BackThenContinueFromReview(s, json);
    }
  }

  lemma BackThenContinueFromService(s: State, json: string -> bool)
    requires Consistent(s, json) && s.step == 2
    ensures var t := Apply(Apply(s, Back, json), Continue, json);
      t.step == s.step && t.data == s.data
  {
    assert Apply(s, Back, json) == Enter(s, 1);
    ContinueOnFirst(Enter(s, 1), json);
  }

  lemma BackThenContinueFromConfig(s: State, json: string -> bool)
    requires Consistent(s, json) && s.step == 3
    ensures var t := Apply(Apply(s, Back, json), Continue, json);
      t.step == s.step && t.data == s.data
  {
    assert Apply(s, Back, json) == Enter(s, 2);
    ContinueOnSecond(Enter(s, 2), json);
  }

  lemma BackThenContinueFromReview(s: State, json: string -> bool)
    requires Consistent(s, json) && s.step == 4
    ensures var t := Apply(Apply(s, Back, json), Continue, json);
      t.step == s.step && t.data == s.data
  {
    ReviewBackKeepsRequest(s, json);
    ContinueOnConfigStep(Enter(s, 3), json);
  }

  /** Every event keeps the wizard consistent. */
  lemma ApplyConsistent(s: State, e: Event, json: string -> bool)
    requires Consistent(s, json)
    ensures Consistent(Apply(s, e, json), json)
  {
    var h := Handle(s, e, json);
    var r := Apply(s, e, json);
    if h.step == 3 {
      SettleSettles(h);
    }
  }

  /** Every state reached from a consistent one is consistent. */
  lemma {:induction false} RunConsistent(s: State, events: seq<Event>, json: string -> bool)
    requires Consistent(s, json)
    ensures Consistent(Run(s, events, json), json)
    decreases |events|
  {
    if events != [] {
      ApplyConsistent(s, events[0], json);
      RunConsistent(Apply(s, events[0], json), events[1..], json);
    }
  }

  /** Whatever the user does, the review step hands the deploy handler a
      request with a non-blank name, one of the three providers, a service,
      every required variable filled and configuration text that parses, and
      a real deployment submits exactly that request as a pending document. */
  lemma ReviewedRequestComplete(events: seq<Event>, json: string -> bool, u: ReviewDeploy.User, id: string, now: nat)
    requires Run(Start(), events, json).step == LastStep
    ensures var d := Run(Start(), events, json).data;
      && !Blank(d.projectName)
      && d.cloudProvider in ProviderStep.ProviderIds()
      && d.service != ""
      && RequiredFilled(d)
      && (d.customConfig.Some? ==> json(d.customConfig.value))
    ensures var d := Run(Start(), events, json).data;
      !d.dryRun ==>
        var r := ReviewDeploy.HandleDeploy(ReviewDeploy.Fresh(), Some(u), d, false, true, Some(id), now);
        r.submitted.Some? && ReviewDeploy.RequestOf(r.submitted.value) == d && r.submitted.value.status == "pending"
  {
    StartConsistent(json);
    RunConsistent(Start(), events, json);
    var d := Run(Start(), events, json).data;
    ReviewDeploy.DocumentRecordsRequest(d, u);
    ReviewDeploy.WrittenStatusIsPending(ReviewDeploy.Fresh(), Some(u), d, false, true, Some(id), now);
  }

  /** The dry-run preview opened from any reachable state lists nothing and
      totals $0.00, because the wizard stores upper-case provider ids. */
  lemma PreviewAlwaysEmpty(events: seq<Event>, json: string -> bool)
    ensures var d := Run(Start(), events, json).data;
      DemoServices.Generate(d.cloudProvider, d.projectName) == []
  {
    StartConsistent(json);
    RunConsistent(Start(), events, json);
    var d := Run(Start(), events, json).data;
    if d.cloudProvider != "" {
      ReviewDeploy.WizardPreviewIsEmpty(d);
    } else {
      DemoServices.GenerateShape(d.cloudProvider, d.projectName);
    }
  }

  /** On step 1 Continue advances exactly when the name and provider guard
      passes, and otherwise stays and shows the guard's message. */
  lemma ContinueOnProviderStep(s: State, json: string -> bool)
    requires s.step == 1
    ensures Apply(s, Continue, json).step == 2 <==> ProviderStep.Next(s.data).Advance?
    ensures ProviderStep.Next(s.data).Blocked? ==>
      Apply(s, Continue, json) == s.(error := ProviderStep.Next(s.data).message)
  {
  }

  /** On step 2 Continue advances exactly when a service is set, and
      otherwise stays and asks for one. */
  lemma ContinueOnServiceStep(s: State, json: string -> bool)
    requires s.step == 2
    ensures Apply(s, Continue, json).step == 3 <==> ServiceStep.Next(s.data).Advance?
    ensures ServiceStep.Next(s.data).Blocked? ==>
      Apply(s, Continue, json) == s.(error := ServiceStep.Next(s.data).message)
  {
  }

  /** On step 3 Continue advances exactly when the variables and the JSON
      editor pass, and otherwise stays, shows the message and the tab at
      fault. */
  lemma ContinueOnConfigStep(s: State, json: string -> bool)
    requires s.step == 3
    ensures Apply(s, Continue, json).step == 4 <==> VariableStep.Next(s.data, s.jsonError).outcome.Advance?
    ensures VariableStep.Next(s.data, s.jsonError).outcome.Blocked? ==>
      Apply(s, Continue, json).error == VariableStep.Next(s.data, s.jsonError).outcome.message &&
      Apply(s, Continue, json).tab == VariableStep.Next(s.data, s.jsonError).tab.value
  {
    var r := VariableStep.Next(s.data, s.jsonError);
    var h := Handle(s, Continue, json);
    assert h == OnConfigStep(s, Continue, json);
    if r.outcome.Advance? {
      assert h == Enter(s, 4);
    } else {
      assert h == s.(error := r.outcome.message, tab := r.tab.GetOr(s.tab));
    }
  }

  /** Continue on a fresh wizard reports the missing project name and stays. */
  lemma FirstContinueBlocked(json: string -> bool)
    ensures Apply(Start(), Continue, json) == Start().(error := ProviderStep.NameMissing)
  {
  }

  /** A service kept from an earlier provider: on step 2 with "AWS" chosen
      and "gke" still stored, Continue reaches the configuration step, which
      then shows the GKE inputs with their defaults. */
  lemma StaleServiceReachesConfiguration(s: State, json: string -> bool)
    requires s.step == 2 && s.data.cloudProvider == "AWS" && s.data.service == "gke"
    ensures !Offered(s.data.cloudProvider, s.data.service)
    ensures Apply(s, Continue, json).step == 3
    ensures Apply(s, Continue, json).data == VariableStep.ApplyDefaults(s.data)
  {
  }

  /** Running a sequence of events: the first event, then the rest. */
  lemma RunCons(s: State, e: Event, rest: seq<Event>, json: string -> bool)
    ensures Run(s, [e] + rest, json) == Run(Apply(s, e, json), rest, json)
  {
    assert ([e] + rest)[1..] == rest;
  }

  /** Typing a name on the first step stores it and nothing else. */
  lemma EditNameOnFirst(s: State, name: string, json: string -> bool)
    requires s.step == 1
    ensures Apply(s, EditName(name), json) == s.(data := s.data.(projectName := name))
  {
    assert Handle(s, EditName(name), json) == s.(data := s.data.(projectName := name));
  }

  /** Choosing a provider card on the first step stores it and clears the
      error. */
  lemma PickProviderOnFirst(s: State, p: string, json: string -> bool)
    requires s.step == 1 && p in ProviderStep.ProviderIds()
    ensures Apply(s, PickProvider(p), json) == s.(data := s.data.(cloudProvider := p), error := "")
  {
    assert Handle(s, PickProvider(p), json) == s.(data := s.data.(cloudProvider := p), error := "");
  }

  /** Continue on the first step with its guard passed enters the service
      step with the request unchanged. */
  lemma ContinueOnFirst(s: State, json: string -> bool)
    requires s.step == 1 && !Blank(s.data.projectName) && s.data.cloudProvider != ""
    ensures Apply(s, Continue, json) == Enter(s, 2)
  {
    assert Handle(s, Continue, json) == Enter(s, 2);
  }

  /** Continue on the service step with a service stored enters the
      configuration step, whose defaults effect may change only the
      variables; a request already settled stays as it is. */
  lemma ContinueOnSecond(s: State, json: string -> bool)
    requires s.step == 2 && s.data.service != ""
    ensures Apply(s, Continue, json) == Settle(Enter(s, 3))
    ensures Apply(s, Continue, json).step == 3
    ensures Apply(s, Continue, json).data == s.data.(variables := Apply(s, Continue, json).data.variables)
    ensures VariableStep.Prepopulate(VariableStep.Schema(s.data.service), s.data.variables).None? ==>
      Apply(s, Continue, json).data == s.data
  {
    assert Handle(s, Continue, json) == Enter(s, 3);
  }

  /** Naming the project, choosing a provider and continuing reaches the
      service step with exactly those two fields changed. */
  lemma NameChooseContinue(s: State, name: string, p: string, json: string -> bool)
    requires s.step == 1 && !Blank(name) && p in ProviderStep.ProviderIds()
    ensures var t := Apply(Apply(Apply(s, EditName(name), json), PickProvider(p), json), Continue, json);
      t.step == 2 && t.data == s.data.(projectName := name, cloudProvider := p)
  {
    EditNameOnFirst(s, name, json);
    var s1 := s.(data := s.data.(projectName := name));
    PickProviderOnFirst(s1, p, json);
    var s2 := s1.(data := s1.data.(cloudProvider := p), error := "");
    ContinueOnFirst(s2, json);
  }

  /** Picking an offered service and going back reaches the first step with
      the service stored. */
  lemma PickServiceThenBack(s: State, id: string, json: string -> bool)
    requires s.step == 2 && Offered(s.data.cloudProvider, id)
    ensures var t := Apply(Apply(s, PickService(id), json), Back, json);
      t.step == 1 && t.data == s.data.(service := id)
  {
  }

  /** Choosing another provider on the first step and continuing reaches the
      service step with only the provider changed. */
  lemma SwitchProviderContinue(s: State, p: string, json: string -> bool)
    requires s.step == 1 && !Blank(s.data.projectName) && p in ProviderStep.ProviderIds()
    ensures var t := Apply(Apply(s, PickProvider(p), json), Continue, json);
      t.step == 2 && t.data == s.data.(cloudProvider := p)
  {
    PickProviderOnFirst(s, p, json);
    ContinueOnFirst(s.(data := s.data.(cloudProvider := p), error := ""), json);
  }

  /** Amazon's cards do not offer GKE. */
  lemma GkeNotOfferedForAws()
    ensures !Offered("AWS", "gke")
  {
    var cards := ServiceStep.Services("AWS");
    assert forall i :: 0 <= i < |cards| ==> cards[i].id != "gke";
  }

  /** The states the stale-service scenario passes through. */
  lemma StaleServiceStates(json: string -> bool)
    ensures var s3 := Apply(Apply(Apply(Start(), EditName("shop"), json), PickProvider("GCP"), json), Continue, json);
      var s5 := Apply(Apply(s3, PickService("gke"), json), Back, json);
      var s7 := Apply(Apply(s5, PickProvider("AWS"), json), Continue, json);
      s7.step == 2 && s7.data.projectName == "shop" && s7.data.cloudProvider == "AWS" && s7.data.service == "gke"
  {
    var s0 := Start();
    assert !Blank("shop") by { assert !IsSpace("shop"[0]); }
    NameChooseContinue(s0, "shop", "GCP", json);
    var s3 := Apply(Apply(Apply(s0, EditName("shop"), json), PickProvider("GCP"), json), Continue, json);
    assert s3.step == 2 && s3.data.projectName == "shop" && s3.data.cloudProvider == "GCP";
    assert Offered("GCP", "gke") by { assert ServiceStep.Services("GCP")[1].id == "gke"; }
    PickServiceThenBack(s3, "gke", json);
    var s5 := Apply(Apply(s3, PickService("gke"), json), Back, json);
    assert s5.step == 1 && s5.data.projectName == "shop" && s5.data.service == "gke";
    SwitchProviderContinue(s5, "AWS", json);
  }

  /** Running two sequences of events one after the other. */
  lemma {:induction false} RunAppend(s: State, a: seq<Event>, b: seq<Event>, json: string -> bool)
    ensures Run(s, a + b, json) == Run(Run(s, a, json), b, json)
    decreases |a|
  {
    if a != [] {
      RunCons(s, a[0], a[1..] + b, json);
      assert a + b == [a[0]] + (a[1..] + b);
      RunAppend(Apply(s, a[0], json), a[1..], b, json);
    } else {
      assert a + b == b;
    }
  }

  /** Name the project, pick Google Cloud and pick GKE. */
  const PickGke: seq<Event> := [EditName("shop"), PickProvider("GCP"), Continue, PickService("gke")]

  /** Go back, switch to AWS and continue twice. */
  const SwitchToAws: seq<Event> := [Back, PickProvider("AWS"), Continue, Continue]

  lemma RunPickGke(json: string -> bool)
    ensures Run(Start(), PickGke, json) ==
      Apply(Apply(Apply(Apply(Start(), EditName("shop"), json), PickProvider("GCP"), json), Continue, json), PickService("gke"), json)
  {
    var s0 := Start();
    var s1 := Apply(s0, EditName("shop"), json);
    var s2 := Apply(s1, PickProvider("GCP"), json);
    var s3 := Apply(s2, Continue, json);
    RunCons(s0, EditName("shop"), [PickProvider("GCP"), Continue, PickService("gke")], json);
    RunCons(s1, PickProvider("GCP"), [Continue, PickService("gke")], json);
    RunCons(s2, Continue, [PickService("gke")], json);
    RunCons(s3, PickService("gke"), [], json);
  }

  lemma RunSwitchToAws(s: State, json: string -> bool)
    ensures Run(s, SwitchToAws, json) ==
      Apply(Apply(Apply(Apply(s, Back, json), PickProvider("AWS"), json), Continue, json), Continue, json)
  {
    var s5 := Apply(s, Back, json);
    var s6 := Apply(s5, PickProvider("AWS"), json);
    var s7 := Apply(s6, Continue, json);
    RunCons(s, Back, [PickProvider("AWS"), Continue, Continue], json);
    RunCons(s5, PickProvider("AWS"), [Continue, Continue], json);
    RunCons(s6, Continue, [Continue], json);
    RunCons(s7, Continue, [], json);
  }

  /** The stale service reached from a fresh wizard: name the project, pick
      Google Cloud and GKE, go back, switch to AWS and continue twice; the
      configuration step opens for GKE under AWS, a pair no card offers. */
  lemma StaleServiceFromStart(json: string -> bool)
    ensures var t := Run(Start(), PickGke + SwitchToAws, json);
      t.step == 3 && t.data.cloudProvider == "AWS" && t.data.service == "gke" && !Offered("AWS", "gke")
  {
    RunAppend(Start(), PickGke, SwitchToAws, json);
    RunPickGke(json);
    var s4 := Run(Start(), PickGke, json);
    RunSwitchToAws(s4, json);
    StaleServiceStates(json);
    ContinueOnSecond(Apply(Apply(Apply(s4, Back, json), PickProvider("AWS"), json), Continue, json), json);
    GkeNotOfferedForAws();
  }
}
