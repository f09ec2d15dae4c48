/** Step 4 of the wizard (ReviewDeployStep.tsx): the deploy decision, the
    document written for a real deployment, the status shown afterwards, the
    service display names and the dry-run preview. The signed-in user, the
    demo-mode flag, the database handle, the write's result and the clock are
    parameters; the awaited delays take no time. */
module ReviewDeploy {
  import opened Common
  import opened Wizard
  import ServiceStep
  import ProviderStep
  import DemoServices

  /** `deploymentStatus`. */
  datatype Status = Idle | Succeeded | Failed

  /** The step's local state. */
  datatype ReviewState = ReviewState(deploying: bool, status: Status, deploymentId: string, showPreview: bool)

  /** The state the step mounts with. */
  function Fresh(): (s: ReviewState)
    ensures !s.deploying && s.status == Idle && s.deploymentId == "" && !s.showPreview
  {
    ReviewState(false, Idle, "", false)
  }

  /** The signed-in user: `uid`, and an email and display name that may be
      null. */
  datatype User = User(uid: string, email: Option<string>, displayName: Option<string>)

  /** The document written to the `infrastructure` collection; the server
      timestamps are not modelled. */
  datatype InfraDocument = InfraDocument(
    userId: string,
    projectName: string,
    cloudProvider: string,
    service: string,
    variables: map<string, string>,
    customConfig: Option<string>,
    dryRun: bool,
    status: string,
    createdBy: User)

  /** `infraData` (ReviewDeployStep.tsx:61-77): the request's fields, the
      user as owner and creator, and the status "pending" for a real
      deployment or "dry-run-completed" for a dry run. */
  function Document(d: WizardData, user: User): (r: InfraDocument)
    ensures RequestOf(r) == d
    ensures r.userId == user.uid && r.createdBy == user
    ensures r.status in {"pending", "dry-run-completed"} && (r.status == "pending" <==> !d.dryRun)
  {
    InfraDocument(user.uid, d.projectName, d.cloudProvider, d.service, d.variables, d.customConfig, d.dryRun,
      if d.dryRun then "dry-run-completed" else "pending", user)
  }

  /** The request a document records. */
  function RequestOf(doc: InfraDocument): WizardData {
    WizardData(doc.projectName, doc.cloudProvider, doc.service, doc.variables, doc.customConfig, doc.dryRun)
  }

  /** The document records the request unchanged, belongs to the user who
      wrote it, and names that user, email and display name included. */
  lemma DocumentRecordsRequest(d: WizardData, user: User)
    ensures RequestOf(Document(d, user)) == d
    ensures Document(d, user).userId == user.uid && Document(d, user).createdBy == user
  {
  }

  /** The result of a click on the deploy button: the new state, and the
      document handed to the database, if any. */
  datatype DeployResult = DeployResult(state: ReviewState, submitted: Option<InfraDocument>)

  /** `handleDeploy`, from the click to the end of the `finally` block.
      `write` is the id of the added document, or `None` when the write
      throws. */
  function HandleDeploy(s: ReviewState, user: Option<User>, d: WizardData, demoMode: bool, database: bool,
                        write: Option<string>, now: nat): (r: DeployResult)
    ensures user.None? ==> r == DeployResult(s, None)
    ensures user.Some? && d.dryRun ==> r == DeployResult(s.(showPreview := true), None)
    ensures user.Some? && !d.dryRun ==> !r.state.deploying && r.state.status != Idle && r.state.showPreview == s.showPreview
    ensures r.submitted.Some? ==> user.Some? && !demoMode && database && r.submitted.value == Document(d, user.value)
    ensures user.Some? && !d.dryRun && !demoMode && database ==> r.submitted.Some?
    ensures user.Some? && !d.dryRun && !demoMode && !database ==> r.state.status == Failed && r.state.deploymentId == s.deploymentId
  {
    match user
    case None => DeployResult(s, None)
    case Some(u) =>
      if d.dryRun then DeployResult(s.(showPreview := true), None)
      else if demoMode then
        DeployResult(ReviewState(false, Succeeded, "demo-" + NatToDecimal(now), s.showPreview), None)
      else if !database then
        DeployResult(s.(deploying := false, status := Failed), None)
      else
        var doc := Document(d, u);
        match write
        case Some(id) => DeployResult(ReviewState(false, Succeeded, id, s.showPreview), Some(doc))
        case None => DeployResult(s.(deploying := false, status := Failed), Some(doc))
  }

  /** Every document that can be written has status "pending": the dry-run
      branch of the status expression is dead, because a dry run returns
      before any write. */
  lemma WrittenStatusIsPending(s: ReviewState, user: Option<User>, d: WizardData, demoMode: bool, database: bool,
                               write: Option<string>, now: nat)
    ensures HandleDeploy(s, user, d, demoMode, database, write, now).submitted.Some? ==>
      HandleDeploy(s, user, d, demoMode, database, write, now).submitted.value.status == "pending"
  {
  }

  /** A demo deployment succeeds with the id "demo-" and the clock's digits,
      and writes nothing; a real one succeeds exactly when the write returns
      an id, which becomes the deployment id. */
  lemma DeployOutcomes(s: ReviewState, u: User, d: WizardData, database: bool, write: Option<string>, now: nat)
    requires !d.dryRun
    ensures var r := HandleDeploy(s, Some(u), d, true, database, write, now);
      r.state.status == Succeeded && r.submitted.None? &&
      |r.state.deploymentId| > 5 && r.state.deploymentId[..5] == "demo-" && AllDigits(r.state.deploymentId[5..])
    ensures var r := HandleDeploy(s, Some(u), d, false, true, write, now);
      (r.state.status == Succeeded <==> write.Some?) && (write.Some? ==> r.state.deploymentId == write.value)
  {
    var id := "demo-" + NatToDecimal(now);
    assert id[..5] == "demo-" && id[5..] == NatToDecimal(now);
  }

  /** "Try Again" on the failure screen returns to the review; the button
      exists only on that screen. */
  function TryAgain(s: ReviewState): (r: ReviewState)
    ensures s.status == Failed ==> r.status == Idle
    ensures r == s.(status := r.status)
    ensures s.status != Failed ==> r == s
  {
    if s.status == Failed then s.(status := Idle) else s
  }

  /** After a failed real deployment, "Try Again" and a second click whose
      write succeeds end in success. */
  lemma RetryAfterFailure(s: ReviewState, u: User, d: WizardData, id: string, now: nat)
    requires !d.dryRun
    requires HandleDeploy(s, Some(u), d, false, true, None, now).state.status == Failed
    ensures var failed := HandleDeploy(s, Some(u), d, false, true, None, now).state;
      TryAgain(failed).status == Idle &&
      HandleDeploy(TryAgain(failed), Some(u), d, false, true, Some(id), now).state.status == Succeeded
  {
  }

  /** The preview's `onClose`. */
  function ClosePreview(s: ReviewState): (r: ReviewState)
    ensures !r.showPreview && r == s.(showPreview := false)
  {
    s.(showPreview := false)
  }

  /** A dry-run click opens the preview and writes nothing; closing the
      preview then gives back the review as it was. */
  lemma DryRunThenClose(s: ReviewState, u: User, d: WizardData, demoMode: bool, database: bool,
                        write: Option<string>, now: nat)
    requires d.dryRun && !s.showPreview
    ensures HandleDeploy(s, Some(u), d, demoMode, database, write, now).submitted.None?
    ensures HandleDeploy(s, Some(u), d, demoMode, database, write, now).state.showPreview
    ensures ClosePreview(HandleDeploy(s, Some(u), d, demoMode, database, write, now).state) == s
  {
  }

  /** `getServiceDisplayName`: `serviceNames[service] || service`. */
  function ServiceDisplayName(service: string): (r: string)
    ensures service !in ServiceStep.CatalogIds ==> r == service
  {
    if service == "compute-engine" then "Compute Engine"
    else if service == "gke" then "Google Kubernetes Engine"
    else if service == "cloud-sql" then "Cloud SQL"
    else if service == "ec2" then "Amazon EC2"
    else if service == "eks" then "Amazon EKS"
    else if service == "rds" then "Amazon RDS"
    else if service == "virtual-machines" then "Virtual Machines"
    else if service == "aks" then "Azure Kubernetes Service"
    else if service == "cosmos-db" then "Azure Cosmos DB"
    else service
  }

  /** The review shows each catalog service under the name its selection
      card shows. */
  lemma DisplayNameMatchesCatalog(provider: string, e: ServiceStep.ServiceEntry)
    requires e in ServiceStep.Services(provider)
    ensures ServiceDisplayName(e.id) == e.name
  {
  }

  /** The preview is opened with the wizard's provider id, and the preview
      table knows only lower-case keys, so every provider the wizard can
      store previews nothing (ReviewDeployStep.tsx:356-361). */
  lemma WizardPreviewIsEmpty(d: WizardData)
    requires d.cloudProvider in ProviderStep.ProviderIds()
    ensures DemoServices.Generate(d.cloudProvider, d.projectName) == []
    ensures DemoServices.TotalCents(DemoServices.Generate(d.cloudProvider, d.projectName)) == Some(0)
  {
    DemoServices.GenerateShape(d.cloudProvider, d.projectName);
  }
}
