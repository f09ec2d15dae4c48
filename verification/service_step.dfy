/** Step 2 of the wizard (ServiceSelectionStep.tsx): the static provider-to-
    services catalog, the lookup the step renders from, and the Continue guard. */
module ServiceStep {
  import opened Common
  import opened Wizard

  datatype Category = Compute | Container | Database

  /** One catalog card. */
  datatype ServiceEntry = ServiceEntry(id: string, name: string, description: string, category: Category)

  const GcpServices: seq<ServiceEntry> := [
    ServiceEntry("compute-engine", "Compute Engine", "Scalable virtual machines running in Google's data centers", Compute),
    ServiceEntry("gke", "Google Kubernetes Engine", "Managed Kubernetes service for containerized applications", Container),
    ServiceEntry("cloud-sql", "Cloud SQL", "Fully managed relational database service", Database)
  ]

  const AwsServices: seq<ServiceEntry> := [
    ServiceEntry("ec2", "Amazon EC2", "Secure and resizable compute capacity in the cloud", Compute),
    ServiceEntry("eks", "Amazon EKS", "Managed Kubernetes service", Container),
    ServiceEntry("rds", "Amazon RDS", "Managed relational database service", Database)
  ]

  const AzureServices: seq<ServiceEntry> := [
    ServiceEntry("virtual-machines", "Virtual Machines", "On-demand, scalable computing resources", Compute),
    ServiceEntry("aks", "Azure Kubernetes Service", "Managed Kubernetes service", Container),
    ServiceEntry("cosmos-db", "Azure Cosmos DB", "Globally distributed, multi-model database service", Database)
  ]

  /** The keys of the catalog object, matched case-sensitively. */
  predicate IsCatalogProvider(provider: string) {
    provider == "GCP" || provider == "AWS" || provider == "Azure"
  }

  /** `availableServices`: `services[provider] || []`. A catalog provider has
      three services, one per category in the order Compute, Container,
      Database; any other key, "gcp" included, has none. */
  function Services(provider: string): (r: seq<ServiceEntry>)
    ensures !IsCatalogProvider(provider) ==> r == []
    ensures IsCatalogProvider(provider) ==>
      |r| == 3 && r[0].category == Compute && r[1].category == Container && r[2].category == Database
  {
    if provider == "GCP" then GcpServices
    else if provider == "AWS" then AwsServices
    else if provider == "Azure" then AzureServices
    else []
  }

  /** The nine service ids of the catalog, provider by provider. */
  const CatalogIds: seq<string> := [
    "compute-engine", "gke", "cloud-sql",
    "ec2", "eks", "rds",
    "virtual-machines", "aks", "cosmos-db"
  ]

  /** `CatalogIds` lists exactly the ids the lookup can return, and no id
      appears twice. */
  lemma CatalogIdsComplete(provider: string, e: ServiceEntry)
    ensures e in Services(provider) ==> e.id in CatalogIds
    ensures forall i, j :: 0 <= i < j < |CatalogIds| ==> CatalogIds[i] != CatalogIds[j]
  {
  }

  /** Every catalog id belongs to exactly one provider. */
  lemma ServiceOwnerUnique(p: string, q: string, e: ServiceEntry, f: ServiceEntry)
    requires e in Services(p) && f in Services(q) && e.id == f.id
    ensures p == q && e == f
  {
  }

  /** Every catalog id is offered by some catalog provider. */
  lemma {:induction false} CatalogIdOffered(id: string)
    requires id in CatalogIds
    ensures exists p, e :: IsCatalogProvider(p) && e in Services(p) && e.id == id
  {
    var p := if id in ["compute-engine", "gke", "cloud-sql"] then "GCP"
      else if id in ["ec2", "eks", "rds"] then "AWS" else "Azure";
    var i :| 0 <= i < 3 && Services(p)[i].id == id;
    assert Services(p)[i] in Services(p);
  }

  const ServiceMissing := "Please select a service."

  /** `handleNext`: advances exactly when some service id is set. Membership in
      the current provider's list is not checked. */
  function Next(d: WizardData): (r: StepOutcome)
    ensures r.Advance? <==> d.service != ""
    ensures !r.Advance? ==> r == Blocked(ServiceMissing)
  {
    if d.service == "" then Blocked(ServiceMissing) else Advance
  }

  /** A service kept from an earlier provider passes the guard although the
      current provider's list does not contain it. */
  lemma StaleServicePasses(d: WizardData)
    requires d.cloudProvider == "AWS" && d.service == "gke"
    ensures Next(d).Advance?
    ensures forall e :: e in Services(d.cloudProvider) ==> e.id != d.service
  {
  }

  /** `handleServiceSelect`: only the service changes. */
  function SelectService(d: WizardData, id: string): (r: WizardData)
    ensures r == d.(service := id)
  {
    Merge(d, NoChange.(service := Some(id)))
  }
}
