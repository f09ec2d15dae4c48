/** Step 1 of the wizard (CloudProviderStep.tsx): the project name, the choice
    of provider among three fixed cards, and the Continue guard. */
module ProviderStep {
  import opened Common
  import opened Wizard

  /** One selectable provider card. */
  datatype ProviderCard = ProviderCard(id: string, name: string, description: string)

  const Cards: seq<ProviderCard> := [
    ProviderCard("GCP", "Google Cloud Platform", "Scalable and secure cloud computing services"),
    ProviderCard("AWS", "Amazon Web Services", "Comprehensive cloud computing platform"),
    ProviderCard("Azure", "Microsoft Azure", "Intelligent cloud and edge platform")
  ]

  /** The ids a click on a card can store: upper-case "GCP", "AWS" and mixed-case
      "Azure", distinct from one another. */
  function ProviderIds(): (ids: seq<string>)
    ensures ids == ["GCP", "AWS", "Azure"]
    ensures forall i, j :: 0 <= i < j < |ids| ==> ids[i] != ids[j]
    ensures forall i :: 0 <= i < |ids| ==> ids[i] == Cards[i].id
  {
    seq(|Cards|, i requires 0 <= i < |Cards| => Cards[i].id)
  }

  const NameMissing := "Please enter a project name."
  const ProviderMissing := "Please select a cloud provider."

  /** `handleNext`: advances exactly when the trimmed name is non-empty and some
      provider is chosen; a blank name is reported first. The credential registry
      is not an input, so configured credentials play no part. */
  function Next(d: WizardData): (r: StepOutcome)
    ensures r.Advance? <==> !Blank(d.projectName) && d.cloudProvider != ""
    ensures Blank(d.projectName) ==> r == Blocked(NameMissing)
    ensures !Blank(d.projectName) && d.cloudProvider == "" ==> r == Blocked(ProviderMissing)
  {
    if Trim(d.projectName) == "" then Blocked(NameMissing)
    else if d.cloudProvider == "" then Blocked(ProviderMissing)
    else Advance
  }

  /** `handleProviderSelect`: only the provider changes; an earlier service and
      its variables are kept. */
  function SelectProvider(d: WizardData, id: string): (r: WizardData)
    ensures r == d.(cloudProvider := id)
    ensures r.service == d.service && r.variables == d.variables
  {
    Merge(d, NoChange.(cloudProvider := Some(id)))
  }

  /** The name input's `onChange`: the text is stored as typed, untrimmed. */
  function SetProjectName(d: WizardData, name: string): (r: WizardData)
    ensures r == d.(projectName := name)
  {
    Merge(d, NoChange.(projectName := Some(name)))
  }

  /** A white-space-only name is stored verbatim and then rejected by Continue
      with the name message, even when a provider is chosen. */
  lemma {:induction false} WhitespaceNameStoredButRejected(d: WizardData, name: string)
    requires |name| > 0 && Blank(name)
    ensures SetProjectName(d, name).projectName == name
    ensures Trim(name) == []
    ensures Next(SetProjectName(d, name)) == Blocked(NameMissing)
  {
  }

  /** A name with surrounding blanks passes, and keeps its blanks. */
  lemma PaddedNameAccepted(d: WizardData)
    requires d.cloudProvider == "GCP"
    ensures Next(SetProjectName(d, " demo ")).Advance?
    ensures SetProjectName(d, " demo ").projectName == " demo "
  {
    var s := " demo ";
    assert !IsSpace(s[1]);
  }
}
