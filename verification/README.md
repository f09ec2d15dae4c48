# Provisioning wizard of iac-app, modelled in Dafny

iac-app is a Next.js front end for requesting cloud infrastructure. A signed-in
user goes through a four-step wizard:

1. name a project and pick a cloud provider;
2. pick one of that provider's services;
3. fill in the service's variables, optionally edit a JSON configuration, and choose
   dry run or a real deployment;
4. review the request and deploy it.

A real deployment writes a document to the Firestore `infrastructure` collection. A
dry run opens a preview of demo resources with their monthly cost.

Around the wizard, the model also covers:

- the credentials page, which stores provider credentials in browser storage;
- the registry that reads those credentials back;
- the dashboard table of earlier requests;
- the Firebase configuration check that switches the app into demo mode;
- the sign-in button's error messages.

The model is a set of pure functions over immutable values, one module per
source file:

| module | file | what it models |
|---|---|---|
| `Common` | — | the string helpers JavaScript provides: `trim`, ASCII `toLowerCase`, `join`, `includes`, decimal rendering |
| `Wizard` | `InfraWizard.tsx` | the request record, its shallow-merge update, the clamped step counter and the progress header |
| `ProviderStep` | `CloudProviderStep.tsx` | the provider cards and the name/provider guard |
| `ServiceStep` | `ServiceSelectionStep.tsx` | the service catalog and the service guard |
| `VariableStep` | `VariableInputStep.tsx` | the variable schema, the defaults effect, the JSON editor and the variables guard |
| `ReviewDeploy` | `ReviewDeployStep.tsx` | the deploy decision, the stored document, the outcome screens and the display names |
| `DemoServices` | `DemoServices.tsx` | the preview table, its cost strings and the total |
| `CloudProviders` | `lib/cloudProviders.ts` | the credential registry |
| `CredentialConfig` | `CloudProviderConfig.tsx` | the credentials page: mount, form edits, save, delete, lookup |
| `InfraTable` | `InfraTable.tsx` | the dashboard table's load |
| `Firebase` | `lib/firebase.ts` | the configuration check and the demo-mode flag |
| `SignIn` | `SignInButton.tsx` | the sign-in handler and its messages |
| `WizardFlow` | all four steps | the wizard as a state machine over user events |

The outside world enters as parameters:

| source | parameter |
|---|---|
| `JSON.parse` | `json: string -> bool`, or `parse: string -> Option<seq<Credential>>` for the stored credential list |
| `localStorage` | the `Storage` value |
| `Date.now()` | `now` |
| the signed-in user | a parameter |
| the Firestore handle and the write's result | parameters |
| the demo-mode flag | a parameter |

Monthly costs are whole numbers of cents.

The model follows the code as written, including these behaviours a reader may not expect:

- **The step-1 guard never consults the credential registry.** It only checks for a
  non-blank name and a chosen provider. The registry's lookups are modelled in
  `CloudProviders`, but the wizard does not call them.
- **The step-2 guard does not check membership.** It only checks that some service
  id is stored. A service kept from an earlier provider therefore passes (see
  `ServiceStep.StaleServicePasses` and `WizardFlow.StaleServiceReachesConfiguration`).
- **The dry-run preview is always empty.** The wizard stores the provider ids "GCP",
  "AWS" and "Azure", but the preview table is keyed by "gcp", "aws" and "azure". A
  preview opened from the wizard lists nothing and totals $0.00 (see
  `WizardFlow.PreviewAlwaysEmpty`).
- **The two provider-id spellings interact differently with credentials.** The
  credentials page saves entries under the lower-case ids, and the registry compares
  ids ignoring case. An entry saved on the page therefore satisfies a registry
  lookup by the wizard's id (`CredentialConfig.SavedShowsInWizard`). The page's own
  lookup compares exactly.

## Model

| member | source | states |
|---|---|---|
| Common.Trim | src/components/InfraWizard/CloudProviderStep.tsx:48 | `trim()` gives the empty string exactly when the text is empty or white space only; otherwise the result starts and ends with a non-space character and is no longer than the text |
| Common.ToLower | src/lib/cloudProviders.ts:32 | `toLowerCase` keeps the length and lower-cases each character (A-Z only) |
| Common.ContainsAt | src/lib/firebase.ts:24-25 | `includes` holds exactly when the substring occurs at some index |
| Common.Join | src/components/InfraWizard/VariableInputStep.tsx:138 | `join` of no parts is empty; otherwise its length is the parts' lengths plus one separator between each pair, it starts with the first part and ends with the last |
| Common.NatToDecimal | src/components/CloudProviderConfig.tsx:123 | a clock value printed in decimal is a non-empty string of digits that reads back as the same number |
| Wizard.Initial | src/components/InfraWizard.tsx:21-27 | a fresh request has an empty name, provider, service and variables, no custom configuration and dry run off |
| Wizard.Merge | src/components/InfraWizard.tsx:29-31 | `updateData` overwrites exactly the fields the partial carries, and every other field keeps its value |
| Wizard.MergeTwice | src/components/InfraWizard.tsx:29-31 | two updates in a row equal one update with the combined partial, where the later value wins |
| Wizard.MergeIdempotent | src/components/InfraWizard.tsx:29-31 | repeating an update changes nothing more |
| Wizard.MergeNothing | src/components/InfraWizard.tsx:29-31 | an empty partial leaves the request unchanged |
| Wizard.NextStep | src/components/InfraWizard.tsx:33 | `nextStep` adds one below step 4, stays at 4, and keeps a valid step valid |
| Wizard.PrevStep | src/components/InfraWizard.tsx:34 | `prevStep` subtracts one above step 1, stays at 1, and keeps a valid step valid |
| Wizard.BackThenNext | src/components/InfraWizard.tsx:33-34 | Back then Next returns to the starting step, and so does Next then Back away from the two ends |
| Wizard.Header | src/components/InfraWizard.tsx:36-41 | `steps[currentStep - 1]` is in bounds for every valid step and carries that step's number |
| Wizard.Progress | src/components/InfraWizard.tsx:43 | the progress percentage is exactly step × 25, so one of 25, 50, 75 or 100 |
| ProviderStep.ProviderIds | src/components/InfraWizard/CloudProviderStep.tsx:20-45 | the cards offer the ids "GCP", "AWS" and "Azure", pairwise distinct and in card order |
| ProviderStep.Next | src/components/InfraWizard/CloudProviderStep.tsx:47-58 | Continue advances exactly when the trimmed name is non-empty and a provider is set; a blank name is reported before a missing provider |
| ProviderStep.SelectProvider | src/components/InfraWizard/CloudProviderStep.tsx:60-63 | picking a card sets the provider and keeps the stored service and variables |
| ProviderStep.SetProjectName | src/components/InfraWizard/CloudProviderStep.tsx:87 | typing stores the name untrimmed and changes nothing else |
| ProviderStep.WhitespaceNameStoredButRejected | src/components/InfraWizard/CloudProviderStep.tsx:48-50 | a name of blanks is stored as typed but trims to empty and blocks Continue with the name message |
| ProviderStep.PaddedNameAccepted | src/components/InfraWizard/CloudProviderStep.tsx:48-58 | a name with surrounding blanks passes the guard and is stored with its blanks |
| ServiceStep.Services | src/components/InfraWizard/ServiceSelectionStep.tsx:16-90 | each of "GCP", "AWS" and "Azure" offers three services (compute, container, database, in that order); any other key, lower case included, offers none |
| ServiceStep.CatalogIdsComplete | src/components/InfraWizard/ServiceSelectionStep.tsx:16-86 | every offered service id is one of the nine catalog ids, and those nine are distinct |
| ServiceStep.ServiceOwnerUnique | src/components/InfraWizard/ServiceSelectionStep.tsx:16-86 | a service id belongs to exactly one provider |
| ServiceStep.CatalogIdOffered | src/components/InfraWizard/ServiceSelectionStep.tsx:16-86 | every catalog id is offered by some provider |
| ServiceStep.Next | src/components/InfraWizard/ServiceSelectionStep.tsx:92-99 | Continue advances exactly when some service id is stored, and otherwise asks for one |
| ServiceStep.StaleServicePasses | src/components/InfraWizard/ServiceSelectionStep.tsx:90-99 | a "gke" kept after switching to AWS passes the guard although AWS does not offer it |
| ServiceStep.SelectService | src/components/InfraWizard/ServiceSelectionStep.tsx:101-104 | picking a card sets only the service |
| VariableStep.Schema | src/components/InfraWizard/VariableInputStep.tsx:32-94 | the variable list of a service, and the empty list for anything outside the nine catalog ids |
| VariableStep.Prepopulate | src/components/InfraWizard/VariableInputStep.tsx:97-107 | the effect updates nothing exactly when no schema entry with a default is unset; otherwise the new keys are the old keys plus the filled ones |
| VariableStep.MissingDefaultsSpec | src/components/InfraWizard/VariableInputStep.tsx:98-103 | `defaultVariables` holds a key exactly when a schema entry of that name has a default and its value is absent or empty, and then holds that default |
| VariableStep.PrepopulateFillsOnlyUnset | src/components/InfraWizard/VariableInputStep.tsx:97-107 | after the effect, a fillable key holds a schema default, and every other key keeps its presence and value |
| VariableStep.PrepopulateIdempotent | src/components/InfraWizard/VariableInputStep.tsx:97-107 | a second run of the effect finds nothing to fill |
| VariableStep.ApplyDefaults | src/components/InfraWizard/VariableInputStep.tsx:104-106 | the effect changes only the request's variables, to the populated map |
| VariableStep.DefaultFilledAt | src/components/InfraWizard/VariableInputStep.tsx:99-103 | a schema entry with a default whose variable is unset ends up holding that default |
| VariableStep.SetVariable | src/components/InfraWizard/VariableInputStep.tsx:109-117 | editing sets exactly one key and keeps every other key and field |
| VariableStep.EditConfig | src/components/InfraWizard/VariableInputStep.tsx:119-129 | text the parser accepts is stored and clears the error; rejected text only sets "Invalid JSON format"; undefined does nothing; stored text always parsed |
| VariableStep.MissingLabels | src/components/InfraWizard/VariableInputStep.tsx:133-135 | the missing-label list is never longer than the schema |
| VariableStep.MissingLabelsAppend | src/components/InfraWizard/VariableInputStep.tsx:133-135 | the filter keeps schema order: the labels missing from two lists in a row are those of the first followed by those of the second |
| VariableStep.MissingLabelsOne | src/components/InfraWizard/VariableInputStep.tsx:133-135 | a single entry contributes its title once exactly when it is required and its value is absent or blank, and nothing otherwise |
| VariableStep.MissingLabelsSpec | src/components/InfraWizard/VariableInputStep.tsx:133-135 | a label is reported exactly when a required entry with that label is absent or blank; none is reported exactly when every required entry is filled |
| VariableStep.Next | src/components/InfraWizard/VariableInputStep.tsx:131-151 | Continue advances exactly when every required variable is filled and there is no JSON error; missing labels are reported first (variables tab), then the JSON error (config tab) |
| VariableStep.UnknownServicePasses | src/components/InfraWizard/VariableInputStep.tsx:94 | a service outside the catalog has no variables and passes the guard |
| VariableStep.ComputeEngineDefaultsFilled | src/components/InfraWizard/VariableInputStep.tsx:33-38 | for compute-engine the effect fills machine type, zone and image with their defaults and keeps the instance name |
| VariableStep.ComputeEngineRestFilled | src/components/InfraWizard/VariableInputStep.tsx:34-37 | with machine type, zone and image filled, none of them is reported |
| VariableStep.ComputeEngineDefaultsSatisfy | src/components/InfraWizard/VariableInputStep.tsx:34-37 | the three compute-engine defaults are not blank, so they pass the guard |
| VariableStep.ComputeEngineOnlyName | src/components/InfraWizard/VariableInputStep.tsx:133-135 | then only "Instance Name" can be reported |
| VariableStep.ComputeEngineGuard | src/components/InfraWizard/VariableInputStep.tsx:131-141 | with the defaults in, compute-engine advances exactly when the instance name is filled, and otherwise reports only that field |
| VariableStep.ComputeEngineNamed | src/components/InfraWizard/VariableInputStep.tsx:97-151 | a compute-engine request with only an instance name advances after the effect exactly when that name is not blank |
| VariableStep.RejectedConfigBlocks | src/components/InfraWizard/VariableInputStep.tsx:119-151 | after rejected editor text Continue is blocked, with the JSON message when the variables are complete |
| ReviewDeploy.Fresh | src/components/InfraWizard/ReviewDeployStep.tsx:24-27 | the step mounts idle, not deploying, with no id and the preview closed |
| ReviewDeploy.HandleDeploy | src/components/InfraWizard/ReviewDeployStep.tsx:29-97 | no user: nothing; dry run: only the preview opens; otherwise the click ends not deploying and not idle; a document is written only outside demo mode with a database, and is then the request's document; without a database the outcome is failure |
| ReviewDeploy.Document | src/components/InfraWizard/ReviewDeployStep.tsx:61-77 | the document's request fields read back as the request, it belongs to and was created by the user, and its status is "pending" exactly for a real deployment, otherwise "dry-run-completed" |
| ReviewDeploy.DocumentRecordsRequest | src/components/InfraWizard/ReviewDeployStep.tsx:61-77 | the stored document records the request's six fields unchanged, the user's uid, and the user as creator |
| ReviewDeploy.WrittenStatusIsPending | src/components/InfraWizard/ReviewDeployStep.tsx:33-70 | every written document has status "pending"; the "dry-run-completed" branch is dead |
| ReviewDeploy.DeployOutcomes | src/components/InfraWizard/ReviewDeployStep.tsx:42-80 | demo mode succeeds with "demo-" and the clock's digits and writes nothing; a real deployment succeeds exactly when the write returns an id, which becomes the deployment id |
| ReviewDeploy.TryAgain | src/components/InfraWizard/ReviewDeployStep.tsx:184 | Try Again turns a failure back to idle and changes nothing else |
| ReviewDeploy.RetryAfterFailure | src/components/InfraWizard/ReviewDeployStep.tsx:79-96 | after a failed write, Try Again and a successful second write end in success |
| ReviewDeploy.DryRunThenClose | src/components/InfraWizard/ReviewDeployStep.tsx:33-36 | a dry-run click writes nothing and opens the preview, and closing the preview (`onClose`, :359) gives back the review exactly as it was |
| ReviewDeploy.ServiceDisplayName | src/components/InfraWizard/ReviewDeployStep.tsx:112-125 | an id outside the catalog is shown as itself |
| ReviewDeploy.DisplayNameMatchesCatalog | src/components/InfraWizard/ReviewDeployStep.tsx:112-125 | every catalog service is shown under the name its selection card shows |
| ReviewDeploy.WizardPreviewIsEmpty | src/components/InfraWizard/ReviewDeployStep.tsx:357-361 | the preview opened with any of the wizard's provider ids lists nothing and totals zero |
| DemoServices.CostTextAsWritten | src/components/DemoServices.tsx:64-212 | each of the nine rows' cents prints as the cost string the table writes: $24.67, $45.30, $73.00 (gcp), $29.90, $52.20, $85.50 (aws), $31.15, $48.75, $78.90 (azure), each followed by "/month" |
| DemoServices.Generate | src/components/DemoServices.tsx:54-227 | one resource per row of the provider's table, in order, each running, under the table's provider name, with the project name plus the row's suffix as id and the row's cost text |
| DemoServices.InstantiateAll | src/components/DemoServices.tsx:54-226 | one resource per table row, in order |
| DemoServices.GenerateShape | src/components/DemoServices.tsx:54-226 | "gcp", "aws" and "azure" give three resources (compute, database, cluster); any other key, the wizard's ids included, gives none |
| DemoServices.TableFacts | src/components/DemoServices.tsx:56-224 | each table's id suffixes start with a dash and are distinct; its costs sum to 142.97, 167.60 and 158.80 |
| DemoServices.GeneratedResources | src/components/DemoServices.tsx:58-61 | every generated resource is running, and its id is the project name, a dash and a suffix |
| DemoServices.GeneratedIdsDistinct | src/components/DemoServices.tsx:54-226 | the generated ids are pairwise distinct |
| DemoServices.KeepCostChars | src/components/DemoServices.tsx:271 | `replace(/[^0-9.]/g, '')` keeps only digits and dots and never lengthens the text |
| DemoServices.KeepCostCharsExact | src/components/DemoServices.tsx:271 | digits and dots between runs of other characters come out exactly |
| DemoServices.DigitPrefix | src/components/DemoServices.tsx:271 | the longest leading digit run |
| DemoServices.ParseCentsNaN | src/components/DemoServices.tsx:271 | text that is empty or starts with neither a digit nor a dot reads as NaN |
| DemoServices.ParseCentsWhole | src/components/DemoServices.tsx:271 | a non-empty digit string reads as that many whole dollars |
| DemoServices.ParseCentsDollars | src/components/DemoServices.tsx:271 | the dollars of any number read are the value of the leading digit run |
| DemoServices.FractionCents | src/components/DemoServices.tsx:271 | the fraction digits contribute fewer than 100 cents |
| DemoServices.DigitPrefixOfDigits | src/components/DemoServices.tsx:271 | a digit string followed by a non-digit reads back whole |
| DemoServices.FormatCentsShape | src/components/DemoServices.tsx:330 | `toFixed(2)` text of an amount is the whole dollars in digits, a dot, and exactly two digits holding the remaining cents |
| DemoServices.FormatCentsChars | src/components/DemoServices.tsx:330 | `toFixed(2)` text consists of digits and a dot, so the filter keeps it whole |
| DemoServices.FormatParseRoundTrip | src/components/DemoServices.tsx:271-330 | parsing the `toFixed(2)` text of an amount gives the same amount back |
| DemoServices.CostTextFilter | src/components/DemoServices.tsx:271 | the filter drops the "$" and "/month" around a text of digits and dots and keeps the text itself |
| DemoServices.MonthlyCost | src/components/DemoServices.tsx:64-271 | filtering and parsing a row's cost text gives its cents |
| DemoServices.TotalCents | src/components/DemoServices.tsx:270-273 | the reduce from 0 over no resources is 0 |
| DemoServices.TotalIsTableSum | src/components/DemoServices.tsx:270-273 | the total of a generated table is the sum of its rows' cents, never NaN |
| DemoServices.PreviewTotals | src/components/DemoServices.tsx:270-330 | the preview totals 14297 cents for gcp, 16760 for aws, 15880 for azure and 0 for any other key, which `toFixed(2)` prints as "142.97", "167.60", "158.80" and "0.00" |
| DemoServices.Refresh | src/components/DemoServices.tsx:229-239 | the effect regenerates the list exactly when the preview is visible with a provider and a project, and otherwise keeps it |
| DemoServices.RefreshDeterministic | src/components/DemoServices.tsx:229-239 | a visible refresh does not depend on the list it replaces; a hidden one keeps any list |
| CloudProviders.GetConfiguredProviders | src/lib/cloudProviders.ts:10-27 | a non-empty result is exactly the parse of a non-empty stored item in a browser; a parse that succeeds is returned |
| CloudProviders.IsProviderConfigured | src/lib/cloudProviders.ts:29-34 | a provider is configured exactly when some stored entry names it up to case; with nothing stored, no provider is |
| CloudProviders.FindProvider | src/lib/cloudProviders.ts:38-40 | a found entry is in the list and names the provider up to case |
| CloudProviders.FindProviderFirst | src/lib/cloudProviders.ts:38-40 | nothing is found exactly when no entry matches; a found entry is the first match |
| CloudProviders.GetProviderCredentials | src/lib/cloudProviders.ts:36-41 | the credentials returned are a stored entry matching the provider up to case |
| CloudProviders.ConfiguredIffCredentials | src/lib/cloudProviders.ts:29-41 | a provider is configured exactly when credentials are returned for it |
| CloudProviders.EmptyStorageConfiguresNothing | src/lib/cloudProviders.ts:10-27 | outside a browser, with no item, an empty item or an unparsable one, nothing is configured |
| CloudProviders.CaseInsensitiveLookup | src/lib/cloudProviders.ts:31-33 | an entry stored as "gcp" matches a lookup for "GCP" |
| CredentialConfig.FindDef | src/components/CloudProviderConfig.tsx:110-111 | a definition is found exactly for "gcp", "aws" and "azure", and carries that id |
| CredentialConfig.Mount | src/components/CloudProviderConfig.tsx:38-53 | the page mounts with empty forms and a list that is empty or the parse of the stored item |
| CredentialConfig.MountAgreesWithRegistry | src/components/CloudProviderConfig.tsx:38-53 | the page and the registry read the same list from the same storage |
| CredentialConfig.InputChange | src/components/CloudProviderConfig.tsx:99-107 | one field of one provider's form is set; every other form and field keeps its value |
| CredentialConfig.MissingFields | src/components/CloudProviderConfig.tsx:114-115 | the missing-label list is never longer than the field list |
| CredentialConfig.MissingFieldsAppend | src/components/CloudProviderConfig.tsx:114-118 | the filter keeps field order: the labels missing from two lists in a row are those of the first followed by those of the second |
| CredentialConfig.MissingFieldsOne | src/components/CloudProviderConfig.tsx:114-118 | a single field contributes its label once exactly when it is required and its value is absent or blank, and nothing otherwise |
| CredentialConfig.MissingFieldsSpec | src/components/CloudProviderConfig.tsx:114-118 | a label is reported exactly when a required field with that label is absent or blank |
| CredentialConfig.WithoutProvider | src/components/CloudProviderConfig.tsx:132 | an entry is in the filtered list exactly when it is stored and belongs to another provider; the list never grows |
| CredentialConfig.WithoutProviderAppend | src/components/CloudProviderConfig.tsx:132 | the filter keeps list order: filtering a concatenation is concatenating the filtered parts |
| CredentialConfig.WithoutProviderOne | src/components/CloudProviderConfig.tsx:132 | a single entry is kept once exactly when it belongs to another provider, and dropped otherwise |
| CredentialConfig.EntriesForAppend | src/components/CloudProviderConfig.tsx:132-133 | a provider's entries in a concatenation are its entries in each part |
| CredentialConfig.EntriesWithout | src/components/CloudProviderConfig.tsx:132 | after the filter the provider has no entries and every other provider keeps its own |
| CredentialConfig.Save | src/components/CloudProviderConfig.tsx:109-144 | an unknown id is ignored; the save is rejected exactly when a required field is blank, with the alert listing the labels; a save resets that provider's form |
| CredentialConfig.SaveReplaces | src/components/CloudProviderConfig.tsx:132-133 | after a save the provider has exactly one entry, the new one, at the end of the list |
| CredentialConfig.SaveKeepsOthers | src/components/CloudProviderConfig.tsx:132 | every other provider's entries are kept in order |
| CredentialConfig.SavedEntry | src/components/CloudProviderConfig.tsx:122-129 | the new entry has id "provider-clock", the page's provider id, the name "… Configuration", the form's values, and is configured |
| CredentialConfig.SaveAgainRejected | src/components/CloudProviderConfig.tsx:113-144 | saving again without typing is rejected, because the form was cleared |
| CredentialConfig.DefaultsNotApplied | src/components/CloudProviderConfig.tsx:69-115 | a field's default is only a placeholder: an untouched required region blocks the save |
| CredentialConfig.Delete | src/components/CloudProviderConfig.tsx:146-151 | a confirmed delete keeps an entry exactly when it carries another id and leaves the forms alone; a cancelled one changes nothing |
| CredentialConfig.WithoutId | src/components/CloudProviderConfig.tsx:148 | an entry is in the filtered list exactly when it is stored and carries another id; the list never grows |
| CredentialConfig.WithoutIdAppend | src/components/CloudProviderConfig.tsx:148 | the filter keeps list order: filtering a concatenation is concatenating the filtered parts |
| CredentialConfig.WithoutIdOne | src/components/CloudProviderConfig.tsx:148 | a single entry is kept once exactly when it carries another id, and dropped otherwise |
| CredentialConfig.EntriesForWithoutId | src/components/CloudProviderConfig.tsx:148-162 | deleting by id and then taking a provider's entries gives that provider's entries with the id removed, in their order |
| CredentialConfig.DeleteAbsentId | src/components/CloudProviderConfig.tsx:148 | deleting an id that is not stored leaves the list as it was |
| CredentialConfig.GetConfiguredProvider | src/components/CloudProviderConfig.tsx:160-162 | the page's lookup compares exactly: it finds an entry with that provider id, and finds none exactly when there is none |
| CredentialConfig.ConfiguredIsFirstEntry | src/components/CloudProviderConfig.tsx:160-162 | the lookup returns the provider's first entry |
| CredentialConfig.DeleteShowsFirstRemaining | src/components/CloudProviderConfig.tsx:146-162 | after a confirmed delete the page shows, for each provider, its first stored entry that does not carry the deleted id, or nothing if none is left |
| CredentialConfig.SaveShowsNewEntry | src/components/CloudProviderConfig.tsx:109-162 | after a save the page shows the new entry for that provider |
| CredentialConfig.SavedIsConfigured | src/components/CloudProviderConfig.tsx:132-135 | when storage returns the saved list, the registry reports the provider configured under any id equal up to case |
| CredentialConfig.WizardId | src/components/InfraWizard/CloudProviderStep.tsx:20-45 | the wizard's id for a page provider differs from the page's id but equals it ignoring case |
| CredentialConfig.SavedShowsInWizard | src/lib/cloudProviders.ts:29-34 | a save on the page makes the provider configured under the wizard's id for it |
| InfraTable.ToRecord | src/components/InfraTable.tsx:85-93 | a record keeps the document's id, has no empty name, provider, service or status, and takes each timestamp from the document when present and from `now` otherwise |
| InfraTable.ToRecords | src/components/InfraTable.tsx:83-94 | one record per document, in order |
| InfraTable.RecordDefaults | src/components/InfraTable.tsx:85-93 | a record keeps the document's id and non-empty values; a missing or empty value becomes "Unnamed Project", "Unknown" or "pending"; no text field is empty |
| InfraTable.ToRecordsAppend | src/components/InfraTable.tsx:83-94 | the mapping distributes over concatenation |
| InfraTable.DemoRecords | src/components/InfraTable.tsx:33-67 | demo mode shows demo-1, demo-2 and demo-3, completed, running and failed, all dated before now |
| InfraTable.Load | src/components/InfraTable.tsx:30-109 | without a user nothing loads; demo mode shows the demo rows; a missing database or a failed query shows an error and no rows; otherwise one row per document |
| InfraTable.LoadErrorOrRows | src/components/InfraTable.tsx:69-103 | an error always comes with no rows, and the database error appears exactly when a user is signed in outside demo mode without a database |
| Firebase.IsFirebaseConfigured | src/lib/firebase.ts:16-27 | the configuration is usable exactly when the API key, auth domain, project id and app id are present, neither key nor project id is its placeholder, and neither contains "undefined" |
| Firebase.IsDemoMode | src/lib/firebase.ts:30 | the flag "true" or a missing required value forces demo mode, and live mode needs a usable configuration without the flag |
| Firebase.ConfiguredNeedsFour | src/lib/firebase.ts:16-27 | a usable configuration has the API key, auth domain, project id and app id; the bucket and sender id never matter |
| Firebase.PlaceholdersForceDemo | src/lib/firebase.ts:22-30 | a placeholder key or project id, or "undefined" inside either, makes the configuration unusable and forces demo mode |
| Firebase.LiveModeMeansConfigured | src/lib/firebase.ts:30 | outside demo mode the configuration is usable and the flag is not "true" |
| Firebase.ConfiguredRunsLive | src/lib/firebase.ts:30 | a usable configuration without the flag runs live |
| SignIn.SignInMessage | src/components/SignInButton.tsx:34-46 | the four listed error codes get their own messages |
| SignIn.MessagePrecedence | src/components/SignInButton.tsx:34-46 | a listed code decides the message whatever the error text; otherwise the not-configured text gives its message and anything else the default |
| SignIn.HandleSignIn | src/components/SignInButton.tsx:15-52 | the handler ends not loading, with no error exactly when sign-in went through, and with the not-configured message when live mode has no auth |
| WizardFlow.Start | src/components/InfraWizard.tsx:20-27 | the wizard starts on step 1 with the initial request and no errors |
| WizardFlow.OnProviderStep | src/components/InfraWizard/CloudProviderStep.tsx:47-87 | step 1 changes only the name and the provider; it leaves only through Continue and only when the guard passes; a provider it stores is one of the card ids |
| WizardFlow.OnServiceStep | src/components/InfraWizard/ServiceSelectionStep.tsx:90-104 | step 2 changes only the service; it leaves forward only with a service stored |
| WizardFlow.OnConfigStep | src/components/InfraWizard/VariableInputStep.tsx:109-151 | step 3 changes only the variables, the configuration text and dry run; stored text always parsed; it leaves forward only with every required variable filled |
| WizardFlow.OnReviewStep | src/components/InfraWizard/ReviewDeployStep.tsx:325 | the review step changes nothing but the step, and only through Back |
| WizardFlow.Settle | src/components/InfraWizard/VariableInputStep.tsx:97-107 | the defaults effect changes only the variables, and only on step 3 |
| WizardFlow.Handle | src/components/InfraWizard.tsx:99-127 | only the mounted step's handlers act; the step moves by one, through Continue or Back, and stays in 1..4 |
| WizardFlow.Apply | src/components/InfraWizard.tsx:33-127 | an event and its render keep the step in 1..4, move it by one through Continue or Back only, and on the review step nothing but Back has any effect |
| WizardFlow.StartConsistent | src/components/InfraWizard.tsx:20-27 | the initial wizard is consistent |
| WizardFlow.SettleSettles | src/components/InfraWizard/VariableInputStep.tsx:97-107 | after one run of the effect it finds nothing more to fill |
| WizardFlow.ReviewBackKeepsRequest | src/components/InfraWizard/ReviewDeployStep.tsx:325 | Back from the review reaches step 3 with the request unchanged |
| WizardFlow.ApplyConsistent | src/components/InfraWizard.tsx:29-127 | every event keeps the wizard consistent: passed guards stay passed, the provider is a card id or unset, stored configuration parses, defaults are settled from step 3 on |
| WizardFlow.RunConsistent | src/components/InfraWizard.tsx:29-127 | every state reached by any sequence of events is consistent |
| WizardFlow.ReviewedRequestComplete | src/components/InfraWizard/ReviewDeployStep.tsx:29-80 | the review only ever sees a complete request, and a real deployment submits exactly that request as a pending document |
| WizardFlow.PreviewAlwaysEmpty | src/components/InfraWizard/ReviewDeployStep.tsx:357-361 | a preview opened from any reachable state lists nothing |
| WizardFlow.ContinueOnProviderStep | src/components/InfraWizard/CloudProviderStep.tsx:47-58 | on step 1 Continue advances exactly when the guard passes, and otherwise shows its message |
| WizardFlow.ContinueOnServiceStep | src/components/InfraWizard/ServiceSelectionStep.tsx:92-99 | on step 2 Continue advances exactly when a service is stored, and otherwise asks for one |
| WizardFlow.ContinueOnConfigStep | src/components/InfraWizard/VariableInputStep.tsx:131-151 | on step 3 Continue advances exactly when the guard passes, and otherwise shows its message and the tab at fault |
| WizardFlow.BackThenContinue | src/components/InfraWizard.tsx:33-34 | from any consistent state past step 1, Back then Continue returns to the same step with the same request |
| WizardFlow.EditNameOnFirst | src/components/InfraWizard/CloudProviderStep.tsx:87 | typing on step 1 changes only the stored name |
| WizardFlow.PickProviderOnFirst | src/components/InfraWizard/CloudProviderStep.tsx:60-63 | picking a card on step 1 stores that provider, clears the error, and changes nothing else |
| WizardFlow.ContinueOnFirst | src/components/InfraWizard/CloudProviderStep.tsx:47-58 | with a non-blank name and a provider, Continue enters step 2 |
| WizardFlow.ContinueOnSecond | src/components/InfraWizard/ServiceSelectionStep.tsx:92-99 | with a service stored, Continue enters step 3, where only the variables can change, and only by filling defaults |
| WizardFlow.NameChooseContinue | src/components/InfraWizard/CloudProviderStep.tsx:47-87 | from step 1, typing a non-blank name, picking a card and pressing Continue reaches step 2 with that name and provider |
| WizardFlow.PickServiceThenBack | src/components/InfraWizard/ServiceSelectionStep.tsx:101-104 | picking a service and going Back reaches step 1 with the service still stored |
| WizardFlow.SwitchProviderContinue | src/components/InfraWizard/CloudProviderStep.tsx:60-63 | on step 1 with a name, switching provider and pressing Continue reaches step 2 with the new provider and the old service |
| WizardFlow.StaleServiceFromStart | src/components/InfraWizard/ServiceSelectionStep.tsx:90-99 | from the fresh wizard, choosing GCP and "gke", going back, switching to AWS and pressing Continue twice reaches step 3 with "gke" stored, which AWS does not offer |
| WizardFlow.FirstContinueBlocked | src/components/InfraWizard/CloudProviderStep.tsx:47-51 | Continue on a fresh wizard reports the missing project name and stays |
| WizardFlow.StaleServiceReachesConfiguration | src/components/InfraWizard/ServiceSelectionStep.tsx:90-99 | with AWS chosen and "gke" still stored, Continue reaches step 3, which fills the GKE defaults |

## Left out

- Rendering is not modelled: JSX, icons, colours, badges, the step indicators, the
  specifications shown on cards, the default JSON shown in the editor, and the pages
  around the components.
- `toggleSecretVisibility` on the credentials page only changes what is displayed,
  so it is not modelled.
- Firebase initialisation, `signInWithPopup`, `addDoc` and `getDocs` are calls into
  the Firebase library. Their results are parameters: the database handle, the
  write's id or failure, the query's documents or failure, and the auth error.
- `AuthProvider` and `DemoAuthProvider` are the app's own React context components.
  They only pass the signed-in user and the sign-in functions down, so that wiring
  is left out and the user is a parameter.
- The query's `where`/`orderBy` ordering is not modelled, because the documents
  arrive as a parameter in the order the query returns them.
- `serverTimestamp()` is not modelled. Records read back use a `now` parameter for
  missing timestamps.
- The timers, `setLoading` and the intermediate `deploying = true` state are left
  out. Each handler is modelled from its start to the end of its `finally` block,
  and the awaited delays take no time.
- The success alert after a save is computed but not exposed in any contract, and
  `confirm` is the parameter `confirmed`.
- Common.ToLower: lower-cases A-Z only. JavaScript's `toLowerCase` also maps
  non-ASCII letters. Every id the app compares is ASCII.
- CloudProviders.GetConfiguredProviders: `JSON.parse` and the `createdAt`
  conversion are the `parse` parameter. A stored value that parses to something
  other than a list is not modelled.
- CredentialConfig.Mount: the same parameter stands in for the page's own parse.
- Lookups by a string key ignore inherited JavaScript object keys: `services["constructor"]`
  and `serviceVariables["toString"]` are not modelled. Such a key is treated like
  any other unknown key.
- DemoServices.TotalCents: amounts are whole cents and the sum is exact; that is a
  choice of the model. `parseFloat` returns a binary floating-point number, and
  24.67 has no exact binary value. Every cost string in the table has exactly two
  fraction digits, and the three sums are small, so `toFixed(2)` prints each total
  as the exact cent sum. Binary rounding is not modelled.
- DemoServices.ParseCents: reads at most two fraction digits and drops the rest,
  and exponent forms are not read. JavaScript's `parseFloat` keeps every fraction
  digit. The two agree on every cost string of the table.
- DemoServices.Refresh: the 1.5 s delay and the loading flag are left out. The list
  is replaced at once.
- WizardFlow.OnReviewStep: accepts Back in every deploy state. The page shows Back
  only on the idle review (ReviewDeployStep.tsx:325); the success and failure
  screens (ReviewDeployStep.tsx:127-199) have no Back button.
- CredentialConfig.NewCredential: one clock value `now` gives both the id and
  `createdAt`. The page reads the clock twice, with `Date.now()` and `new Date()`
  (CloudProviderConfig.tsx:123,128), so the two can differ by a millisecond.
- CredentialConfig.WithoutProvider: its own contract states which entries remain.
  Order and multiplicity are stated by `WithoutProviderAppend` and `WithoutProviderOne`.
- CredentialConfig.WithoutId: its own contract states which entries remain. Order
  and multiplicity are stated by `WithoutIdAppend` and `WithoutIdOne`.
- CredentialConfig.Delete: its own contract states which entries remain. Order is
  stated through `WithoutId`'s lemmas and `DeleteShowsFirstRemaining`.
- VariableStep.MissingLabels and CredentialConfig.MissingFields: their own contracts
  bound only the length. Order and multiplicity are stated by the `…Append` and
  `…One` lemmas, and membership by the `…Spec` lemmas.
- ReviewDeploy.HandleDeploy: `Date.now()` is the parameter `now`. The deployment's
  later life in Firestore is not modelled.
- ServiceStep.Services: card descriptions are kept only as data.
- VariableStep.Schema: states only the unknown-service case. The nine lists are
  data and are used directly by the lemmas about them.
- WizardFlow.Apply: only the effects of events are modelled. A render with no
  event is not a step, and the defaults effect is applied once per render, which
  reaches its fixed point (`VariableStep.PrepopulateIdempotent`).
