# ClaimsFlow AI — a verified model of the claims wizard

ClaimsFlow AI is a browser demo of an insurance claims desk. An adjuster walks a
motor or property claim through four steps:

1. FNOL intake, the first notice of loss: a description, photos, videos, documents and a voice note.
2. AI triage.
3. Pre-investigation: a checklist, a severity gauge, an invoice analysis and an assistant chat.
4. Settlement: two confirmations, then "Approve & Pay".

Around the steps sit:
- a stepper and a timeline, which show where the claim is;
- a side dock and a command palette;
- toasts, which report quick actions;
- an "AI processing" card.

Every "AI" answer is either the reply of a remote service or a row drawn at
random from the sample-data tables.

This project models that core in Dafny and proves what it promises:

- `Basics`: JavaScript string helpers the components rely on. These are `trim`, ASCII `toLowerCase`, `includes`, `filter` and the decimal rendering of a number.
- `ClaimTypes`, `Responses`: the records that pass between the steps.
- `SampleData` (data/dummyData.ts): the seven sample tables, `getRandomData` and `generateDummyData`. The random draw is a parameter `r` with `0 <= r < 1`.
- `Wizard` (App.tsx): the shell's state as a class, and its handlers as a pure event function. The proof shows that every sequence of events the page offers keeps the step in 1..4, with the data slots matching it.
- `Stepper`, `Timeline`, `SideDock`, `CommandPalette`: the navigation components.
- `FileUpload`: the drop zone with its per-file progress intervals.
- `FnolIntake` (src/components/Step1_FNOL.tsx): the intake form.
- `InvoiceReview` (components/Step3_Investigation.tsx): the first-generation investigation screen, with severity colours and gauge.
- `Investigation` (src/components/Step3_Investigation.tsx): the investigation dashboard, with its upload progress and assistant.
- `ProcessingIndicator` (components/AIProcessingIndicator.tsx): the six-step processing card.
- `Settlement` (components/Step4_Settlement.tsx): the settlement screen.

Timers and awaited calls become methods that the caller invokes in the order the
events happen (`Tick`, `ProgressTick`, `TimeoutFires`, `UploadSucceeded`, …).
Three kinds of input become parameters:
- the outcome of a remote call (`Outcome<T> = Resolved(value) | Threw`);
- `Math.random()` (`r: real`);
- `Date.now()` (`stamp`, `loadedAt` strings).

The side dock's quick actions send the label "Appraisal". The shell's message
table has no such key: its key is "Order Appraisal". That action therefore
shows the generic toast "Action: Appraisal triggered" rather than the appraisal
message. `Wizard.QuickActionMessages` states this alongside the five labels that
do get their own message.

The processing card's effect depends on its `onComplete` prop. When the prop
changes while steps are still running, the effect restarts its counter at
step "1" but keeps the finished steps and the bar. The next timeout then lists
step "1" a second time and drops the bar back to one sixth.
`ProcessingIndicator.Indicator.RerunThenFire` states this. Only a single,
uninterrupted effect run keeps the steps in order.

## Model

| member | source | states |
|---|---|---|
| Basics.TrimStart | src/components/Step3_Investigation.tsx:123 | the result is a suffix of the input that starts with a non-whitespace character, and everything cut off is whitespace |
| Basics.TrimEnd | src/components/Step3_Investigation.tsx:123 | the result is a prefix of the input that ends with a non-whitespace character, and everything cut off is whitespace |
| Basics.TrimEmptyIffBlank | src/components/Step1_FNOL.tsx:130 | `s.trim()` is empty exactly when `s` consists of whitespace only |
| Basics.Lower | components/CommandPalette.tsx:27 | lower-casing keeps the length and maps each character by ASCII lower-casing |
| Basics.ContainsLower | components/CommandPalette.tsx:27 | if `needle` occurs in `hay`, it still occurs after both are lower-cased |
| Basics.ContainsTransitive | components/CommandPalette.tsx:27 | substring containment is transitive |
| Basics.NatToString | components/Step4_Settlement.tsx:72 | the decimal rendering of a number is non-empty and made of digits only |
| Basics.NatToStringRoundTrip | components/Step4_Settlement.tsx:72 | reading the rendered digits back gives the number |
| Basics.NatToStringInjective | components/Step4_Settlement.tsx:72 | distinct numbers render as distinct strings |
| Basics.Filter | App.tsx:35 | `Array.filter`: keeps only elements satisfying the predicate, keeps everything when all satisfy it, and keeps nothing when none does |
| Basics.FilterMembers | App.tsx:35 | an element survives the filter exactly when it was in the input and satisfies the predicate |
| Basics.FilterAppend | App.tsx:35 | filtering distributes over concatenation |
| Basics.FilterNarrow | components/CommandPalette.tsx:26-28 | filtering by p and then by a stronger q is filtering by q |
| Responses.NotCovered | components/Step3_Investigation.tsx:291 | the "Not Covered" amount plus the covered amount is the billed amount |
| SampleData.FnolVariants | data/dummyData.ts:100-201 | the ten intake records carry the load time as their timestamp, and keep their table ids |
| SampleData.RandomIndex | data/dummyData.ts:508 | `Math.floor(r * len)` is a valid index for a non-empty table |
| SampleData.GetRandomData | data/dummyData.ts:507-509 | `getRandomData` yields an element of the array, and yields nothing exactly for an empty array |
| SampleData.GenerateDummyData | data/dummyData.ts:511-524 | the scenario is one row index i in 0..9, taken from every table at the same i |
| SampleData.NoFallbackInRange | data/dummyData.ts:518-522 | for an index in range, none of the `\|\| table[0]` fallbacks fires (every sample answer is non-empty) |
| SampleData.TablesHaveTenEntries | data/dummyData.ts:5-505 | all seven tables have ten rows |
| SampleData.InvoiceTotalsMatchLineItems | data/dummyData.ts:382-491 | each sample invoice's total is the sum of its line-item amounts |
| SampleData.TriageScoresInRange | data/dummyData.ts:204-295 | each triage sample keeps fraud score and confidence within 0..100 |
| SampleData.InvestigationsDrawFromTables | data/dummyData.ts:298-379 | each investigation sample's liability and checklist are rows of the liability and checklist tables |
| Wizard.AddToast | App.tsx:29-32 | `addToast` appends the toast at the end and keeps the earlier ones in order |
| Wizard.RemoveToast | App.tsx:34-36 | `removeToast` keeps exactly the toasts with a different id, and is the identity when no toast has that id |
| Wizard.RemoveToastAppend | App.tsx:34-36 | removing from a concatenation is removing from each part |
| Wizard.RemoveUndoesAdd | App.tsx:29-36 | closing a freshly added toast whose id is new restores the previous list |
| Wizard.ActionToast | App.tsx:38-49 | an action's toast has the table message, or "Action: <name> triggered" for an unknown name; it is of kind info exactly for "Flag SIU", otherwise success |
| Wizard.QuickActionMessages | components/QuickActions.tsx:10-32 | each quick-action label except "Appraisal" gets its table message; "Appraisal" is not a key of the message table and gets the generic message |
| Wizard.CurrentPersona | App.tsx:77-113 | step 1 shows the policyholder, step 2 the claims manager, steps 3 and 4 the recommended adjuster (or "Alex Morgan") as Senior Adjuster on Investigation or Settlement, and any other step the view-mode persona |
| Wizard.StepMoves | App.tsx:51-74 | an offered event moves the step up by one (intake, triage, investigation), sends it back to 1 (restart), or leaves it alone |
| Wizard.RestartIdempotent | App.tsx:68-74 | restart clears the step and the three data slots, keeps the toasts, and a second restart changes nothing |
| Wizard.ApplyPreservesConsistent | App.tsx:201-227 | an event the rendered page offers keeps the step in 1..4, with the intake record present from step 2 on, the triage record from step 3 on, and no invoice analysis before step 3 |
| Wizard.RunPreservesConsistent | App.tsx:201-227 | the same holds after any sequence of offered events |
| Wizard.ReachableStatesConsistent | App.tsx:19-27 | starting from the initial state, every reachable state is consistent and its step lies in 1..4 |
| Wizard.App.constructor | App.tsx:19-27 | the shell starts at step 1, with no records and no toasts |
| Wizard.App.AddToastMessage | App.tsx:29-32 | appends one toast; nothing else changes |
| Wizard.App.RemoveToastById | App.tsx:123 | drops the toasts with that id; nothing else changes |
| Wizard.App.HandleAction | App.tsx:38-49 | appends the action's toast; nothing else changes |
| Wizard.App.HandleFnolComplete | App.tsx:51-55 | stores the intake record and moves to step 2 |
| Wizard.App.HandleTriageComplete | App.tsx:57-61 | stores the triage record and moves to step 3 |
| Wizard.App.HandleInvestigationComplete | App.tsx:63-66 | moves to step 4 and keeps every record |
| Wizard.App.SetInvoiceAnalysis | App.tsx:211 | stores the invoice analysis and keeps the step |
| Wizard.App.HandleRestart | App.tsx:68-74 | back to step 1 with the three data slots cleared; the toasts stay |
| Stepper.StepIdsInOrder | components/Stepper.tsx:8-13 | the four steps have ids 1 to 4 in order |
| Stepper.Render | components/Stepper.tsx:19-52 | a step is completed when its id is below the current step, current when equal, and upcoming when above |
| Stepper.ExactlyOneCurrent | components/Stepper.tsx:31 | at a step in 1..4 exactly one step is drawn as current, at position currentStep - 1 |
| Stepper.CompletedPrefix | components/Stepper.tsx:21 | the completed steps are exactly those before the current one |
| Stepper.Connectors | components/Stepper.tsx:55-59 | there are three connectors, and each is filled exactly when the step on its left is completed |
| Stepper.CompletedStaysCompleted | components/Stepper.tsx:21 | moving forward never un-completes a step |
| Timeline.Events | components/Timeline.tsx:11-54 | six events, from "Claim Filed" to "Payment Processing" |
| Timeline.CompletePrefix | components/Timeline.tsx:17-38 | at step n in 1..4, the first n events are complete and the rest are not |
| Timeline.ActiveFollowsComplete | components/Timeline.tsx:31-45 | at most one event is active; it is the one right after the complete events, and at step 1 none is active |
| Timeline.LastEventsNeverComplete | components/Timeline.tsx:45-52 | "Settlement Approval" is never complete and "Payment Processing" is always pending |
| Timeline.CompleteStaysComplete | components/Timeline.tsx:17-38 | moving forward never un-completes an event |
| SideDock.Toggle | components/SideDock.tsx:16-18 | toggling the open panel closes it; toggling any other state opens that panel |
| SideDock.ToggleTwice | components/SideDock.tsx:16-18 | toggling twice restores the state exactly when nothing or the same panel was open |
| SideDock.ButtonsMonotone | components/SideDock.tsx:22-26 | the actions and timeline buttons never disappear as the step advances, and the actions button implies the timeline button |
| SideDock.Dock.constructor | components/SideDock.tsx:14 | no panel is open at first |
| SideDock.Dock.TogglePanel | components/SideDock.tsx:16-18 | the open panel becomes Toggle of the previous one |
| SideDock.Dock.ClosePanel | components/SideDock.tsx:20 | closes every panel |
| SideDock.Dock.ChooseQuickAction | components/SideDock.tsx:102 | forwards the chosen action unchanged and closes the panel |
| CommandPalette.FilteredCommands | components/CommandPalette.tsx:26-28 | keeps exactly the commands whose lower-cased label contains the lower-cased search |
| CommandPalette.EmptySearchListsAll | components/CommandPalette.tsx:26-28 | an empty search lists all eleven commands in table order |
| CommandPalette.LongerSearchNarrows | components/CommandPalette.tsx:26-28 | extending the search only removes commands: the result is the earlier result filtered again |
| CommandPalette.InCategory | components/CommandPalette.tsx:55 | a category's list holds only commands of that category |
| CommandPalette.Drawn | components/CommandPalette.tsx:56 | a section is drawn exactly when it has commands |
| CommandPalette.FlattenAppend | components/CommandPalette.tsx:54-74 | listing sections in sequence distributes over concatenation |
| CommandPalette.TableGrouped | components/CommandPalette.tsx:12-24 | the table is three action commands, then four navigation commands, then four tool commands |
| CommandPalette.BlockInCategory | components/CommandPalette.tsx:55 | filtering a block of one category by its own category keeps it, and by another category empties it |
| CommandPalette.InCategoryAppend | components/CommandPalette.tsx:55 | selecting a category distributes over concatenation |
| CommandPalette.CategoryParts | components/CommandPalette.tsx:55 | in the filtered table, each category's selection is the filtered block of that category |
| CommandPalette.FlattenDrawn | components/CommandPalette.tsx:56 | leaving out the empty sections loses no command |
| CommandPalette.SectionsOfGrouped | components/CommandPalette.tsx:54-74 | for a category-grouped list, the drawn sections read in order give back the list, and no drawn section is empty |
| CommandPalette.SectionsCoverFiltered | components/CommandPalette.tsx:54-77 | the sections list exactly the filtered commands in order, none is empty, and there are no sections exactly when "No commands found." shows |
| CommandPalette.SectionsOrdered | components/CommandPalette.tsx:54-56 | sections come in the order actions, navigation, tools, and each lists only its own category |
| CommandPalette.Rank | components/CommandPalette.tsx:54 | each category has its position in the section order |
| CommandPalette.Palette.constructor | components/CommandPalette.tsx:10 | the search starts empty |
| CommandPalette.Palette.SetOpen | components/CommandPalette.tsx:30-34 | opening a closed palette clears the search; otherwise the search is kept |
| CommandPalette.Palette.Type | components/CommandPalette.tsx:48 | the search becomes the typed text |
| CommandPalette.Palette.Select | components/CommandPalette.tsx:65 | choosing a command runs its id and then closes the palette |
| CommandPalette.Palette.Shown | components/CommandPalette.tsx:36 | a closed palette renders nothing |
| FileUpload.ToProcess | components/FileUpload.tsx:43 | multiple mode takes every selected file; single mode takes only the first |
| FileUpload.NewPreviews | components/FileUpload.tsx:46-51 | one preview per file, at 0 % and not completed, with a preview URL exactly for the image, video and invoice variants |
| FileUpload.WithPreviews | components/FileUpload.tsx:53-57 | multiple mode appends the new previews; single mode replaces the list |
| FileUpload.Advance | components/FileUpload.tsx:63-66 | an interval tick adds the increment and caps it at 100, stopping there |
| FileUpload.WriteProgress | components/FileUpload.tsx:67-81 | a tick writes only its own index, which then reads 100 and completed, or the new progress; an index past the end changes nothing |
| FileUpload.RemoveAt | components/FileUpload.tsx:103-111 | removing drops exactly the entry at that index and keeps the others in order |
| FileUpload.DragEvents | components/FileUpload.tsx:32-40 | dragenter and dragover highlight the zone, dragleave clears it, and other events leave it alone |
| FileUpload.WriteProgressKeepsGood | components/FileUpload.tsx:62-83 | every progress shown stays within 0..100 through any tick |
| FileUpload.WithNewPreviewsGood | components/FileUpload.tsx:46-57 | adding previews keeps every progress within 0..100 |
| FileUpload.Uploader.constructor | components/FileUpload.tsx:28-29 | no drag highlight and no files |
| FileUpload.Uploader.HandleDrag | components/FileUpload.tsx:32-40 | the highlight follows DragActiveAfter; files and intervals are unchanged |
| FileUpload.Uploader.ProcessFiles | components/FileUpload.tsx:42-85 | reports the files to process, installs their previews, and starts one interval per file, aimed at the file's index in the list |
| FileUpload.Uploader.Tick | components/FileUpload.tsx:62-83 | one interval advances, and its progress is written to its index in the list |
| FileUpload.Uploader.RemoveFile | components/FileUpload.tsx:103-111 | the list loses exactly that index |
| FileUpload.Uploader.HandleDrop | components/FileUpload.tsx:87-94 | clears the highlight; when files were dropped, reports the files to process, installs their previews and starts one interval per file at the file's index, and otherwise reports nothing and changes nothing else |
| FileUpload.Uploader.HandleChange | components/FileUpload.tsx:96-101 | when files were chosen, reports the files to process, installs their previews and starts one interval per file at the file's index; otherwise reports nothing and nothing changes |
| FnolIntake.EntryIdsDistinct | src/components/Step1_FNOL.tsx:65 | the ids of one upload batch are pairwise distinct |
| FnolIntake.NewEntries | src/components/Step1_FNOL.tsx:64-71 | one entry per file, in order, with its batch id, name and "User Upload" type, and a preview URL except for documents |
| FnolIntake.AppendUpload | src/components/Step1_FNOL.tsx:59-111 | an upload appends the new entries after the old ones, and an empty or missing selection changes nothing |
| FnolIntake.RemoveById | src/components/Step1_FNOL.tsx:113-123 | keeps exactly the entries with a different id |
| FnolIntake.RemoveKeepsLaterUpload | src/components/Step1_FNOL.tsx:113-123 | removing an id that no later entry carries does not touch the later upload |
| FnolIntake.UsesAiIffEvidence | src/components/Step1_FNOL.tsx:130 | the AI is asked exactly when the trimmed description is non-empty, or there are images, a voice note or documents |
| FnolIntake.WhitespaceEnablesButTakesSample | src/components/Step1_FNOL.tsx:130-138 | a whitespace-only description enables the button, but the result is a sample record |
| FnolIntake.DocumentsAloneKeepButtonDisabled | src/components/Step1_FNOL.tsx:436 | with only documents the button stays disabled, although a click would ask the AI |
| FnolIntake.DisabledMeansNoAiUnlessDocs | src/components/Step1_FNOL.tsx:130 | while the button is disabled, a click would ask the AI exactly when documents are attached |
| FnolIntake.GeneratedRecord | src/components/Step1_FNOL.tsx:125-148 | the record is the AI's answer when the AI is asked and answers; otherwise it is a sample intake record |
| FnolIntake.FnolForm.constructor | src/components/Step1_FNOL.tsx:25-36 | empty description, no uploads, no recording |
| FnolIntake.FnolForm.SetDescription | src/components/Step1_FNOL.tsx:26 | only the description changes |
| FnolIntake.FnolForm.HandleUpload | src/components/Step1_FNOL.tsx:59-111 | only the chosen list changes, by AppendUpload |
| FnolIntake.FnolForm.Remove | src/components/Step1_FNOL.tsx:113-123 | only the chosen list changes, by RemoveById |
| FnolIntake.FnolForm.HandleGenerate | src/components/Step1_FNOL.tsx:125-148 | hands on the generated record, then moves on; the form ends not generating |
| FnolIntake.FnolForm.StartRecording | src/components/Step1_FNOL.tsx:150-173 | recording starts only when the microphone is granted |
| FnolIntake.FnolForm.StopRecording | src/components/Step1_FNOL.tsx:175-180 | stopping ends the recording only when a recorder exists |
| FnolIntake.FnolForm.RecorderStopped | src/components/Step1_FNOL.tsx:160-165 | the recorded clip and its URL are stored |
| FnolIntake.FnolForm.DeleteRecording | src/components/Step1_FNOL.tsx:417 | the clip and its URL are cleared |
| InvoiceReview.BandOf | components/Step3_Investigation.tsx:39-46 | the severity band is Critical, High or Moderate for exactly those levels, and Low for all others |
| InvoiceReview.BadgesDiffer | components/Step3_Investigation.tsx:39-46 | the four badge styles are pairwise distinct |
| InvoiceReview.BarsDiffer | components/Step3_Investigation.tsx:83-87 | the four bar colours are pairwise distinct |
| InvoiceReview.ColoursFollowBand | components/Step3_Investigation.tsx:39-46 | two levels get the same badge colour, and the same bar colour, exactly when they fall in the same band |
| InvoiceReview.SeverityPercent | components/Step3_Investigation.tsx:48-55 | the gauge reads between 25 and 95 |
| InvoiceReview.PercentOrder | components/Step3_Investigation.tsx:48-55 | Critical > High > Moderate > any other level, which reads 25 |
| InvoiceReview.PercentDeterminesBand | components/Step3_Investigation.tsx:48-55 | two levels read the same percentage exactly when they share a band |
| InvoiceReview.RepairLabelCoarser | components/Step3_Investigation.tsx:99 | the repair-time label is coarser than the band: only Moderate and lower share "3-5" |
| InvoiceReview.Screen.constructor | components/Step3_Investigation.tsx:14-16 | nothing is loaded and nothing is analysed |
| InvoiceReview.Screen.Loaded | components/Step3_Investigation.tsx:18-22 | the picked record is shown |
| InvoiceReview.Screen.BeginInvoiceUpload | components/Step3_Investigation.tsx:30-32 | the analysis starts only for a non-empty selection |
| InvoiceReview.Screen.FinishInvoiceUpload | components/Step3_Investigation.tsx:33-36 | the picked analysis is stored and analysis ends |
| InvoiceReview.Screen.Notify | components/Step3_Investigation.tsx:24-28 | the analysis is handed on exactly when there is one and a callback |
| InvoiceReview.Screen.Reset | components/Step3_Investigation.tsx:326-329 | the analysis is cleared |
| InvoiceReview.Screen.NotCoveredShown | components/Step3_Investigation.tsx:291 | an amount is shown exactly when an analysis exists, and it is billed minus covered |
| Investigation.Outstanding | src/components/Step3_Investigation.tsx:158 | the outstanding count is at most the checklist length, and zero exactly when no item is pending |
| Investigation.OutstandingAppend | src/components/Step3_Investigation.tsx:158 | the count over a concatenation is the sum of the counts |
| Investigation.SettlingOneItem | src/components/Step3_Investigation.tsx:158 | settling one pending item lowers the count by one |
| Investigation.ChecklistBadge | src/components/Step3_Investigation.tsx:251-253 | the badge is a warning exactly when some item is pending |
| Investigation.NextProgress | src/components/Step3_Investigation.tsx:92-93 | a tick adds 5 up to the cap of 90, which it never passes |
| Investigation.ProgressAfterTicks | src/components/Step3_Investigation.tsx:90-98 | after n ticks the bar reads min(5n, 90) |
| Investigation.StatusAt | src/components/Step3_Investigation.tsx:95-97 | the status text for each progress range; at 20 or below the previous text stays |
| Investigation.InitialRecord | src/components/Step3_Investigation.tsx:49-73 | the AI's investigation when it may be asked and answers; otherwise a sample investigation |
| Investigation.Reply | src/components/Step3_Investigation.tsx:126-131 | the assistant's answer, or the apology when the call fails |
| Investigation.Dashboard.constructor | src/components/Step3_Investigation.tsx:24-46 | keeps the intake and triage props; loading exactly when no record is passed in; nothing uploaded or asked |
| Investigation.Dashboard.InitData | src/components/Step3_Investigation.tsx:49-73 | a missing record is filled in (the AI's answer only when both props exist) and loading ends; it is handed up only when the intake and triage records exist |
| Investigation.Dashboard.BeginUpload | src/components/Step3_Investigation.tsx:81-98 | no file: nothing changes; otherwise the upload starts at 0 % with "Uploading document..." and the interval runs |
| Investigation.Dashboard.ProgressTick | src/components/Step3_Investigation.tsx:91-98 | the bar advances by NextProgress, never passes 90, and the status follows StatusAt |
| Investigation.Dashboard.UploadSucceeded | src/components/Step3_Investigation.tsx:102-107 | the analysis is stored, the interval stops, and the bar reads 100 with "Analysis Complete" |
| Investigation.Dashboard.RevealAnalysis | src/components/Step3_Investigation.tsx:108-111 | the upload ends and the analysis shows |
| Investigation.Dashboard.UploadFailed | src/components/Step3_Investigation.tsx:113-119 | the interval stops, the upload ends, and the status reads "Analysis Failed" |
| Investigation.Dashboard.UploadDifferentInvoice | src/components/Step3_Investigation.tsx:411 | the analysis is hidden and cleared |
| Investigation.Dashboard.SetQuery | src/components/Step3_Investigation.tsx:487 | only the query changes |
| Investigation.Dashboard.ToggleAssistant | src/components/Step3_Investigation.tsx:507 | only the open flag flips |
| Investigation.Dashboard.AskAi | src/components/Step3_Investigation.tsx:122-135 | a blank query changes nothing; otherwise the response becomes Reply(answer) and typing ends |
| Investigation.Dashboard.Badge | src/components/Step3_Investigation.tsx:137-146 | a badge is drawn exactly when loading is over and the record and both the intake and triage props are present (so a sample record taken without those props is never shown), and it warns exactly when something is outstanding |
| ProcessingIndicator.ProcessingSteps | components/AIProcessingIndicator.tsx:9-16 | six steps |
| ProcessingIndicator.StepIds | components/AIProcessingIndicator.tsx:9-16 | the six step ids are pairwise distinct |
| ProcessingIndicator.ProgressAfter | components/AIProcessingIndicator.tsx:39 | the bar stays within 0..100 and is full exactly when all six steps are done |
| ProcessingIndicator.Ceil | components/AIProcessingIndicator.tsx:95 | `Math.ceil`: the least integer at or above x |
| ProcessingIndicator.RemainingSeconds | components/AIProcessingIndicator.tsx:95 | the estimate is never negative, is zero exactly at full progress, and is otherwise the ceiling of (100 - progress) / 20 |
| ProcessingIndicator.RemainingNeverGrows | components/AIProcessingIndicator.tsx:95 | more progress never raises the estimate |
| ProcessingIndicator.Row | components/AIProcessingIndicator.tsx:62-64 | a row is complete, active or pending, exactly one of the three |
| ProcessingIndicator.Indicator.constructor | components/AIProcessingIndicator.tsx:18-21 | mounting arms step "1" with nothing completed |
| ProcessingIndicator.Indicator.TimeoutFires | components/AIProcessingIndicator.tsx:27-42 | the running step joins the finished ones, the bar moves to the counter's share, and the next step is armed or, after the last, onComplete is called if present; a single effect run stays in step order |
| ProcessingIndicator.Indicator.Unmount | components/AIProcessingIndicator.tsx:46 | the pending timeout is cleared and nothing else changes |
| ProcessingIndicator.Indicator.CallbackChanged | components/AIProcessingIndicator.tsx:23-47 | a new onComplete re-runs the effect: the timeout is cleared and step "1" is armed with a fresh counter, while the finished steps, the bar and the completion count stay |
| ProcessingIndicator.Indicator.RerunThenFire | components/AIProcessingIndicator.tsx:36-47 | after a re-run following some progress, the next timeout lists step "1" a second time and drops the bar to one sixth, leaving the single-run order |
| ProcessingIndicator.Indicator.RunToCompletion | components/AIProcessingIndicator.tsx:27-44 | letting every timeout fire completes all six steps in order, fills the bar, calls onComplete once when it is present (never when absent), and brings the estimate to 0 s |
| ProcessingIndicator.Indicator.Rows | components/AIProcessingIndicator.tsx:61-64 | one row per step |
| ProcessingIndicator.RowsFollowOrder | components/AIProcessingIndicator.tsx:61-64 | while the steps run, the earlier rows are complete, the current one is active and the later ones are pending |
| Settlement.SettlementFlags | components/Step4_Settlement.tsx:45 | one flag per invoice flag, each suggesting "Review policy exclusions" |
| Settlement.IssuesRoundTrip | components/Step4_Settlement.tsx:45 | the invoice's flags come through one to one and in order |
| Settlement.Displayed | components/Step4_Settlement.tsx:32-47 | the shown record is the pick without invoice data; with it, the payout is what the insurer pays, a range from 98 % to 102 % of it, confidence 0.99, no breakdown, and the invoice's flags |
| Settlement.CustomerResponsibility | components/Step4_Settlement.tsx:93 | what the customer pays per the invoice, or $500 without one |
| Settlement.PaidTo | components/Step4_Settlement.tsx:89 | never empty: the invoice's vendor when present and non-empty, and "Claimant" in every other case (no invoice, no vendor, empty vendor) |
| Settlement.ClaimNumber | components/Step4_Settlement.tsx:72 | "2024-1024" when the invoice has an id, otherwise a number of one to four digits |
| Settlement.DigitsAtMost | components/Step4_Settlement.tsx:72 | a number below 10^k has at most k digits |
| Settlement.ApproveEnabled | components/Step4_Settlement.tsx:273 | the approve button is enabled exactly when both boxes are ticked |
| Settlement.Screen.CurrentView | components/Step4_Settlement.tsx:54-56 | the spinner exactly while no record is loaded, and the approved view exactly once approved |
| Settlement.Screen.constructor | components/Step4_Settlement.tsx:22-27 | nothing is loaded, approved or ticked |
| Settlement.Screen.LoadData | components/Step4_Settlement.tsx:29-52 | the displayed record is stored; nothing else changes |
| Settlement.Screen.SetAccurate | components/Step4_Settlement.tsx:255 | only the first confirmation changes |
| Settlement.Screen.SetReviewed | components/Step4_Settlement.tsx:264 | only the second confirmation changes |
| Settlement.Screen.Approve | components/Step4_Settlement.tsx:271-273 | approval happens exactly when the button is enabled, and only then |

## Left out

- Remote AI calls (src/services/aiService.ts) and file reading (src/utils/fileUtils.ts) are not part of this model. A call's outcome is a parameter (`Outcome<T>`).
- `Math.random()` and `Date.now()` are parameters.
- Timers (`setTimeout`, `setInterval`, `wait`) become explicit methods. Their delays are data only, and interleavings beyond the method calls are not modelled.
- Browser APIs are left out: `MediaRecorder`, `getUserMedia`, `URL.createObjectURL`/`revokeObjectURL`, `alert`, `scrollTo`/`scrollIntoView`, `console`. A URL is a parameter; a microphone grant is a boolean.
- Styling, animation, theme and persona colours, and JSX layout are left out, apart from the colour classes that carry severity.
- `formatCurrency`, `Intl` formatting and the file-size text (`toFixed(1)`) are left out.
- `useCountUp` (hooks/useCountUp.ts) is not part of this model.
- Floating point: amounts and progress are exact `real`s, so the ±2 % range, the 0.99 confidence and `Math.random() * 20` have no rounding.
- `Lower` is ASCII-only: JavaScript's full Unicode case mapping is not modelled.
- The canned response tables of the first-generation screens (investigationResponses, invoiceAnalysisResponses, settlementResponses) are not part of this model. Their picks are inputs.
- The older components/Step1_FNOL.tsx and components/Step2_Triage.tsx, ComparisonPanel, FloatingChat, NotificationPanel, AIAutomationBanner, Toast's own timer and the UI primitives are not part of this model. QuickActions contributes only its labels.
- FileUpload.GoodPreview: states only that every progress lies within 0..100, not that a completed entry reads 100. An interval started for an earlier single-mode selection still writes its progress into the new list at its old index.
- Investigation.Dashboard.AskAi: tests the blank query with `IsBlank` instead of `trim`; `Basics.TrimEmptyIffBlank` proves the two agree.
- Settlement.ClaimNumber: the random draw is a parameter, so only the shape of the number (one to four digits) is stated.
- Investigation.Dashboard.InitData: the asynchronous gap between setting `loading` and receiving the answer is collapsed into one call. The intake and triage props are fixed at mount, so a prop change that re-runs initData is not modelled.
- FnolIntake.FnolForm.HandleGenerate: the awaited AI call is collapsed into one call, so the window in which `isGenerating` is true is not observable.
- "Start New Claim" (components/Step4_Settlement.tsx:113) only calls the wizard's restart, modelled by Wizard.App.HandleRestart; Settlement.Screen.CurrentView states that the button's approved view is shown only after approval.
