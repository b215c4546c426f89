# MemoryLoom core, modelled in Dafny

MemoryLoom is a browser app for group tribute videos. An organizer creates a project for a recipient and invites contributors. Contributors record short clips. An AI "director" then turns the submissions into a storyboard, which the organizer pins, reorders and renders.

This project models the app's logic below the views. Each module is listed with the source it models:

- **ProjectStore** (`hooks/useProject.ts`). The in-memory project list is a class with a `seq<Project>` field. Four methods replace it: create, change status, nudge a contributor and add a contributor. Each method is specified by a function on the old list, and lemmas prove what changes and what does not.
- **BlobUrls, MediaStore** (`lib/mediaStore.ts`). The IndexedDB object store is a `map<string, Blob>` field. `URL.createObjectURL` is a registry class that hands out fresh handles.
- **DemoSeeder** (`lib/demoSeeder.ts`). The seed-if-missing loop over the seven demo videos and the demo audio track. The loop is proved against a recursive specification of the store, of the requests made and of the URLs minted.
- **Director** (`components/VideoPreview.tsx`). Covers:
  - the analysis input;
  - the mapping from suggested themes to storyboard segments;
  - pin toggling;
  - the bounds-checked neighbour swap;
  - the "Produce Final Film" rule;
  - the Pro-Tip text;
  - the four-tick render, as a class.
- **Capture** (`components/ContributorPortal.tsx`). The contributor's six-screen state machine, the recorder's chunk buffer, the stop guard and the coaching-tip rule.
- **Creation** (`components/ProjectCreation.tsx`). The organizer's four-step wizard and its form.
- **Gemini** (`services/geminiService.ts`). The four prompts and their fallbacks. The model call is an oracle `string -> Option<T>` applied to the prompt; `None` means the call or the JSON parse threw.
- **Storage** (`lib/storage.ts`). The simulated upload-progress loop and the secure-URL format.
- **Toasts** (`hooks/useToast.ts`). The toast queue.
- **Utils** (`lib/utils.ts`). The class-name joiner `cn`.
- **Shared modules.** `Domain` holds the entities of `types.ts`. `Wrappers`, `Seqs` and `Strings` are generic helpers.

Timers, generated ids, clock readings, random numbers, the camera and the model's replies are all explicit parameters. A timer tick is a loop iteration.

## Model

| member | source | states |
|---|---|---|
| ProjectStore.Store.CreateProject | hooks/useProject.ts:9-24 | returns the new project and puts it in front of the existing ones, which keep their order |
| ProjectStore.NewProjectDefaults | hooks/useProject.ts:10-21 | a new project is collecting and a draft, with the fixed organizer email. It has no community assets, storyboard or history. Milestone defaults to birthday, theme to cinematic, deadline and recipient to "", contributors to []. With no title or an empty one, the title is "Celebration for " and the recipient, rendered "undefined" when missing |
| ProjectStore.Store.UpdateProjectStatus | hooks/useProject.ts:26-28 | the new list is the old one with the status of the projects carrying that id replaced |
| ProjectStore.WithStatusOnlyStatus | hooks/useProject.ts:27 | a status update keeps the length and order of the list, and changes only the status of matching projects; every other project is unchanged |
| ProjectStore.WithStatusKeepsContributors | hooks/useProject.ts:27 | a status update leaves every project's contributors as they were |
| ProjectStore.Store.NudgeContributor | hooks/useProject.ts:30-40 | the new list is the old one with `lastRemindedAt` stamped at the given time on the matching contributor of the matching project |
| ProjectStore.NudgedEffect | hooks/useProject.ts:31-39 | a nudge keeps the list's length and every other project. In the matching project, only the matching contributors get the timestamp; every other field, contributor and status is unchanged |
| ProjectStore.Store.AddContributor | hooks/useProject.ts:42-61 | returns the new invited contributor with no memories, whether or not a project matches, and appends it to the matching project |
| ProjectStore.WithContributorEffect | hooks/useProject.ts:52-58 | the contributor is appended at the end of the matching project's list; other projects and other fields are untouched; the list length is kept |
| ProjectStore.WithContributorUnknown | hooks/useProject.ts:52-58 | with a project id nobody has, the project list is unchanged |
| ProjectStore.WithContributorStatuses | hooks/useProject.ts:42-58 | adding a contributor leaves every existing contributor's status as it was, and the one added is invited |
| BlobUrls.Concat | components/ContributorPortal.tsx:76 | a blob built from parts holds as many bytes as the parts together |
| BlobUrls.UrlRegistry.CreateObjectUrl | lib/mediaStore.ts:46 | each URL is one never handed out before and resolves to its blob; earlier URLs stay valid |
| MediaStore.Store.SaveVideo | lib/mediaStore.ts:26-35 | `put` maps the key to the blob, overwriting what it held, and leaves every other key alone |
| MediaStore.Store.GetVideoUrl | lib/mediaStore.ts:37-53 | the result is null exactly when nothing is stored under the key. On a hit it is a fresh URL for the stored blob. The stored blobs never change |
| MediaStore.Store.Clear | lib/mediaStore.ts:55-59 | the store is empty afterwards |
| MediaStore.SaveThenResolveTwice | lib/mediaStore.ts:26-53 | after a save, two lookups of the key both hit, with two different URLs resolving to the saved blob |
| MediaStore.ClearThenResolve | lib/mediaStore.ts:37-59 | after `clear`, a lookup misses |
| DemoSeeder.SeedEach | lib/demoSeeder.ts:93-100 | the loop leaves the store as the seed-if-missing specification says. It makes exactly the specified lookups and saves, and mints one URL per hit. URLs already minted are kept |
| DemoSeeder.SeedMockData | lib/demoSeeder.ts:82-109 | the whole seeder is the same specification over the seven videos followed by the audio track |
| DemoSeeder.SeedAllFills | lib/demoSeeder.ts:93-108 | every key of the work list holds a blob afterwards |
| DemoSeeder.SeedAllKeeps | lib/demoSeeder.ts:94-99 | a key that already holds a blob is never overwritten |
| DemoSeeder.SeedAllOutside | lib/demoSeeder.ts:93-108 | a key outside the work list is neither added nor removed nor changed |
| DemoSeeder.SeedLogSavesMissing | lib/demoSeeder.ts:95-98 | every save is for a key of the work list that was missing at the start |
| DemoSeeder.LookupsOfStep | lib/demoSeeder.ts:94-98 | one iteration adds exactly its own lookup to the lookups made |
| DemoSeeder.SeedLogLookups | lib/demoSeeder.ts:93-94 | the lookups happen once per key, in work-list order |
| DemoSeeder.SeedAllWhenPresent | lib/demoSeeder.ts:94-99 | when every key is present, the store is unchanged, no save is made, and every lookup hits and mints a URL |
| DemoSeeder.SeedIdempotent | lib/demoSeeder.ts:93-108 | seeding twice is seeding once, and the second run makes no save |
| DemoSeeder.DemoKeysInOrder | lib/demoSeeder.ts:83-103 | the keys seeded are the seven `/videos/nana_N.mp4` keys in order, then `/audio/demo_track.wav` |
| DemoSeeder.SeedMockDataFills | lib/demoSeeder.ts:82-109 | afterwards every demo key holds a blob, and whether any other key holds one is unchanged |
| Director.AnalysisInputSpec | components/VideoPreview.tsx:39-49 | one entry per submitted contributor, in contributor order, named after them with the fixed message. The input is exactly the "Family" placeholder if and only if no contributor has submitted |
| Director.StoryboardFromSpec | components/VideoPreview.tsx:56-65 | one segment per theme, in order. Segment i has id `theme-i`, order i and is pinned. It copies the theme's name, contributors, transition and climax flag. Its beat is "Narrative Segment" exactly when the theme's beat is missing, empty or that text. Ids are pairwise distinct |
| Director.ApplyAnalysisKeeps | components/VideoPreview.tsx:54-66 | a null result, or one without themes, leaves the storyboard unchanged. Otherwise the storyboard has one pinned segment per theme with order equal to its position |
| Director.CompleteReplyReplaces | services/geminiService.ts:46 | a reply holding every key the schema declares required has themes, so it replaces the storyboard with one segment per theme |
| Director.Preview.RunAnalysis | components/VideoPreview.tsx:38-72 | the analysis is the oracle's answer for the prompt built from the submissions. The storyboard changes only when the answer has themes. Loading ends |
| Director.ToggledEffect | components/VideoPreview.tsx:94-96 | toggling flips the pin only on entries with that id; every other entry, and every other field, is unchanged; the length is kept |
| Director.ToggledTwice | components/VideoPreview.tsx:94-96 | toggling the same id twice restores the storyboard |
| Director.Preview.ToggleTheme | components/VideoPreview.tsx:94-96 | the storyboard becomes the toggled one and nothing else in the view changes |
| Director.MovedSpec | components/VideoPreview.tsx:98-105 | a move past either end changes nothing. Otherwise it exchanges the entry with its neighbour, keeps every other position, and the result is a permutation of the same length |
| Director.MovedBack | components/VideoPreview.tsx:98-105 | moving an entry down and then back up restores the storyboard |
| Director.Preview.MoveItem | components/VideoPreview.tsx:98-105 | copying into an array and swapping two cells in place yields the moved storyboard; nothing else in the view changes |
| Director.ProduceDisabledIff | components/VideoPreview.tsx:171 | "Produce Final Film" is disabled if and only if no entry is pinned |
| Director.FindClimax | components/VideoPreview.tsx:290 | the index found is the first segment flagged as climax, and none is found exactly when no segment is flagged |
| Director.ProTipWithoutClimax | components/VideoPreview.tsx:289-290 | with segments but none flagged as climax, the tip speaks of "a key moment" |
| Director.ProTipNamesClimax | components/VideoPreview.tsx:289-291 | with a named first climax segment at index i, the Pro-Tip is exactly the opening, that segment's theme name and the closing, so it names it |
| Director.TickLog | components/VideoPreview.tsx:82-91 | the first n ticks show screens 1 to n in order |
| Director.Preview.RunTicks | components/VideoPreview.tsx:81-91 | the interval shows steps 1, 2 and 3 on successive ticks. On the fourth tick rendering stops and the masterpiece shows. The storyboard is untouched |
| Director.Preview.HandleFinalRender | components/VideoPreview.tsx:79-92 | callable only when the Produce button is enabled; as written: the render first shows whatever screen `renderStep` still holds, then 1, 2 and 3, and ends on the film |
| Director.RenderTwice | components/VideoPreview.tsx:79-92 | as written, on a view with a pinned segment whose render state is fresh: render, go back to the director's view, render again. The second render opens on screen 3, not screen 0 |
| Director.Preview.HandleFinalRenderFromStart | components/VideoPreview.tsx:79-92 | corrected: every render shows screens 0, 1, 2, 3 in order |
| Director.RenderTwiceFromStart | components/VideoPreview.tsx:79-92 | corrected, on any view with a pinned segment: both renders show screens 0, 1, 2, 3 |
| Director.Preview.BackToDirectorView | components/VideoPreview.tsx:149 | the masterpiece screen closes, and the storyboard and render state are kept |
| Capture.TransitionFacts | components/ContributorPortal.tsx:79-223 | with each handler taken as one atomic step: every move stays within steps 1 to 6, and step 5 is final. Recording (4) is entered only from the tips (3), review (6) only from recording, and the sent screen (5) only from review |
| Capture.DirectorTipRule | components/ContributorPortal.tsx:53-58 | the praise shows if and only if light and sound are good. The window tip shows if and only if light is bad. The noise tip shows if and only if light is good and sound is bad |
| Capture.BufferedKeepsNonEmpty | components/ContributorPortal.tsx:71-73 | after any series of data events, the buffer holds the earlier chunks followed by exactly the non-empty new ones, in arrival order |
| Capture.Portal.constructor | components/ContributorPortal.tsx:15-29 | the portal opens on step 1 with nothing recorded; the tip effect has run once on the zero scores |
| Capture.Portal.FetchPrompts | components/ContributorPortal.tsx:31-37 | the prompts are the reply for the recipient and milestone, or the fixed fallback |
| Capture.Portal.GetStarted | components/ContributorPortal.tsx:122 | step 1 goes to 2 |
| Capture.Portal.ChoosePrompt | components/ContributorPortal.tsx:134 | choosing prompt i on step 2 records i and goes to step 3 |
| Capture.Portal.BackToWelcome | components/ContributorPortal.tsx:142 | step 2 goes back to 1 |
| Capture.Portal.ChooseDifferentPrompt | components/ContributorPortal.tsx:164 | step 3 goes back to 2 |
| Capture.Portal.StartRecording | components/ContributorPortal.tsx:60-89 | without a camera nothing changes and the step stays 3. With one, the buffer is emptied, recording starts with every track live, and the step is 4 |
| Capture.Portal.OnDataAvailable | components/ContributorPortal.tsx:71-73 | a chunk is appended only when it is non-empty |
| Capture.Portal.StopRecording | components/ContributorPortal.tsx:91-96 | with a recorder that is recording, recording stops and the stop is pending; otherwise nothing changes |
| Capture.Portal.OnRecorderStop | components/ContributorPortal.tsx:75-81 | the buffered chunks become one `video/webm` blob under a fresh URL. The review screen (6) shows, every track is stopped, no stop is pending and nothing is recording; the other fields keep their values |
| Capture.Portal.RecordAgain | components/ContributorPortal.tsx:223 | the video URL is cleared and the step goes back to 3; the review screen is hidden |
| Capture.Portal.FinalSubmit | components/ContributorPortal.tsx:98-103 | uploading is set on and then off, and the sent screen (5) follows |
| Capture.Portal.SampleQuality | components/ContributorPortal.tsx:40-105 | a quality tick sets the scores and the tip. Everything is good if and only if the tip is the praise |
| Creation.SubmittedProject | components/ProjectCreation.tsx:16-21 | the wizard's form becomes a project with the default title for its recipient. It keeps the recipient, milestone and deadline, is collecting with no contributors, and its theme defaults to cinematic |
| Creation.Wizard.constructor | components/ProjectCreation.tsx:13-21 | the wizard starts on step 1 with an empty form, not loading and without invitations |
| Creation.Wizard.Next | components/ProjectCreation.tsx:25-35 | from step 1 or 2 the wizard advances one step. From step 3, loading turns on and then off, the invitations are set to the reply or fallback, and step 4 follows. Next is available only below step 4 and while enabled |
| Creation.Wizard.Back | components/ProjectCreation.tsx:37 | from step 2 or 3 the step decreases by one; the form is kept |
| Creation.Wizard.SetRecipientName | components/ProjectCreation.tsx:85 | only the recipient field changes |
| Creation.Wizard.SetMilestone | components/ProjectCreation.tsx:94 | only the milestone field changes |
| Creation.Wizard.SetDeadline | components/ProjectCreation.tsx:108 | only the deadline field changes |
| Creation.Wizard.SetTheme | components/ProjectCreation.tsx:125 | only the theme field changes |
| Creation.Wizard.Submit | components/ProjectCreation.tsx:199-202 | on step 4 the current form is handed over. Its recipient is non-empty, and the project it becomes gets that recipient's default title |
| Gemini.CompleteIff | services/geminiService.ts:46 | a reply holds the four required keys exactly when none of tone, music genre, themes and closing sentiment is missing |
| Gemini.ListingAppend | services/geminiService.ts:17 | the listing of two groups of submissions is the first listing, a newline, then the second |
| Gemini.ListingShort | services/geminiService.ts:17 | no submissions list as "", one lists as its `name: message` line |
| Gemini.AnalysisPromptMentions | services/geminiService.ts:10-18 | the analysis prompt names the project and the milestone, and holds every submission's line |
| Gemini.ContributorPromptsFallback | services/geminiService.ts:80-87 | a failed call yields exactly the four fixed prompts, in order (quiet way, trademark habit, showed up, followed advice), whatever the arguments |
| Gemini.ContributorPromptsReply | services/geminiService.ts:79 | a successful reply is returned unchanged |
| Gemini.NudgeFallbackConstant | services/geminiService.ts:115-120 | a failed nudge yields the same messages whatever the arguments. Both messages hold the literal texts `${recipientName}` and `${deadline}` |
| Gemini.NudgeFallbackIgnoresRecipient | services/geminiService.ts:115-120 | as written: when the call fails, the nudge for "Nana" and the one for "Grandpa Joe" are identical |
| Gemini.NudgeIntendedMentions | services/geminiService.ts:115-120 | corrected: a failed nudge names the recipient and the deadline in both messages, so recipients whose names differ in length get different messages |
| Gemini.InviteFallbackMentions | services/geminiService.ts:148-154 | a failed invitation names the recipient and the milestone in all three messages. The email starts with "Subject: Help us surprise <name>!" |
| Gemini.PromptsMention | services/geminiService.ts:59-126 | each prompt contains its arguments: the prompts request names the recipient and milestone; the nudge request also names the deadline and tone; the invitation request names recipient and milestone |
| Storage.Reports | lib/storage.ts:21-26 | the first n ticks make n reports |
| Storage.UploadMemory | lib/storage.ts:17-32 | with a listener, the reports are those of five ticks; without one, none are made. The path is `memories/` followed by the random suffix |
| Storage.ReportsOfUpload | lib/storage.ts:19-31 | a listener hears exactly 20, 40, 60, 80, 100, strictly increasing and never past 100. Statuses are uploading, uploading, optimizing, optimizing, securing; never complete |
| Storage.ReportsProgress | lib/storage.ts:21-26 | tick i reports 20·(i+1) with the status for that value |
| Storage.StatusThresholds | lib/storage.ts:25 | the status is uploading exactly below 60 and securing exactly from 90, and never complete |
| Storage.SecureUrlRoundTrip | lib/storage.ts:39-42 | the path can be read back from the secure URL, the URL starts with the picsum prefix, and different paths give different URLs |
| Toasts.ToastQueue.AddToast | hooks/useToast.ts:9-12 | exactly one toast is appended, with the given id and message and type success when none is given; earlier toasts are unchanged |
| Toasts.ToastQueue.RemoveToast | hooks/useToast.ts:14-16 | the list becomes the toasts with other ids, in order |
| Toasts.WithoutSpec | hooks/useToast.ts:15 | no toast with the id remains, every other toast is kept, and removing from a concatenation removes from each part |
| Toasts.WithoutAbsent | hooks/useToast.ts:15 | removing leaves the list unchanged exactly when no toast has that id, and removing twice is removing once |
| Toasts.AddThenRemove | hooks/useToast.ts:9-16 | a toast added under a fresh id and then removed leaves the list as it was |
| Utils.CnEmpty | lib/utils.ts:6-8 | the result is "" exactly when no argument is truthy |
| Utils.CnSingle | lib/utils.ts:6-8 | one non-empty string comes back unchanged and `true` as "true". `false`, `undefined`, `null` and "" give "" |
| Utils.CnAppend | lib/utils.ts:6-8 | arguments keep their order: groups that each keep something are joined by one space, and a group that keeps nothing adds nothing |
| Utils.JoinNonEmpty | lib/utils.ts:7 | joining non-empty parts gives "" only for no parts |
| Utils.RenderTruthy | lib/utils.ts:7 | a kept argument renders to a non-empty string |

## Left out

- Views, styling and routing are not part of this model: `App.tsx`, `OrganizerDashboard.tsx`, `LandingPage.tsx`, `Layout.tsx` and the `ui/` components. They only render state or delegate to the operations above; the toast component's four-second auto-dismiss is a timer of the view.
- The AI SDK (`lib/ai.ts`) and `lib/supabase.ts` are not part of this model. A reply is an oracle's `Option` value. The model assumes the parsed JSON has the declared field types. The code does not check field types, so a reply of the wrong shape is not modelled.
- IndexedDB internals are abstracted to a map that is always open: `init`, the upgrade handler, transactions, error callbacks and the unawaited transaction of `clear`. Requests complete in the order they are made.
- Media and device APIs are not modelled: `getUserMedia`, `MediaRecorder` (whose events are methods here) and the video elements. Blob synthesis in the demo seeder (canvas, `captureStream`, `AudioContext`) is an opaque function. The camera-refused `alert` is not modelled.
- Time and randomness are parameters: timer delays and the 15-second analysis failsafe (a tick is a loop iteration), and the `isMounted` flags. So are the random quality scores, `generateId`, the upload path suffix and `new Date().toISOString()`.
- `formatDate` is locale formatting; it is left out.
- Capture.Portal.FinalSubmit: the upload is called with an empty `File([], "message.webm")` and its resulting path is dropped, as in the source; the recording itself is never uploaded.
- Capture.Portal.StartRecording: the camera preview (`srcObject`) is not modelled.
- Capture.Portal.StartRecording: modelled as one atomic step. The handler awaits `getUserMedia` (components/ContributorPortal.tsx:62) before `setStep(4)` (line 85), so while the camera prompt is open the step-3 "Back" and step-2 buttons can still fire, and recording can then begin from step 2 or 1. Interleavings inside a handler are not modelled.
- Capture.TransitionFacts: covers the handlers taken as atomic steps only; the await in `startRecording` also allows 2 to 4 and 1 to 4, which this relation leaves out.
- Creation: the cancel button and the copy and share handlers of step 4 (clipboard, `window.open`, `mailto:`) are left out as browser effects.
- ProjectStore.Store.CreateProject: `createProject` builds its project without `communityAssets`, which `types.ts` declares required; the model's `communityAssets` is an `Option` and a new project has `None`.
- Director.Preview.RunAnalysis: the code does not check that a reply holds the required keys; a reply without themes is modelled (the storyboard is kept), but one whose `themes` entries lack `themeName`, `contributors` or `suggestedTransition` is not modelled; the fields are taken as present.
- Storage.UploadMemory: the `file` argument is never read by the source, so it is not a parameter.

## Findings

| source | as written | input that shows it | evidently intended | confidence | as-written member | corrected member |
|---|---|---|---|---|---|---|
| services/geminiService.ts:115-120 | the nudge fallback strings use plain quotes, so `${recipientName}` and `${deadline}` stay literal text | any nudge whose model call fails, e.g. for "Nana" and for "Grandpa Joe": both get the same message reading "${recipientName}" | template literals that fill in the recipient and the deadline | high, not executed | Gemini.NudgeFallbackIgnoresRecipient | Gemini.NudgeIntendedMentions |
| components/VideoPreview.tsx:79-92 | `handleFinalRender` never resets `renderStep`, which the last tick leaves at 3 | render, choose "Back to Director's View", render again: the second render's first screen is step 3 ("Weaving the final Loom...") | each render starts at step 0 | medium, not executed | Director.RenderTwice | Director.RenderTwiceFromStart |
