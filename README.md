# Evidence-review client: a Dafny model of its deterministic core

The client is a React front end for digital-evidence cases. Investigators:

- create a case and upload evidence files;
- browse past cases;
- chat with a retrieval assistant about a case's footage, opening cited frames, images and videos in a viewer.

Rendering, the network, media playback and timers are external. This project models the logic underneath them:

- **Chat workspace page** (`ChatWorkspace`):
  - the optimistic send and its completion;
  - citation expansion;
  - pending attachments;
  - the single-slot source viewer;
  - file-name classification.

  It is a pure step function per handler, plus a `Workspace` class whose methods update the page's fields. The two asynchronous handlers are split at their `await` into a begin step and a complete step.
- **Evidence list** (`EvidenceList`): the filter by tab, and the group-by-date loop. The loop is a method, proved against recursive specification functions; the partition it produces is proved as lemmas.
- **Video player** (`VideoPlayer`):
  - the clip window;
  - time formatting;
  - the play/pause/seek/end state machine, as step functions and a `Player` class.
- **Image viewer** (`ImageViewer`): zoom in integer quarters, rotation modulo 360, and reset, as functions and a `Viewer` class.
- **Services:**
  - `CasesService`: mapping a backend reply, or the error thrown instead, to the response envelope.
  - `ChatWorkspaceService`: the demo lookups and the case-metadata fallback.
- **New-case form** (`NewCase`):
  - the MIME classifier;
  - the per-file simulated upload, tick by tick;
  - overall progress;
  - the create guard.

  Pure step functions, a validity invariant proved preserved, and a `NewCaseForm` class.
- **Past-cases page** (`PastCases`): the title search, the click rule, the status badges and the processing banner.
- **Google Drive URLs** (`GoogleDrive`): file-id extraction by three regular expressions, and the embed and view URL builders, with round-trip lemmas.
- **REST paths** (`ApiEndpoints`): the path builders.

Shared helpers:

- `Wrappers`: `Option`.
- `Seqs`: filter and the subsequence relation.
- `Strings`: ASCII lower-casing, JavaScript `trim`, `includes`, `startsWith` and decimal rendering.

Model choices:

- Backend replies, clock readings, random ids and random increments are parameters.
- JavaScript truthiness of optional strings is written out (`CasesService.Truthy`).
- Time in the video player is `real`.
- The image scale is an integer number of quarters.

## Model

| member | source | states |
|---|---|---|
| ApiEndpoints.CasesGetById | src/constants/api.constants.ts:16 | the path is `/search/cases/` followed by exactly the id |
| ApiEndpoints.CasesUpdate | src/constants/api.constants.ts:22 | the path is `/search/cases/` followed by exactly the id |
| ApiEndpoints.CasesDelete | src/constants/api.constants.ts:25 | the path is `/search/cases/` followed by exactly the id |
| ApiEndpoints.CaseItemPathsAgree | src/constants/api.constants.ts:14-25 | read, update and delete address one path, the collection path plus `/id` |
| ApiEndpoints.CaseCollectionPathsAgree | src/constants/api.constants.ts:14-19 | listing and creating share the collection path |
| ApiEndpoints.CaseItemPathInjective | src/constants/api.constants.ts:16 | distinct case ids give distinct paths |
| ApiEndpoints.ChatGetMessages | src/constants/api.constants.ts:31 | `/chat/case/`, the case id, then a final `/` |
| ApiEndpoints.ChatSendMessage | src/constants/api.constants.ts:34 | `/chat/case/`, the case id, then `/message/` |
| ApiEndpoints.SendExtendsHistory | src/constants/api.constants.ts:31-34 | the send path is the history path followed by `message/` |
| ApiEndpoints.EvidenceGetAll | src/constants/api.constants.ts:40-41 | the query string `?media_type=` plus the type is added exactly when a non-empty type is given |
| ApiEndpoints.EvidenceDelete | src/constants/api.constants.ts:47 | `/evidence/videos/`, the id, then `/` |
| ApiEndpoints.EvidenceDeleteInjective | src/constants/api.constants.ts:47 | distinct evidence ids give distinct delete paths |
| CasesService.MapStatus | src/services/cases.service.ts:113-114 | the result is "completed" exactly for "active" or "completed"; other statuses pass through |
| CasesService.MediaCount | src/services/cases.service.ts:111 | `evidence_count`, or 0 when it is missing |
| CasesService.ToCase | src/services/cases.service.ts:107-116 | the mapped case copies title, description and creation date, maps the status and count, and has upload progress 100 |
| CasesService.GetCases | src/services/cases.service.ts:51-74 | success exactly when the request replied; the reply's backend records unmapped, or an empty list with the fixed message |
| CasesService.MapCases | src/services/cases.service.ts:107-116 | each record mapped by the lookup's mapping with its own id, in order |
| CasesService.GetCasesMapped | src/services/cases.service.ts:51-74 | the corrected listing: the same success and message as `getCases`, every record mapped, and no listed case "active" |
| CasesService.FetchErrorMessage | src/services/cases.service.ts:128-140 | a 404 reply gives "Case not found"; otherwise the reply's non-empty `message`, else the generic text |
| CasesService.GetCaseById | src/services/cases.service.ts:83-142 | success exactly when the request replied, and exactly when a case is returned; the case is the mapped reply with its own id; a failure carries the classified message |
| CasesService.CreatedId | src/services/cases.service.ts:182 | `id` when non-empty, else `String(_id)` (which is "undefined" when absent) |
| CasesService.CreateErrorMessage | src/services/cases.service.ts:201-208 | the reply's non-empty `error` field, else the generic create text |
| CasesService.CreateCase | src/services/cases.service.ts:158-210 | success exactly when the request replied; the created case always has an id; a failure carries the classified message |
| CasesService.MapStatusIdempotent | src/services/cases.service.ts:113-114 | mapping a status twice equals mapping it once |
| CasesService.MappedCaseNeverActive | src/services/cases.service.ts:113-114 | no mapped case has status "active" |
| CasesService.MappingsAgree | src/services/cases.service.ts:181-190 | the two mappings of one document differ at most in the id |
| CasesService.NotFoundWins | src/services/cases.service.ts:129-131 | a 404 reports "Case not found" whatever the reply's message and error say |
| CasesService.OpaqueErrorsAreGeneric | src/services/cases.service.ts:133-140 | an error without a reply gets the generic text in all three services |
| CasesService.ErrorFieldsDiffer | src/services/cases.service.ts:201-208 | a reply with only `message` informs the lookup's error but not the create's |
| CasesService.CreatedIdFallback | src/services/cases.service.ts:182 | without a usable `id` the created case is named `String(_id)`, "undefined" when `_id` is missing |
| ChatWorkspaceService.GetMessages | src/services/chatWorkspace.service.ts:62-68 | each of the two seeded case ids gets its own conversation; every other id gets the default; always success |
| ChatWorkspaceService.SendMessage | src/services/chatWorkspace.service.ts:98-108 | the reply is a user message with exactly the payload's content, the clock's decimal id and the clock time; always success |
| ChatWorkspaceService.GetEvidenceFiles | src/services/chatWorkspace.service.ts:118-130 | the mock list, unchanged, with success |
| ChatWorkspaceService.DeleteEvidenceFile | src/services/chatWorkspace.service.ts:139-154 | always success with no message |
| ChatWorkspaceService.AnalyzedLabel | src/services/chatWorkspace.service.ts:172 | the label is the decimal media count followed by " analyzed" |
| ChatWorkspaceService.GetCaseMeta | src/services/chatWorkspace.service.ts:163-181 | a found case gives its title and count label; a failed lookup gives the table's entry, else the default; always success |
| ChatWorkspaceService.SeededCasesAgree | src/constants/chatWorkspace.constants.ts:283-292 | exactly the case ids with their own conversation have their own metadata entry |
| ChatWorkspaceService.SeededFallback | src/services/chatWorkspace.service.ts:178-180 | a failed lookup of a seeded case gives that case's entry ("1 video file"), never the default |
| ChatWorkspaceService.AnalyzedLabelInjective | src/services/chatWorkspace.service.ts:172 | equal labels come from equal media counts |
| ChatWorkspaceService.FoundCaseWins | src/services/chatWorkspace.service.ts:166-176 | a found case overrides the demo table even for a seeded id; a missing count shows "0 analyzed" |
| ChatWorkspaceService.SendMessageClockOnly | src/services/chatWorkspace.service.ts:98-106 | two sends of one content differ only in id and timestamp, and different clock readings give different ids |
| ChatWorkspaceService.EvidenceIgnoresCase | src/services/chatWorkspace.service.ts:128-129 | the evidence list does not depend on the case id |
| EvidenceList.FilteredEvidence | src/app/components/EvidenceList.tsx:49-56 | keeps exactly the files of the tab's type, each as often as in the input, in input order |
| EvidenceList.InitialTabShowsVideos | src/app/components/EvidenceList.tsx:32-34 | on first render exactly the video files are listed |
| EvidenceList.FilesOn | src/app/components/EvidenceList.tsx:43 | every file of a date's group has that date |
| EvidenceList.DistinctDates | src/app/components/EvidenceList.tsx:40-42 | the group keys are distinct and are exactly the dates occurring in the input |
| EvidenceList.DatesAppend | src/app/components/EvidenceList.tsx:40-42 | a file adds its date as a new last key only when the date is new |
| EvidenceList.FilesOnAppend | src/app/components/EvidenceList.tsx:43 | a file is pushed onto its own date's group and onto no other |
| EvidenceList.GroupStep | src/app/components/EvidenceList.tsx:39-44 | one loop iteration keeps the grouping correct for the files seen so far |
| EvidenceList.GroupByDate | src/app/components/EvidenceList.tsx:37-46 | the keys in insertion order are the distinct dates, and each group is the files of its date in input order |
| EvidenceList.GroupingPartitions | src/app/components/EvidenceList.tsx:37-46 | the groups together hold every file exactly as often as the input; their sizes sum to the input's length |
| EvidenceList.FileInItsGroup | src/app/components/EvidenceList.tsx:39-44 | a file is in the group of its own date and in no other |
| EvidenceList.GroupsNonEmpty | src/app/components/EvidenceList.tsx:40-43 | no group is empty |
| EvidenceList.GroupKeepsOrder | src/app/components/EvidenceList.tsx:43 | within a group the files keep their input order |
| EvidenceList.Displayed | src/app/components/EvidenceList.tsx:118 | the shown groups are keyed by the filtered files' dates, are non-empty, and hold only files of the tab's type and the key's date |
| GoogleDrive.FileId | src/utils/googleDrive.ts:10 | the leftmost `drive.google.com/file/d/` match's maximal run without `/` or `?`; none exactly when the pattern never matches |
| GoogleDrive.OpenId | src/utils/googleDrive.ts:11 | the leftmost `open?id=` match's maximal run without `&`; none exactly when the pattern never matches |
| GoogleDrive.UcId | src/utils/googleDrive.ts:12 | a found group is non-empty; none exactly when the pattern never matches |
| GoogleDrive.UcIdLeftmostLast | src/utils/googleDrive.ts:12 | at the leftmost `uc?` match, the group follows the last `id=` on that line and is its maximal run without `&` |
| GoogleDrive.ExtractFileId | src/utils/googleDrive.ts:8-23 | the first pattern that matches, in order, decides the id; none exactly when no pattern matches |
| GoogleDrive.ConvertGoogleDriveVideoUrl | src/utils/googleDrive.ts:29-43 | with an id, the flag is set and the preview URL is built; otherwise the flag is clear and the URL is returned as given |
| GoogleDrive.ConvertGoogleDriveImageUrl | src/utils/googleDrive.ts:49-57 | with an id, the direct-view URL; otherwise the URL itself |
| GoogleDrive.ExtractedIdImpliesDriveUrl | src/utils/googleDrive.ts:62-64 | a URL an id is extracted from passes the host test |
| GoogleDrive.NonDriveUrlUnchanged | src/utils/googleDrive.ts:42 | a URL without the host passes both converters unchanged |
| GoogleDrive.EmbedUrlRoundTrip | src/utils/googleDrive.ts:38 | extracting from a built preview URL gives back its id |
| GoogleDrive.ViewUrlRoundTrip | src/utils/googleDrive.ts:53 | extracting from a built view URL gives back its Drive id |
| GoogleDrive.VideoConversionIdempotent | src/utils/googleDrive.ts:29-43 | converting a video URL twice equals converting it once |
| GoogleDrive.ImageConversionIdempotent | src/utils/googleDrive.ts:49-57 | converting an image URL twice equals converting it once |
| ImageViewer.ZoomIn | src/app/components/ImageViewer.tsx:14-16 | the scale grows by 0.25, capped at 3; the rotation is kept |
| ImageViewer.ZoomOut | src/app/components/ImageViewer.tsx:18-20 | the scale shrinks by 0.25, floored at 0.5; the rotation is kept |
| ImageViewer.Rotate | src/app/components/ImageViewer.tsx:27-29 | the rotation advances by 90 modulo 360 and stays in [0, 360); the scale is kept |
| ImageViewer.Reset | src/app/components/ImageViewer.tsx:22-25 | scale 1 and rotation 0 |
| ImageViewer.ZoomPercent | src/app/components/ImageViewer.tsx:68 | the label is exactly the scale times 100, a multiple of 25 in [50, 300] |
| ImageViewer.Run | src/app/components/ImageViewer.tsx:14-29 | any sequence of button presses keeps the scale in bounds and the rotation a multiple of 90 |
| ImageViewer.InitialReachable | src/app/components/ImageViewer.tsx:11-12 | the initial view is reachable with scale 1 |
| ImageViewer.ZoomInDisabledIffNoop | src/app/components/ImageViewer.tsx:73 | the zoom-in button is disabled exactly when pressing it would change nothing |
| ImageViewer.ZoomOutDisabledIffNoop | src/app/components/ImageViewer.tsx:57 | the zoom-out button is disabled exactly when pressing it would change nothing |
| ImageViewer.ZoomInThenOut | src/app/components/ImageViewer.tsx:14-20 | zooming in then out restores the view when zoom-in is enabled |
| ImageViewer.ZoomOutThenIn | src/app/components/ImageViewer.tsx:14-20 | zooming out then in restores the view when zoom-out is enabled |
| ImageViewer.FullRotation | src/app/components/ImageViewer.tsx:27-29 | four rotations restore the view |
| ImageViewer.RunRotation | src/app/components/ImageViewer.tsx:27-29 | without reset, the rotation is the start plus 90 per rotate press, modulo 360 |
| ImageViewer.ResetLast | src/app/components/ImageViewer.tsx:22-25 | whatever came before, a final reset gives the initial view |
| ImageViewer.Viewer.constructor | src/app/components/ImageViewer.tsx:11-12 | the component starts at scale 1 and rotation 0 |
| ImageViewer.Viewer.HandleZoomIn | src/app/components/ImageViewer.tsx:14-16 | the fields become `ZoomIn` of the old view |
| ImageViewer.Viewer.HandleZoomOut | src/app/components/ImageViewer.tsx:18-20 | the fields become `ZoomOut` of the old view |
| ImageViewer.Viewer.HandleRotate | src/app/components/ImageViewer.tsx:27-29 | the fields become `Rotate` of the old view |
| ImageViewer.Viewer.HandleReset | src/app/components/ImageViewer.tsx:22-25 | the fields become `Reset` of the old view |
| VideoPlayer.ClipStart | src/app/components/VideoPlayer.tsx:72 | `startTime`, else 0 |
| VideoPlayer.ClipEnd | src/app/components/VideoPlayer.tsx:73 | `endTime`, else the media duration |
| VideoPlayer.ClipDuration | src/app/components/VideoPlayer.tsx:74 | never negative; 0 exactly when the window is empty or inverted; otherwise start plus length is the end |
| VideoPlayer.ClipProgress | src/app/components/VideoPlayer.tsx:77-80 | within [0, 100], 0 for an empty window, and the exact percentage inside the window |
| VideoPlayer.SliderMax | src/app/components/VideoPlayer.tsx:225 | always above the clip start, and the clip end when that lies after the start |
| VideoPlayer.SliderValueAsWritten | src/app/components/VideoPlayer.tsx:227 | at most the clip end, and at least the start only when the window is not inverted |
| VideoPlayer.SliderValue | src/app/components/VideoPlayer.tsx:224-227 | always within the slider's own range, and the current time itself inside the clip |
| VideoPlayer.SliderValueAgrees | src/app/components/VideoPlayer.tsx:227 | both clamps agree when the window is not inverted |
| VideoPlayer.SliderValueBelowMinimum | src/app/components/VideoPlayer.tsx:224-227 | with start 65 and no metadata yet, the value as written lies below the slider's minimum |
| VideoPlayer.FormatTime | src/app/components/VideoPlayer.tsx:82-87 | minutes, a colon, and the seconds of the whole seconds padded to two digits; negatives count as 0 |
| VideoPlayer.FloorSplit | src/app/components/VideoPlayer.tsx:84-85 | the floors of `s / 60` and `s % 60` are the minutes and seconds of the floor of `s` |
| VideoPlayer.FormatTimeShape | src/app/components/VideoPlayer.tsx:82-87 | exactly two digits follow the colon, and they read back as the seconds within the minute |
| VideoPlayer.FormatTimeNegative | src/app/components/VideoPlayer.tsx:83 | a negative time shows as `0:00` |
| VideoPlayer.Mounted | src/app/components/VideoPlayer.tsx:168-172 | after mount: paused, at the clip start, duration 0, the element not ended |
| VideoPlayer.LoadedMetadata | src/app/components/VideoPlayer.tsx:90-97 | records the duration; seeks element and state to `startTime` exactly when it is given, which clears the ended state |
| VideoPlayer.TimeUpdate | src/app/components/VideoPlayer.tsx:100-111 | at or past a given end: pause and go back to the clip start; otherwise follow the element's time; the element is no longer ended |
| VideoPlayer.TogglePlay | src/app/components/VideoPlayer.tsx:113-132 | flips playing; pausing never seeks; playing from outside the clip first seeks to its start; otherwise an ended element restarts at 0 while the shown time stays |
| VideoPlayer.ElementPlay | src/app/components/VideoPlayer.tsx:129 | the element plays, from 0 when it had ended playback, from where it was otherwise |
| VideoPlayer.TogglePlayIntended | src/app/components/VideoPlayer.tsx:118-128 | the corrected restart test also seeks to the clip start after a natural end; it agrees with `TogglePlay` whenever the element has not ended, and play then always starts inside a well-formed clip |
| VideoPlayer.Seek | src/app/components/VideoPlayer.tsx:141-146 | element and state move to the slider's first value, the element is no longer ended, nothing else changes |
| VideoPlayer.Ended | src/app/components/VideoPlayer.tsx:198 | the playing flag clears and the element, which pauses before firing `ended`, is paused and has ended playback; times and duration are kept |
| VideoPlayer.PropsChanged | src/app/components/VideoPlayer.tsx:168-172 | a new source or start resets to paused, the new clip start and duration 0; a new source also leaves the reloaded element paused at 0; a new start alone leaves the element alone; otherwise nothing changes |
| VideoPlayer.NewSourcePlaysFromClipStart | src/app/components/VideoPlayer.tsx:113-132 | after a source change, play starts the new media at a non-negative clip start of a well-formed clip |
| VideoPlayer.PlayStartsInsideClip | src/app/components/VideoPlayer.tsx:120-128 | pressing play leaves the element inside a well-formed clip, unless it had ended playback and the clip starts after 0 |
| VideoPlayer.EndedOnlyPausedKept | src/app/components/VideoPlayer.tsx:113-198 | mounting and every handler keep "an ended element is paused" |
| VideoPlayer.ReplayAfterNaturalEnd | src/app/components/VideoPlayer.tsx:118-129 | start 120, no end, played to 300: a replay restarts the element at 0 and the next time report shows 0, before the clip |
| VideoPlayer.IntendedReplayAfterNaturalEnd | src/app/components/VideoPlayer.tsx:51 | with the corrected test the same replay starts at 120 |
| VideoPlayer.TimeUpdateStaysBeforeEnd | src/app/components/VideoPlayer.tsx:105-110 | after any time update the element is before a given end |
| VideoPlayer.PauseResume | src/app/components/VideoPlayer.tsx:113-132 | in a reachable state, pause then play inside the clip resumes where it paused |
| VideoPlayer.DocumentedClip | src/app/components/VideoPlayer.tsx:14-20 | a 65–95 s clip seeks to 65 on load and stops at 65 when 95 is reached |
| VideoPlayer.Player.constructor | src/app/components/VideoPlayer.tsx:66-69 | the mounted state for the props |
| VideoPlayer.Player.HandleLoadedMetadata | src/app/components/VideoPlayer.tsx:90-97 | the state becomes `LoadedMetadata` of the old state |
| VideoPlayer.Player.HandleTimeUpdate | src/app/components/VideoPlayer.tsx:100-111 | the state becomes `TimeUpdate` of the old state |
| VideoPlayer.Player.HandleTogglePlay | src/app/components/VideoPlayer.tsx:113-132 | the state becomes `TogglePlay` of the old state |
| VideoPlayer.Player.HandleSeek | src/app/components/VideoPlayer.tsx:141-146 | the state becomes `Seek` of the old state |
| VideoPlayer.Player.HandleEnded | src/app/components/VideoPlayer.tsx:198 | the state becomes `Ended` of the old state: flag and element both paused |
| VideoPlayer.Player.Rerender | src/app/components/VideoPlayer.tsx:168-172 | the reset effect runs exactly when the source or start changed, and the element reloads exactly when the source changed |
| ChatWorkspace.LastSegment | src/app/pages/ChatWorkspace.tsx:236 | a suffix of the name without a dot, preceded by a dot unless it is the whole name |
| Strings.Trim | src/app/pages/ChatWorkspace.tsx:118-120 | the trimmed text is a slice of the input with only whitespace cut on either side, and it neither starts nor ends with whitespace |
| Strings.TrimEmptyIff | src/app/pages/ChatWorkspace.tsx:118 | a text trims to nothing exactly when it is all whitespace |
| ChatWorkspace.LastSegmentOfName | src/app/pages/ChatWorkspace.tsx:236 | the text after the last dot is the extension, whatever precedes it |
| ChatWorkspace.NoDotName | src/app/pages/ChatWorkspace.tsx:236 | a name without a dot is its own extension |
| ChatWorkspace.ExtensionLists | src/app/pages/ChatWorkspace.tsx:237-242 | image exactly for the image list, audio exactly for the audio list, video for everything else |
| ChatWorkspace.FileTypeOfName | src/app/pages/ChatWorkspace.tsx:233-243 | a name is classified by the lower-case form of its last extension |
| ChatWorkspace.FileTypeOfMov | src/app/pages/ChatWorkspace.tsx:236-238 | "clip.final.MOV" is a video |
| ChatWorkspace.FileTypeOfPdf | src/app/pages/ChatWorkspace.tsx:242 | an unknown extension falls back to video |
| ChatWorkspace.Initial | src/app/pages/ChatWorkspace.tsx:39-59 | the initial page state is consistent: nothing in flight |
| ChatWorkspace.TempId | src/app/pages/ChatWorkspace.tsx:126 | the optimistic id has the form `temp-...` |
| ChatWorkspace.BeginSend | src/app/pages/ChatWorkspace.tsx:117-137 | preserves consistency: in flight exactly when an optimistic message waits as the last message |
| ChatWorkspace.Renamed | src/app/pages/ChatWorkspace.tsx:176-180 | same length; exactly the messages with the old id get the new id |
| ChatWorkspace.CompleteSend | src/app/pages/ChatWorkspace.tsx:147-184 | preserves consistency whatever the reply |
| ChatWorkspace.Toggle | src/app/pages/ChatWorkspace.tsx:107-115 | membership of the id flips; every other membership is kept |
| ChatWorkspace.ToggleSources | src/app/pages/ChatWorkspace.tsx:107-115 | only the expanded set changes, by the toggle |
| ChatWorkspace.BeginUpload | src/app/pages/ChatWorkspace.tsx:187-192 | ignored without files or case; otherwise the dropdown closes and the spinner shows, nothing else changes |
| ChatWorkspace.ToMediaItems | src/app/pages/ChatWorkspace.tsx:203-212 | one attachment per uploaded file, in order |
| ChatWorkspace.CompleteUpload | src/app/pages/ChatWorkspace.tsx:201-226 | preserves consistency |
| ChatWorkspace.RemovePendingMedia | src/app/pages/ChatWorkspace.tsx:625-627 | preserves consistency |
| ChatWorkspace.SourceClick | src/app/pages/ChatWorkspace.tsx:245-264 | preserves consistency |
| ChatWorkspace.EvidenceFileClick | src/app/pages/ChatWorkspace.tsx:266-281 | preserves consistency |
| ChatWorkspace.MediaClick | src/app/pages/ChatWorkspace.tsx:378-392 | preserves consistency |
| ChatWorkspace.ResultClick | src/app/pages/ChatWorkspace.tsx:422-432 | preserves consistency |
| ChatWorkspace.CloseSourceModal | src/app/pages/ChatWorkspace.tsx:729-732 | preserves consistency |
| ChatWorkspace.SendGuard | src/app/pages/ChatWorkspace.tsx:118 | a send changes nothing exactly when the trimmed input is empty, there is no case id, or a send is in flight |
| ChatWorkspace.SendAppendsOne | src/app/pages/ChatWorkspace.tsx:120-137 | one user message with the trimmed input and the attachments (none if none) is appended; input and attachments are cleared; the send is in flight; nothing else changes |
| ChatWorkspace.DropTemp | src/app/pages/ChatWorkspace.tsx:167 | filtering the temporary id drops the last message and filters the rest |
| ChatWorkspace.SuccessShape | src/app/pages/ChatWorkspace.tsx:166-173 | after success the list is the earlier messages without the temporary id, then the confirmed and assistant messages |
| ChatWorkspace.SuccessReplacesTemp | src/app/pages/ChatWorkspace.tsx:166-173 | the temporary message is gone; the list ends with the confirmed user message (its content and attachments kept) and the assistant's summary; the send is over |
| ChatWorkspace.SuccessKeepsEarlier | src/app/pages/ChatWorkspace.tsx:167 | earlier messages keep their order, and all stay when none shared the temporary id |
| ChatWorkspace.SuccessStoresResults | src/app/pages/ChatWorkspace.tsx:147-154 | the results are stored under the assistant id; every other entry is unchanged |
| ChatWorkspace.FailureRenamesTemp | src/app/pages/ChatWorkspace.tsx:176-184 | only the temporary message's id changes, to the decimal clock reading; length and all other messages stay; the send is over |
| ChatWorkspace.LoadHistory | src/app/pages/ChatWorkspace.tsx:64-70 | a successful history reply replaces the message list wholesale; a failed one changes nothing; no other field changes |
| ChatWorkspace.HistoryLoadWhileIdle | src/app/pages/ChatWorkspace.tsx:64-70 | with no send in flight, any history load keeps the page consistent |
| ChatWorkspace.HistoryLoadDuringSend | src/app/pages/ChatWorkspace.tsx:64-70 | a successful load of messages without temporary ids during a send drops the optimistic message and breaks consistency; the send's completion restores it, and on a failed query the list is just the loaded one |
| ChatWorkspace.TempIdNotDecimal | src/app/pages/ChatWorkspace.tsx:126 | a decimal id never equals a temporary one |
| ChatWorkspace.ToggleTwice | src/app/pages/ChatWorkspace.tsx:107-115 | toggling one id twice restores the set |
| ChatWorkspace.UploadReplacesMedia | src/app/pages/ChatWorkspace.tsx:201-226 | a delivered upload replaces the attachments, one per file in order; any other outcome keeps them; the spinner stops either way |
| ChatWorkspace.UploadedMediaAttached | src/app/pages/ChatWorkspace.tsx:131-137 | a delivered upload's files ride on the next accepted send |
| ChatWorkspace.RemoveAtSpec | src/app/pages/ChatWorkspace.tsx:625-627 | removing index i drops exactly that element, keeps the rest in order, and ignores an index out of range |
| ChatWorkspace.ViewerSingleSlot | src/app/pages/ChatWorkspace.tsx:258-263 | the latest click wins; closing empties the slot whatever was shown |
| ChatWorkspace.SourceClickUrl | src/app/pages/ChatWorkspace.tsx:251-262 | a citation gets the sample video URL exactly when its name classifies as a video, else the sample image URL |
| ChatWorkspace.EvidenceFileShown | src/app/pages/ChatWorkspace.tsx:266-281 | a file without URL is ignored; one with a URL is shown with its own name, type, URL, date and time |
| ChatWorkspace.Workspace.constructor | src/app/pages/ChatWorkspace.tsx:39-59 | the initial state for the route's case id |
| ChatWorkspace.Workspace.SetInput | src/app/pages/ChatWorkspace.tsx:653 | only the input changes |
| ChatWorkspace.Workspace.HandleSend | src/app/pages/ChatWorkspace.tsx:117-137 | the state becomes `BeginSend` of the old state |
| ChatWorkspace.Workspace.ReceiveQueryReply | src/app/pages/ChatWorkspace.tsx:147-184 | the state becomes `CompleteSend` of the old state |
| ChatWorkspace.Workspace.ReceiveHistory | src/app/pages/ChatWorkspace.tsx:64-70 | the state becomes `LoadHistory` of the old state; validity is kept when no send is in flight |
| ChatWorkspace.Workspace.HandleToggleSources | src/app/pages/ChatWorkspace.tsx:107-115 | the state becomes `ToggleSources` of the old state |
| ChatWorkspace.Workspace.HandleFileUpload | src/app/pages/ChatWorkspace.tsx:187-192 | the state becomes `BeginUpload` of the old state |
| ChatWorkspace.Workspace.ReceiveUploadOutcome | src/app/pages/ChatWorkspace.tsx:201-226 | the state becomes `CompleteUpload` of the old state |
| ChatWorkspace.Workspace.HandleRemovePendingMedia | src/app/pages/ChatWorkspace.tsx:625-627 | the state becomes `RemovePendingMedia` of the old state |
| ChatWorkspace.Workspace.HandleSourceClick | src/app/pages/ChatWorkspace.tsx:245-264 | the state becomes `SourceClick` of the old state |
| ChatWorkspace.Workspace.HandleEvidenceFileClick | src/app/pages/ChatWorkspace.tsx:266-281 | the state becomes `EvidenceFileClick` of the old state |
| ChatWorkspace.Workspace.HandleMediaClick | src/app/pages/ChatWorkspace.tsx:378-392 | the state becomes `MediaClick` of the old state |
| ChatWorkspace.Workspace.HandleResultClick | src/app/pages/ChatWorkspace.tsx:422-432 | the state becomes `ResultClick` of the old state |
| ChatWorkspace.Workspace.HandleCloseSourceModal | src/app/pages/ChatWorkspace.tsx:729-732 | the state becomes `CloseSourceModal` of the old state |
| NewCase.GetFileType | src/app/pages/NewCase.tsx:82-87 | video, image or audio exactly when the MIME type starts with that prefix; document exactly when it starts with none |
| NewCase.NewFile | src/app/pages/NewCase.tsx:35-42 | a new entry keeps id, name and size, takes the MIME kind, and starts at 0% uploading |
| NewCase.NewFiles | src/app/pages/NewCase.tsx:34-44 | one new entry per selected file, in order |
| NewCase.NewTickers | src/app/pages/NewCase.tsx:48-53 | one ticker at 0 per selected file, in order |
| NewCase.MarkCompleted | src/app/pages/NewCase.tsx:59-63 | exactly the files with the id become completed at 100%; the rest are unchanged |
| NewCase.SetProgress | src/app/pages/NewCase.tsx:73-77 | exactly the files with the id take the new progress; the rest are unchanged |
| NewCase.CompletedCount | src/app/pages/NewCase.tsx:105 | at most the number of files, and equal to it exactly when every file is completed |
| NewCase.CreateCaseRequest | src/app/pages/NewCase.tsx:100-113 | no request exactly when the title is blank |
| NewCase.InitialValid | src/app/pages/NewCase.tsx:24-27 | the empty form is valid and shows 0% |
| NewCase.AddAppends | src/app/pages/NewCase.tsx:30-50 | selected files are appended in order at 0% and uploading; earlier files are untouched; the flag is set when any was selected; an empty selection changes nothing |
| NewCase.AddValid | src/app/pages/NewCase.tsx:30-50 | adding files with new ids keeps the form valid |
| NewCase.TickCompletes | src/app/pages/NewCase.tsx:56-71 | reaching 100 completes exactly the ticker's files at 100% and stops it; the flag stays set exactly while some file is not completed |
| NewCase.TickAdvances | src/app/pages/NewCase.tsx:72-78 | below 100 the ticker's files show the floor of its progress; statuses and the flag are unchanged |
| NewCase.TickValid | src/app/pages/NewCase.tsx:52-80 | ticks with increments in [0, 15] keep the form valid: progress in [0, 100], completed files at 100, no error status, the flag set while a file uploads |
| NewCase.FlagClearedOnlyWhenAllComplete | src/app/pages/NewCase.tsx:64-71 | a tick clears the flag only when every file is completed |
| NewCase.RemoveKeepsOthers | src/app/pages/NewCase.tsx:96-98 | removal drops exactly the files with that id, keeps the others in order, changes nothing else and keeps the form valid |
| NewCase.PercentQuotient | src/app/pages/NewCase.tsx:106 | the floor of completed over total times 100 is the integer quotient of 100 times completed by total |
| NewCase.QuotientBounds | src/app/pages/NewCase.tsx:106 | that quotient lies in [0, 100] and is 100 exactly when all are completed |
| NewCase.ProgressBounds | src/app/pages/NewCase.tsx:119-121 | with files, the overall progress is in [0, 100], is 100 exactly when all are completed, and is the same on the page and in the request |
| NewCase.EmptyProgress | src/app/pages/NewCase.tsx:121 | with no files the page shows 0% while a created case reports 100% |
| NewCase.CreateGuard | src/app/pages/NewCase.tsx:100-113 | a blank title sends nothing; otherwise the request has the untrimmed title, the description, the file count and the overall progress |
| NewCase.NewCaseForm.constructor | src/app/pages/NewCase.tsx:24-27 | the form starts empty |
| NewCase.NewCaseForm.SetTitle | src/app/pages/NewCase.tsx:148 | only the title changes |
| NewCase.NewCaseForm.SetDescription | src/app/pages/NewCase.tsx:160 | only the description changes |
| NewCase.NewCaseForm.HandleFileUpload | src/app/pages/NewCase.tsx:30-50 | the loop appends one entry and one ticker per selected file: the state becomes `AddFiles` of the old state |
| NewCase.NewCaseForm.HandleTick | src/app/pages/NewCase.tsx:54-79 | the state becomes `Tick` of the old state |
| NewCase.NewCaseForm.HandleRemoveFile | src/app/pages/NewCase.tsx:96-98 | the state becomes `RemoveFile` of the old state |
| NewCase.NewCaseForm.HandleCreateCase | src/app/pages/NewCase.tsx:100-113 | returns the request `CreateCaseRequest` describes, changing nothing |
| PastCases.ListedRow | src/services/cases.service.ts:65 | a listed backend record as the page reads it: its own id, title and unmapped status, and no upload progress |
| PastCases.CaseRow | src/app/pages/PastCases.tsx:12-16 | a page-shaped case as the page reads it, with its upload progress |
| PastCases.AfterLoad | src/app/pages/PastCases.tsx:21-40 | the table exactly on a successful response, with one row per element; a fixed text for a reported failure and another for a thrown one |
| PastCases.LoadFromService | src/app/pages/PastCases.tsx:25-31 | driven by the cases service, the page shows the backend records as rows or "Failed to load cases.", never the thrown-error text |
| PastCases.FilteredCases | src/app/pages/PastCases.tsx:42-44 | keeps exactly the cases whose lower-cased title contains the lower-cased query, each as often as before, in order |
| PastCases.EmptyQueryKeepsAll | src/app/pages/PastCases.tsx:42-44 | an empty query keeps every case |
| PastCases.SearchIgnoresQueryCase | src/app/pages/PastCases.tsx:42-44 | a query and its lower-case form select the same cases |
| PastCases.LongerQueryNarrows | src/app/pages/PastCases.tsx:42-44 | extending the query never adds a case |
| PastCases.ClickTarget | src/app/pages/PastCases.tsx:46-50 | a click opens `/case/<id>` exactly for a completed case and does nothing otherwise |
| PastCases.ActionText | src/app/pages/PastCases.tsx:248-261 | "Open" exactly for the rows a click opens, "Processing..." for every other |
| PastCases.StatusBadge | src/app/pages/PastCases.tsx:52-81 | processing with its progress, completed, and failed for every other status; each exactly on its condition |
| PastCases.BadgeText | src/app/pages/PastCases.tsx:60-79 | "Processing N%" (with nothing in place of N for a missing progress), "Completed" or "Failed" |
| PastCases.ClickableIffCompleted | src/app/pages/PastCases.tsx:46-81 | exactly the rows whose badge reads "Completed" open on a click |
| PastCases.ListedActiveCasesFail | src/app/pages/PastCases.tsx:25-81 | a listed record that the backend calls "active" shows "Failed" and "Processing...", and a click on it does nothing |
| PastCases.ListedProgressBlank | src/app/pages/PastCases.tsx:60-62 | a listed processing record's badge reads "Processing %", since JSX renders a missing progress as nothing |
| PastCases.MappedActiveCasesOpen | src/services/cases.service.ts:113-114 | on the mapped listing an "active" record shows "Completed" and "Open", and a click opens its page |
| PastCases.BannerIffProcessingBadge | src/app/pages/PastCases.tsx:270 | the banner shows exactly when some loaded case has a processing badge |
| PastCases.EmptyStateHint | src/app/pages/PastCases.tsx:189-191 | "adjust your search" exactly when a query was typed |
| PastCases.HintOnlyOnQuery | src/app/pages/PastCases.tsx:189-191 | the hint depends only on whether the query is empty |
| PastCases.EmptyWithoutQuery | src/app/pages/PastCases.tsx:177-191 | with no query the table is empty only when no case was loaded |

## Left out

- HTTP, authentication tokens, `localStorage`, `console` output and the base URL are not modelled. Request outcomes are parameters (`Outcome`, `RagResponse`, `UploadOutcome`). `deleteCase` and `uploadEvidenceToGDrive` are not modelled: they are a `localStorage` write and a multipart request.
- `uploadFiles` and `ragQuery` are called by the chat page but not defined in `src/services/chatWorkspace.service.ts`. The chat page's helpers, including `uploadFiles`, are not part of this model; only their results are inputs.
- `Date.now()`, `new Date()` and the local date and time strings are inputs. `ChatWorkspace.CompleteSend` uses one clock reading for both fallback ids and the failure id, where the source reads the clock up to twice.
- `NewCase`: `Math.random()` ids, increments and timers are inputs. `NewCase.AddValid` requires the random ids to be new; the source does not check this.
- `formatFileSize` (logarithms and floating rounding) is not modelled. The formatted size is an input.
- Floating point is not modelled. `NewCase.ProgressBounds` gives exact percentages, whereas JavaScript's `Math.floor((57/100)*100)` yields 56. Video times are exact reals.
- `Strings.Lower` lowers ASCII letters only. Unicode case mapping in titles and extensions is left out. `PastCases.LongerQueryNarrows` depends on this: under full Unicode lowering (the final-sigma rule, which looks at the next letter) a longer query's lowered form need not extend the shorter one's.
- Object lookups (`messageMap[caseId]`, `CASE_META[caseId]`, and `grouped[file.uploadDate]` in the date grouping) are modelled as maps with only their own keys. Inherited property names such as `constructor` would be found by the JavaScript lookup; for the grouping, an upload date of "constructor" finds `Object`'s constructor function, which is truthy, so no array is created and the `.push` throws.
- `Object.entries` ordering is assumed to be insertion order, as it is for dates, which are not array indices. `EvidenceList.GroupByDate` returns the keys explicitly.
- The demo message arrays and the mock evidence list are static data. They are named by `ChatWorkspaceService.DemoHistory` or passed as a parameter, not transcribed.
- `ChatWorkspace.EvidenceFileClick` takes the file's URL as a separate parameter, because `EvidenceFile` declares no `url` field.
- `ChatWorkspace.State`:
  - keeps only the message fields the handlers read: the `type` tag is `Message.role`, the redundant `role: "user" | "assistant"` field that duplicates it is merged into it, and tables and citation lists are left out;
  - leaves out the case metadata loaded on mount and the evidence-list visibility toggle;
  - leaves out `getCaseTitle` and `getEvidenceCount`, which are display fallbacks.
- `ChatWorkspace.Workspace.ReceiveHistory`: a history reply that lands while a send is in flight leaves the page outside `Valid()`. The class methods that require `Valid()` then stop modelling the page; the step functions still do (`ChatWorkspace.HistoryLoadDuringSend`). The class's `caseId` is fixed, so the reload on a case-id change appears only as a further `LoadHistory` step; an earlier case's reply arriving late is not distinguished.
- The chat input and send button are disabled while uploading, which is rendering. The model's send guard is the handler's own.
- `VideoPlayer.Seek` requires a non-empty value list. The slider always passes one value.
- Mute, fullscreen and the DOM element itself are not modelled, beyond its time, its playing flag and whether it has ended playback. Of the element's own behaviour three facts enter: it pauses before firing `ended`; `play()` on an element that has ended starts over from 0; and a new `src` reloads it paused at time 0. The ended state is cleared by any seek, time report or reload: the element's own rule (the time equals the media's duration) is not modelled, so a slider seek to the very end does not count as ended. Seeking and buffering delays are not modelled.
- `PastCases.Row` holds only the fields the modelled rules read (id, title, upload progress, status). The files count and the creation date, which a listed backend record also lacks, are display text and are left out.
- `CasesService.CreateCase` gives `None` for the `{}` record the source returns on failure.
- `NewCase.CreateCaseRequest` is the request payload. `createCase` sends only the title and description, and then the page navigates; navigation is not modelled.

## Findings

| source | as written | input that shows it | evidently intended | confidence | as-written member | corrected member |
|---|---|---|---|---|---|---|
| src/app/components/VideoPlayer.tsx:227 | the slider value is `min(max(currentTime, clipStart), clipEnd)`, which can fall below the slider's `min={clipStart}` | `startTime = 65`, no `endTime`, before the metadata loads (duration 0): the value is 0 < 65 | the value clamped into the slider's own range [clipStart, max] | not executed | VideoPlayer.SliderValueBelowMinimum | VideoPlayer.SliderValue |
| src/services/cases.service.ts:65 | the listing returns the backend records unmapped, while the page reads them as page-shaped cases and opens only "completed" ones | a listing reply with one record whose status is "active" | each record mapped as `getCaseById` maps it (107-116), so an open case reads "completed" and can be opened | likely; not executed | PastCases.ListedActiveCasesFail | CasesService.GetCasesMapped |
| src/app/components/VideoPlayer.tsx:121-129 | the replay test looks only at `endTime` and the clip start, so after the media ends naturally `play()` restarts it from 0 | `startTime = 120`, no `endTime`, media duration 300, played to the end, then play | a replay that seeks to `startTime`, as the prop's documentation at line 51 says | likely; not executed | VideoPlayer.ReplayAfterNaturalEnd | VideoPlayer.TogglePlayIntended |
