# FloatMic transcription core in Dafny

FloatMic is a macOS menu-bar app that records speech from a floating
microphone button and transcribes it. This project models the parts of its
Swift code that decide what happens to a recording:

- the provider registry (`APIManager`);
- the orchestrator (`TranscriptionManager`);
- the retrying transport (`NetworkHelper`);
- the three cloud clients (OpenAI Whisper, OpenRouter, Google Gemini);
- the local Whisper stub;
- the transcription history;
- the floating window's edge snapping and position persistence in `AppDelegate`.

About the model:

- It states and proves the properties the code promises.
- Closed-over platform services are parameters. The `Http.Platform` bundle covers UTF-8 conversion, base64, file reads and the URL session; JSON coding and date formatting are separate parameters.
- A transport call is a function from the request and the attempt number to what that call gives.

Modules, one per source component:

| module | models |
|---|---|
| `Wrappers` | `Option` and `Result` |
| `Http` | bytes, URLs, requests, responses, client errors, the platform bundle |
| `NetworkHelper` | `dataWithRetry` |
| `Multipart` | `createMultipartBody`, which the OpenAI and OpenRouter clients share |
| `CloudClient` | the key guard, Bearer credential, send and status check the three clients share |
| `OpenAIWhisper`, `OpenRouter`, `Gemini` | the three cloud clients |
| `WhisperLocal` | `WhisperLocalService` |
| `Registry` | `APIManager` |
| `History` | `TranscriptionHistoryManager` |
| `Orchestrator` | `TranscriptionManager` and `TranscriptionError` |
| `Placement` | window placement in `AppDelegate` |

How the code's form is kept:

- Objects whose methods update fields are classes (`APIManager`, `TranscriptionManager`, `TranscriptionHistoryManager`, `WhisperLocalService`, the `AppDelegate` placement). Their methods carry `modifies` clauses.
- Loops are methods with invariants: the retry loop, key loading, list assembly, the fallback and the export.
- Each loop is proved against a reference function. The other methods state the new state directly.
- The standards the clients follow:
  - Bearer credentials are section 2.1 of RFC 6750.
  - The success class is section 15.3 of RFC 9110 (2xx).
  - The form body is RFC 7578, with the delimiters of section 5.1.1 of RFC 2046.
  - The Gemini audio is base64 per section 4 of RFC 4648.

## Model

| member | source | states |
|---|---|---|
| `Registry.RawValue` | FloatMic/APIManager.swift:8-13 | the five raw values; `RawValueRoundTrip` and `RawValueInjective` state their properties |
| `Registry.RawValueInjective` | FloatMic/APIManager.swift:8-13 | no two cases share a raw value |
| `Registry.FromRawValue` | FloatMic/APIManager.swift:8-13 | a string parses only to the case whose raw value it is |
| `Registry.RawValueRoundTrip` | FloatMic/APIManager.swift:8-13 | every case parses back from its raw value |
| `Registry.FromRawValueExact` | FloatMic/APIManager.swift:8-13 | parsing fails exactly when no case has that raw value |
| `Registry.Priority` | FloatMic/APIManager.swift:15-23 | priorities lie in 1..5 |
| `Registry.PriorityInjective` | FloatMic/APIManager.swift:15-23 | no two services share a priority, and Local Whisper's is the largest |
| `Registry.ListedIn` | FloatMic/APIManager.swift:68-90 | a service is kept iff it is in the input and belongs in the list; the result is no longer than the input |
| `Registry.InsertByPriority` | FloatMic/APIManager.swift:89 | inserting into a priority-sorted list keeps it sorted and one longer, with the new element or the old head first |
| `Registry.InsertIsPermutation` | FloatMic/APIManager.swift:89 | insertion adds exactly the one element |
| `Registry.SortByPriority` | FloatMic/APIManager.swift:89 | the sort gives a priority-ordered permutation of its input |
| `Registry.SortKeepsAscending` | FloatMic/APIManager.swift:89 | sorting a strictly ascending list changes nothing |
| `Registry.ListedInKeepsAscending` | FloatMic/APIManager.swift:68-90 | filtering a strictly ascending list keeps it strictly ascending |
| `Registry.AvailableServicesProperties` | FloatMic/APIManager.swift:68-90 | the list is strictly ascending by priority, free of duplicates, 1 to 5 long and ends with Local Whisper; Apple Intelligence is in it iff the probe says so, and a cloud service iff it has a key |
| `Registry.KeyValuesIrrelevant` | FloatMic/APIManager.swift:79 | only which services have a key matters, not the keys' values (an empty key counts) |
| `Registry.ListedInAppend` | FloatMic/APIManager.swift:68-90 | the filter works element by element over a concatenation |
| `Registry.CloudWithKeyInAppend` | FloatMic/APIManager.swift:77-83 | the loop's selection works element by element over a concatenation |
| `Registry.ListedInCloud` | FloatMic/APIManager.swift:77-83 | on cloud services alone, the filter keeps exactly those with a key |
| `Registry.AssembledListIsAvailable` | FloatMic/APIManager.swift:69-86 | the list the loop assembles is the reference list |
| `Registry.SortingAssembledList` | FloatMic/APIManager.swift:69-89 | sorting the assembled list gives the reference list |
| `Registry.AllCasesComplete` | FloatMic/APIManager.swift:8-13 | every service is among `allCases` |
| `Registry.APIManager.constructor` | FloatMic/APIManager.swift:41-44 | a service has a key iff the keychain holds one under its raw value, and that is the key; the selection is the stored raw value when it parses, otherwise Apple Intelligence |
| `Registry.APIManager.GetAPIKey` | FloatMic/APIManager.swift:51-53 | the key is present iff one is stored, and is the stored one |
| `Registry.APIManager.SetAPIKey` | FloatMic/APIManager.swift:46-49 | afterwards the service's key is the new key; other keys and the selection are unchanged |
| `Registry.APIManager.SetSelectedService` | FloatMic/APIManager.swift:55-58 | sets the selection and leaves the keys unchanged |
| `Registry.APIManager.GetAvailableServices` | FloatMic/APIManager.swift:68-90 | returns the reference list for the probe and the current keys; the selection plays no part |
| `Orchestrator.ErrorDescription` | FloatMic/TranscriptionManager.swift:141-148 | the fixed sentence when no service is available; otherwise exactly the service's name followed by " is not available" |
| `Orchestrator.ErrorDescriptionInjective` | FloatMic/TranscriptionManager.swift:141-148 | different errors get different descriptions |
| `Orchestrator.NoServicesTextIsNotASuffixForm` | FloatMic/TranscriptionManager.swift:144-146 | no "<service> is not available" text equals the no-services text |
| `Orchestrator.FirstSuccessMeaning` | FloatMic/TranscriptionManager.swift:43-57 | the fallback fails iff every service fails, and then with `noServicesAvailable`; otherwise the result is that of the first service that succeeds |
| `Orchestrator.PerformTranscriptionWithFallback` | FloatMic/TranscriptionManager.swift:43-57 | returns the reference result; the services tried are a prefix of the list in order, all but the last failed, and a success comes from the last one tried; a failure means every service was tried |
| `Orchestrator.TranscribeWithService` | FloatMic/TranscriptionManager.swift:59-93 | the dispatch as written: the four stubs throw and Local Whisper answers |
| `Orchestrator.StubsAlwaysThrow` | FloatMic/TranscriptionManager.swift:74-93 | every branch but Local Whisper throws `serviceNotAvailable`, naming the service by its raw value |
| `Orchestrator.TranscribeWithWhisperLocal` | FloatMic/TranscriptionManager.swift:95-108 | a fresh local service, initialised, yields the file placeholder, so neither guard fires |
| `Orchestrator.EveryRunEndsOnPlaceholder` | FloatMic/TranscriptionManager.swift:43-108 | for any probe, keys and recording, the fallback as written returns Local Whisper's placeholder |
| `Orchestrator.TranscriptionManager.constructor` | FloatMic/TranscriptionManager.swift:4-16 | a new manager is idle, with empty text and toast, holding the managers it was given |
| `Orchestrator.TranscriptionManager.TranscribeAudio` | FloatMic/TranscriptionManager.swift:18-23 | while busy, nothing changes; otherwise it becomes busy with the recording pending, before any service is tried |
| `Orchestrator.TranscriptionManager.ShowToast` | FloatMic/TranscriptionManager.swift:126-129 | sets the message and shows the toast, nothing else |
| `Orchestrator.TranscriptionManager.AddToHistory` | FloatMic/TranscriptionManager.swift:116-124 | prepends one item with the text, the id, the date and duration 0 |
| `Orchestrator.TranscriptionManager.CompleteTranscription` | FloatMic/TranscriptionManager.swift:23-40 | on success: the text becomes `lastTranscription`, exactly one item is prepended and the toast says "Transcription copied to clipboard"; on failure: the history and text are unchanged and the toast says "Transcription failed: " and the description; either way the manager is idle again |
| `Orchestrator.TranscriptionManager.CompleteAsWritten` | FloatMic/TranscriptionManager.swift:18-108 | with the code as written, each run records the placeholder and reports success |
| `NetworkHelper.Pow2` | FloatMic/Services/NetworkHelper.swift:20 | powers of two are at least 1 |
| `NetworkHelper.BackoffIsExponential` | FloatMic/Services/NetworkHelper.swift:6-20 | the k-th sleep (from 0) is the initial delay times 2^k, and so never shorter than the first |
| `NetworkHelper.DataWithRetry` | FloatMic/Services/NetworkHelper.swift:4-24 | returns the reference result; makes at most retries + 1 calls and none for negative retries (then `URLError(.unknown)`); every call before the last failed; a success is the last call's reply, unchanged; a failure follows retries + 1 calls and is the last call's error; it sleeps once fewer than it calls, with doubling delays |
| `NetworkHelper.TwoFailuresThenSuccess` | FloatMic/Services/NetworkHelper.swift:4-20 | with the defaults, two failures then a reply give exactly 3 calls, sleeps of 500 and 1000 ms, and the reply |
| `NetworkHelper.DeliveredIsReturned` | FloatMic/Services/NetworkHelper.swift:14 | the first reply within the budget is returned as it is, whatever its status |
| `NetworkHelper.RetryFromSkipsFailures` | FloatMic/Services/NetworkHelper.swift:15-21 | failed attempts only pass on to the next attempt |
| `NetworkHelper.AllFailuresThrowLastError` | FloatMic/Services/NetworkHelper.swift:16-23 | when all attempts fail, the last error is thrown |
| `Multipart.CreateMultipartBody` | FloatMic/Services/OpenAIWhisperService.swift:47-74 | a read error propagates; otherwise the body is the reference layout around the file bytes |
| `Multipart.FileDataRoundTrip` | FloatMic/Services/OpenAIWhisperService.swift:64-69 | the file bytes can be cut back out of the body, whatever they contain |
| `Multipart.BodyFraming` | FloatMic/Services/OpenAIWhisperService.swift:57-72 | the body starts with the delimiter and ends with the close delimiter |
| `Multipart.BodyInjective` | FloatMic/Services/OpenAIWhisperService.swift:57-72 | bodies for the same boundary, model and filename are equal iff the files are |
| `CloudClient.CheckResponse` | FloatMic/Services/OpenAIWhisperService.swift:37-41 | passes the body on iff the reply is HTTP with a 2xx status; a non-HTTP reply is `invalidResponse`; any other status is `server` with the body text or "Unknown error" |
| `CloudClient.Send` | FloatMic/Services/OpenAIWhisperService.swift:36-41 | a reply the retries hand back is classified by the status check, so success means a 2xx HTTP reply with exactly this body; a transport error comes out iff the retries ran out |
| `CloudClient.ReplyAfterFailures` | FloatMic/Services/NetworkHelper.swift:4-24 | a reply after fewer failures than the budget is the one returned, and the status check alone decides the outcome, with no retry after a non-2xx |
| `CloudClient.RetriedSuccess` | FloatMic/Services/OpenAIWhisperService.swift:36-41 | one transport failure then a 200 reply gives the body |
| `OpenAIWhisper.Transcribe` | FloatMic/Services/OpenAIWhisperService.swift:22-45 | `missingApiKey` iff the key is nil or empty; a result is the decoded `text` of the reply to the exact multipart request |
| `OpenAIWhisper.RequestHeaders` | FloatMic/Services/OpenAIWhisperService.swift:29-31 | exactly two headers: the Bearer credential and the multipart content type naming "Boundary-" and the UUID |
| `OpenAIWhisper.ErrorDescription` | FloatMic/Services/OpenAIWhisperService.swift:13-19 | a description exists exactly for the client's own three errors, and a server error shows the server's text unchanged |
| `OpenAIWhisper.ReplyHandling` | FloatMic/Services/OpenAIWhisperService.swift:36-44 | for whatever reply the retries hand back: non-HTTP gives `invalidResponse`; non-2xx gives `server` with the body text; 2xx gives the decoded `text` or the decoder's error |
| `OpenRouter.Transcribe` | FloatMic/Services/OpenRouterTranscriptionService.swift:28-54 | `missingApiKey` iff the key is nil or empty; a result is the `text` decoded with the OpenAI reply type |
| `OpenRouter.RequestHeaders` | FloatMic/Services/OpenRouterTranscriptionService.swift:36-40 | four headers: the Bearer credential, the multipart content type, "FloatMic/1.0" as referer, and the repository URL as title |
| `OpenRouter.SameLayoutAsOpenAI` | FloatMic/Services/OpenRouterTranscriptionService.swift:56-83 | the body equals the OpenAI one iff the encoded model lines are equal: only the model differs |
| `OpenRouter.ErrorDescription` | FloatMic/Services/OpenRouterTranscriptionService.swift:19-25 | a description exists exactly for the client's own three errors, and a server error shows the server's text unchanged |
| `OpenRouter.ReplyHandling` | FloatMic/Services/OpenRouterTranscriptionService.swift:45-53 | for whatever reply the retries hand back, it is handled as by the OpenAI client |
| `Gemini.PartTexts` | FloatMic/Services/GeminiTranscriptionService.swift:62 | only texts of present parts are kept, never more than there are parts |
| `Gemini.PartTextsAppend` | FloatMic/Services/GeminiTranscriptionService.swift:62 | extraction distributes over concatenation, so order is kept |
| `Gemini.PartTextsSingle` | FloatMic/Services/GeminiTranscriptionService.swift:62 | a part without text contributes nothing, a part with text exactly its text |
| `Gemini.JoinAppend` | FloatMic/Services/GeminiTranscriptionService.swift:62 | joining puts a single space between texts |
| `Gemini.ExtractText` | FloatMic/Services/GeminiTranscriptionService.swift:62-65 | a text comes out iff there is a first candidate whose joined texts are non-empty, so it is never empty |
| `Gemini.FirstCandidateOnly` | FloatMic/Services/GeminiTranscriptionService.swift:62 | later candidates are ignored |
| `Gemini.NoCandidatesIsInvalid` | FloatMic/Services/GeminiTranscriptionService.swift:62-65 | nil or empty candidates give no text |
| `Gemini.Transcribe` | FloatMic/Services/GeminiTranscriptionService.swift:26-66 | `missingApiKey` iff the key is nil or empty; a result is non-empty and is the text extracted from the decoded reply to the JSON request |
| `Gemini.ErrorDescription` | FloatMic/Services/GeminiTranscriptionService.swift:16-22 | a description exists exactly for the client's own three errors, and a server error shows the server's text unchanged |
| `Gemini.KeyOnlyInQuery` | FloatMic/Services/GeminiTranscriptionService.swift:29-32 | the key is in the `?key=` query only, and different keys give different URLs; the one header is the JSON content type |
| `Gemini.PayloadShape` | FloatMic/Services/GeminiTranscriptionService.swift:38-50 | one `contents` entry with two parts: the prompt, then `audio/m4a` inline data holding the base64 audio |
| `Gemini.ReplyHandling` | FloatMic/Services/GeminiTranscriptionService.swift:54-65 | for whatever reply the retries hand back: non-HTTP and text-less replies give `invalidResponse`; non-2xx gives `server` with the body text; otherwise the extracted text |
| `WhisperLocal.WhisperLocalService.constructor` | FloatMic/Services/WhisperLocalService.swift:5-10 | the model name is kept, and a new service is not initialised |
| `WhisperLocal.WhisperLocalService.IsInitialized` | FloatMic/Services/WhisperLocalService.swift:51-53 | reports the flag that the constructor clears and `Initialize` sets (stated by their contracts) |
| `WhisperLocal.WhisperLocalService.Initialize` | FloatMic/Services/WhisperLocalService.swift:12-18 | always returns true and sets the flag; a second call changes nothing |
| `WhisperLocal.WhisperLocalService.TranscribeAudioFile` | FloatMic/Services/WhisperLocalService.swift:20-34 | nil before initialisation, then the file placeholder for any URL |
| `WhisperLocal.WhisperLocalService.TranscribeAudioData` | FloatMic/Services/WhisperLocalService.swift:36-49 | nil before initialisation, then the data placeholder |
| `WhisperLocal.WhisperLocalService.GetAvailableModels` | FloatMic/Services/WhisperLocalService.swift:55-57 | five models, the first being the default "tiny.en" |
| `WhisperLocal.PlaceholdersDiffer` | FloatMic/Services/WhisperLocalService.swift:33-48 | the two placeholders are different texts |
| `History.RemoveById` | FloatMic/TranscriptionHistoryManager.swift:20 | an item is kept iff it was there and has another id |
| `History.RemoveByIdAppend` | FloatMic/TranscriptionHistoryManager.swift:20 | removal works item by item, so the kept items keep their order |
| `History.RemoveAbsentId` | FloatMic/TranscriptionHistoryManager.swift:20 | with no item carrying the id, the list is unchanged |
| `History.AddThenDeleteRestores` | FloatMic/TranscriptionHistoryManager.swift:14-21 | adding an item with a fresh id and then deleting it restores the list |
| `History.ExportEntriesAppend` | FloatMic/TranscriptionHistoryManager.swift:37-40 | numbering runs on across a split of the list |
| `History.ExportEntryNumbering` | FloatMic/TranscriptionHistoryManager.swift:37-40 | the k-th item (from 0) is exported as entry k + 1 with its date and text |
| `History.TranscriptionHistoryManager.constructor` | FloatMic/TranscriptionHistoryManager.swift:10-12 | starts from the persisted list |
| `History.TranscriptionHistoryManager.AddTranscription` | FloatMic/TranscriptionHistoryManager.swift:14-17 | the item is first, the rest follow in order, and the list is one longer |
| `History.TranscriptionHistoryManager.DeleteTranscription` | FloatMic/TranscriptionHistoryManager.swift:19-22 | every item with the item's id goes; the others stay in order |
| `History.TranscriptionHistoryManager.ClearAllTranscriptions` | FloatMic/TranscriptionHistoryManager.swift:24-27 | the list is empty |
| `History.TranscriptionHistoryManager.ExportTranscriptions` | FloatMic/TranscriptionHistoryManager.swift:29-43 | the title and "Generated on" lines, then each item in order as "n. date", its text and a blank line, numbered from 1; only the header when the list is empty |
| `Placement.PositionValid` | FloatMic/AppDelegate.swift:311-320 | valid iff there is a screen and the window rectangle lies inside its visible frame |
| `Placement.SnapInactiveIsIdentity` | FloatMic/AppDelegate.swift:333-335 | with snapping off, or no screen or settings, the position is unchanged |
| `Placement.SnapLandsOnEdges` | FloatMic/AppDelegate.swift:340-360 | each coordinate lands on an edge within the threshold or is unchanged, independently of the other coordinate |
| `Placement.SnapPrecedence` | FloatMic/AppDelegate.swift:343-358 | near both side edges the left one wins; near both the top and the bottom, the top wins |
| `Placement.SnapKeepsValid` | FloatMic/AppDelegate.swift:311-361 | snapping never moves an on-screen window off screen |
| `Placement.SnapBringsOnScreen` | FloatMic/AppDelegate.swift:311-361 | with a non-negative threshold and a window that fits, the snapped position is always on screen |
| `Placement.SnapIdempotent` | FloatMic/AppDelegate.swift:340-360 | on a screen larger than the window plus the threshold, a snapped position snaps to itself |
| `Placement.SnapSettlesAfterTwo` | FloatMic/AppDelegate.swift:340-360 | on any screen, a third snap never moves the window |
| `Placement.Load` | FloatMic/AppDelegate.swift:272-295 | nil without settings and in `alwaysCenter`; in `constrainToVisible`, the global point unless it is (0, 0) or off screen; in `rememberPerDisplay`, the current display's point if stored and on screen; any result is valid |
| `Placement.Save` | FloatMic/AppDelegate.swift:297-309 | `rememberPerDisplay` writes only the current display's entry; the other modes write only the global x and y; without settings nothing is written |
| `Placement.SaveThenLoad` | FloatMic/AppDelegate.swift:272-309 | a saved point is restored while on screen, except in `alwaysCenter` and except a (0, 0) in `constrainToVisible` |
| `Placement.SnappedWindowIsRestored` | FloatMic/AppDelegate.swift:272-361 | a dropped and snapped window is restored at its snapped position on a screen it fits |
| `Placement.WindowPlacement.constructor` | FloatMic/AppDelegate.swift:4-15 | no window yet; the screen, settings and stores are those given |
| `Placement.WindowPlacement.IsPositionValid` | FloatMic/AppDelegate.swift:311-320 | inside the visible frame, with the window's size or 100 by 100 |
| `Placement.WindowPlacement.LoadWindowPosition` | FloatMic/AppDelegate.swift:272-295 | a result is valid; nil in `alwaysCenter`, and for a stored (0, 0) in `constrainToVisible` |
| `Placement.WindowPlacement.SaveWindowPosition` | FloatMic/AppDelegate.swift:297-309 | the stores become `Save` of the old stores; the window, screen and settings are unchanged |
| `Placement.WindowPlacement.SnapToEdges` | FloatMic/AppDelegate.swift:332-361 | returns the reference snapped position |
| `Placement.WindowPlacement.WindowDidMove` | FloatMic/AppDelegate.swift:322-330 | without a window nothing changes; otherwise the window moves to the snapped origin with its size kept, and the snapped origin, not the dropped one, is saved |
| `Placement.WindowPlacement.PlaceFloatingWindow` | FloatMic/AppDelegate.swift:65-90 | the window is placed at the restored position if any, else at the middle of the visible frame's size, else at (0, 0) |

## Left out

- SwiftUI views, the menu bar, hotkeys and the other windows: these are layout, not logic. The views' rule that an empty key is not saved is not modelled either.
- Audio recording (`AudioRecorder`): AVFoundation and timers.
- `AppleIntelligenceService` and the real whisper.cpp bridge (`WhisperLocalService+Real`): framework callbacks and C interop. The `#available` probe is the `appleAvailable` parameter.
- Keychain writes and reads: the constructor of `APIManager` takes the keychain lookup as a function, and `saveAPIKeys` is not modelled.
- UserDefaults persistence of the selection, the history and the settings: the stores are fields or constructor inputs, and encoding and decoding failures are not modelled.
- The clipboard copy, the three-second hiding of the toast, and console printing: side effects with no modelled state.
- `NetworkHelper.DataWithRetry`: sleeps are a trace of millisecond values, not time, and the 30 s and 60 s session timeouts are not modelled. The code converts each delay with `UInt64(delay * 1_000_000_000)`, which traps for a negative delay and once the nanosecond count reaches 2^64 (with the default 0.5 s, the 37th sleep, so from 37 retries on). The model's delay is a `nat`, so negative delays are excluded, and it has no such bound: it promises `retries + 1` calls for every budget. The callers in the code use the defaults, which reach neither case.
- Concurrency: the `Task` of `transcribeAudio` and its main-actor hops are two sequential steps, `TranscribeAudio` and `CompleteTranscription`. No interleaving is modelled.
- `Orchestrator.TranscriptionManager.CompleteTranscription`: the per-service outcome is a parameter. As the code stands, the cloud clients are not called from the orchestrator; `TranscribeWithService` is the dispatch as written.
- `Multipart.CreateMultipartBody`: UTF-8 conversion is a total function. The nested `append` drops a string that fails to convert, which Swift strings never do.
- `Gemini.Transcribe`: `JSONSerialization.data` is a total function, so its error path is not modelled. JSON coding and decoding are parameters.
- `Gemini.Transcribe`: the URL is the interpolated string `Gemini.Url`. The code force-unwraps `URL(string:)` before reading the file, and a key it rejects crashes the app there; that crash is not modelled, so the model goes on to read the file and send. Any percent-encoding `URL` applies is not modelled either, so `Gemini.KeyOnlyInQuery` speaks of the string, on which different keys give different URLs, and not of the parsed URL.
- Floating point: window coordinates are exact reals, and rectangles are taken to have non-negative sizes. The retry delay is in whole milliseconds.
- The current display and the per-display store are read as fields (`currentDisplayID`, `displayPositions`). They are used by `AppDelegate.swift`, but `SettingsManager.swift` does not declare them; `multiDisplayMode` is missing from it too. The model follows `AppDelegate.swift`.
- `OpenRouterResponse`: it is declared but never decoded, so it is not modelled.
- The button size setting: `PlaceFloatingWindow` takes the window side as a parameter.
- `Placement.WindowPlacement.WindowDidMove`: one handler run is modelled. Moving the window re-posts the move notification (FloatMic/AppDelegate.swift:96 and :326), so the handler runs again on the snapped origin. That re-entry is not modelled, and neither is whether its save comes before or after the first run's save. Where `Placement.SnapIdempotent` applies, the snapped origin snaps to itself, so the second run changes nothing; on smaller screens `Placement.SnapSettlesAfterTwo` bounds the extra moves.
- `Registry.Description`: the texts are given, but no property is stated about them.
- The code has no selected-service pinning, no offline-only switch, no non-empty key check and no placeholder detection, and neither does the model:
  - the selected service does not pin or reorder the list;
  - there is no offline-only switch;
  - any stored key counts, even an empty one;
  - the placeholder text counts as a successful transcription.
- "The file bytes appear exactly once" is stated as the decomposition of the body around the file bytes, with a round trip that cuts them back out (`Multipart.FileDataRoundTrip`, `Multipart.BodyInjective`). A substring count is not used, because the bytes could also occur inside the framing (an empty file, for instance).
