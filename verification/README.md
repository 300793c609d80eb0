# Folio stamper workflow machines in Dafny

This project models the workflow core of a browser tool that stamps folio
numbers onto PDF documents. The core is a set of small event-driven state
machines:

- **Configuration manager.** It has the single state `ready` and a fifteen-field folio configuration (position, appearance, numbering). Three events merge a partial section into the configuration key by key. A fourth event restores the defaults.
- **Orchestrator.** It has the states `idle`, `uploading`, `configuring` and `ready`. It owns the chosen file and an error slot, and holds references to two spawned children: the file manager and the configuration manager. It forwards namespaced events to those children, splits a configuration request into section updates, and takes eventless ("always") transitions guarded by the children's snapshots.
- **Preview manager.** It has the states `idle`, `generating` and `ready`. It clamps the page and the zoom.
- **Processor.** It has the states `idle`, `processing`, `completed` (final) and `error`. It supports cancellation.
- **Configuration panel handlers.** These build the `configManager.UPDATE_CONFIG` payloads from form edits.

Every machine is a pure step function over algebraic datatypes:
`(state, context, event) -> (state', context', messages sent)`.

Modules:

| module | file | what it holds |
|---|---|---|
| `Wrappers` | wrappers.dfy | `Option`, standing for `null`, `undefined` and absent keys |
| `Documents` | documents.dfy | `File` and byte buffers, never inspected |
| `ConfigManager` | config_manager.dfy | configuration, section patches, the three merges, reset, the machine, a key-by-key view (`Get`, `Key`, `Value`) in which the frame properties are stated |
| `FileManager` | file_manager.dfy | the file child as seen from outside: which state its snapshot matches, and the one event it receives |
| `Orchestrator` | orchestrator.dfy | the `on` table (`Transition`), request routing (`RouteConfig`), guards and the eventless pass (`Settle`) |
| `Workflow` | workflow.dfy | the orchestrator composed with both children, the reachable-state invariant and end-to-end lemmas |
| `ConfigurationPanel` | configuration_panel.dfy | the four handlers, the two `parseInt(...) \|\| default` inputs, and "form edit to configuration child" lemmas |
| `PreviewManager` | preview_manager.dfy | preview machine, page/zoom clamping, range invariant |
| `Processor` | processor.dfy | processing machine with an invocation counter, final state, cancellation |

How the runtime is modelled:

- **One event, three phases.** An event sent to the orchestrator goes through:
  1. the `on` transition and its actions;
  2. delivery of the messages those actions sent, in order, with each child handling its messages at once;
  3. the eventless pass, whose guards read the children's snapshots after delivery.

  The eventless pass also runs after an event the current state does not list, as the runtime does.
- **The file-manager child.**
  - Its reaction to `UPLOAD_FILE` is a function parameter (`FileManager.Reaction`).
  - A separate input (`Workflow.FileManagerMoved`) stands for the child changing state on its own.
  - Such a change does not wake the orchestrator. Its guards are re-read only when it next handles an event.
- **Invoked tasks.** The preview and processing tasks are external.
  - Their completion is an event tagged with an invocation number. The machines count the invocations they start.
  - Leaving the invoking state stops the running task. A result tagged with an invocation that is no longer the live one is therefore ignored.

## Model

| member | source | states |
|---|---|---|
| `ConfigManager.MergePosition` | src/app/modular/store/ConfigManager.tsx:57-130 | every position key the patch supplies takes the supplied value verbatim (no clamping); every other key, including all appearance and numbering keys, keeps its value |
| `ConfigManager.MergeAppearance` | src/app/modular/store/ConfigManager.tsx:131-159 | only the supplied keys among color, transparency and font size change, each to the supplied value |
| `ConfigManager.MergeNumbering` | src/app/modular/store/ConfigManager.tsx:160-197 | only the supplied keys among start number, direction, numbering type and zero padding change |
| `ConfigManager.Step` | src/app/modular/store/ConfigManager.tsx:238-254 | every event is handled in `ready`, the only state; each key takes the event's entry for it if there is one, else keeps its value; a reset yields the initial context |
| `ConfigManager.ResetTupleIsInitialContext` | src/app/modular/store/ConfigManager.tsx:198-237 | the tuple the reset assigns equals the context the machine is created with |
| `ConfigManager.StepIsOverride` | src/app/modular/store/ConfigManager.tsx:57-197 | as a map from keys to values, a merge is a map override of the configuration by the patch's entries |
| `ConfigManager.EmptyUpdateIsIdentity` | src/app/modular/store/ConfigManager.tsx:57-197 | an update whose patch supplies no key leaves the machine unchanged |
| `ConfigManager.StepIdempotent` | src/app/modular/store/ConfigManager.tsx:57-215 | handling the same event twice is the same as handling it once |
| `ConfigManager.ResetForgetsHistory` | src/app/modular/store/ConfigManager.tsx:198-215 | after any history, a reset yields exactly the initial machine |
| `ConfigManager.UntouchedKeyKeepsValue` | src/app/modular/store/ConfigManager.tsx:57-197 | a key that no event of a sequence writes keeps its value, so partial merges never reset other fields |
| `ConfigManager.LastWriterWins` | src/app/modular/store/ConfigManager.tsx:57-215 | after a sequence of events, a key holds the value written by the last event that wrote it |
| `Orchestrator.RouteConfig` | src/app/modular/store/Orchestrator.tsx:47-88 | a truthy `reset` sends only `RESET_CONFIG`, even if sections are present; at most three events are sent |
| `Orchestrator.RouteConfigOrdered` | src/app/modular/store/Orchestrator.tsx:55-86 | without `reset`, the routed events are section updates in position, appearance, numbering order, at most one per section |
| `Orchestrator.RouteConfigCarries` | src/app/modular/store/Orchestrator.tsx:55-86 | each routed update carries its section of the request unchanged |
| `Orchestrator.RouteConfigSends` | src/app/modular/store/Orchestrator.tsx:56-86 | without `reset`, a present section is sent if and only if it has at least one key |
| `Orchestrator.Transition` | src/app/modular/store/Orchestrator.tsx:108-155 | an event the state does not list changes nothing and sends nothing; an upload in `idle`/`uploading` records the file and sends it once to an existing file child; a configuration update enters `configuring`, keeps the context and sends exactly the routed events (`RouteConfig`), addressed to the configuration child when it exists; `RESET` in `ready` clears file and error; child references never change and no error is ever set |
| `Orchestrator.ForwardUpload` | src/app/modular/store/Orchestrator.tsx:39-46 | the upload is forwarded exactly once, as `UPLOAD_FILE` with the same file, when the file child exists, and nothing is sent when its reference is null |
| `Orchestrator.IsFileReady` | src/app/modular/store/Orchestrator.tsx:91-94 | the file guard holds only when the child's snapshot matches `ready`, and never with a null reference |
| `Orchestrator.IsConfigReady` | src/app/modular/store/Orchestrator.tsx:95-97 | the configuration guard never holds with a null reference |
| `Orchestrator.Eventless` | src/app/modular/store/Orchestrator.tsx:123-141 | an `always` transition fires exactly from `uploading` under the file guard and from `configuring` under the configuration guard, and each one advances the workflow by one stage |
| `Orchestrator.Settle` | src/app/modular/store/Orchestrator.tsx:123-141 | the eventless pass ends where no guard fires; `uploading` is left if and only if the file guard holds; `configuring` is left if and only if the configuration guard holds, so with a ready configuration child it is never the resting state; from `uploading` with only the file guard true the pass stops in `configuring` |
| `Workflow.Init` | src/app/modular/store/Orchestrator.tsx:99-107 | creation starts in `idle` with no file and no error, spawns both children (references present), the file child in `idle` and the configuration child at its initial machine, and satisfies the invariant |
| `Workflow.Step` | src/app/modular/store/Orchestrator.tsx:108-155 | one input handled by the whole system: child references never change; a move of the file child changes only that child; after an event the orchestrator rests where no guard fires on the children's snapshots after delivery; an unlisted event changes no context and no child |
| `Workflow.RoutedRequestApplies` | src/app/modular/store/Orchestrator.tsx:47-88 | running the configuration child on the routed events applies the whole request: a reset gives the defaults; otherwise each supplied key takes its value and every other key keeps it, so dropping empty sections loses nothing |
| `Workflow.StepPreservesInv` | src/app/modular/store/Orchestrator.tsx:108-155 | every input preserves the invariant: the references are the spawned ones, the error is null, the orchestrator never rests in `configuring`, and it holds a file exactly when it is past `idle` |
| `Workflow.ReachableInv` | src/app/modular/store/Orchestrator.tsx:31-38 | no action sets `error`, so the error is null in every reachable state |
| `Workflow.UploadForwardsFile` | src/app/modular/store/Orchestrator.tsx:109-129 | an upload in `idle` or `uploading` records the file and hands exactly that file to the file child. The system ends in `ready` if the child then matches `ready`, and in `uploading` otherwise |
| `Workflow.UpdateConfigApplies` | src/app/modular/store/Orchestrator.tsx:130-148 | a configuration update in `ready` applies the request to the configuration child and ends in `ready` again after the eventless pass |
| `Workflow.ResetClearsOnlyOrchestrator` | src/app/modular/store/Orchestrator.tsx:149-152 | `RESET` in `ready` goes to `idle` and clears file and error; neither child nor reference changes |
| `Workflow.UnlistedEventOnlySettles` | src/app/modular/store/Orchestrator.tsx:108-155 | an event the state does not list changes no context and no child; only the eventless pass runs, moving `uploading` on exactly when the file child already matches `ready` |
| `Workflow.UploadingLeftOnlyWhenFileReady` | src/app/modular/store/Orchestrator.tsx:117-129 | from `uploading`, an event leaves that state if and only if the file child's snapshot then matches `ready` |
| `Workflow.FileManagerMoveIsUnseen` | src/app/modular/store/Orchestrator.tsx:91-94 | by construction of the system step: a change of the file child alone leaves the orchestrator's state and context and the configuration child unchanged, because the guard is read only when the orchestrator handles an event |
| `ConfigurationPanel.HandlePositionUpdate` | src/app/modular/components/ConfigurationPanel.tsx:38-68 | the payload has only a position section; it holds key k if and only if the argument defines k, with the same value, for the eight position keys |
| `ConfigurationPanel.HandleAppearanceUpdate` | src/app/modular/components/ConfigurationPanel.tsx:70-83 | the payload has only an appearance section with exactly the defined keys among color, transparency and font size |
| `ConfigurationPanel.HandleNumberingUpdate` | src/app/modular/components/ConfigurationPanel.tsx:85-105 | the payload has only a numbering section with exactly the defined keys among the four numbering fields |
| `ConfigurationPanel.HandleReset` | src/app/modular/components/ConfigurationPanel.tsx:107-109 | the payload is `{reset: true}` with no section, and routes to a single `RESET_CONFIG` |
| `ConfigurationPanel.OrFallback` | src/app/modular/components/ConfigurationPanel.tsx:344 | NaN and 0 give the fallback; every other integer, negatives included, passes through |
| `ConfigurationPanel.StartNumberChanged` | src/app/modular/components/ConfigurationPanel.tsx:342-346 | the start-number input sends only a start number, 1 for NaN or 0, otherwise the parsed integer; never 0 |
| `ConfigurationPanel.ZeroPaddingChanged` | src/app/modular/components/ConfigurationPanel.tsx:355-359 | the zero-padding input sends only a padding, 6 for NaN or 0, otherwise the parsed integer; never 0 |
| `ConfigurationPanel.SectionEditEndToEnd` | src/app/modular/components/ConfigurationPanel.tsx:38-105 | in `ready`, a one-section request sets exactly the defined keys of that section and nothing else, and the orchestrator ends in `ready` |
| `ConfigurationPanel.PositionEditEndToEnd` | src/app/modular/components/ConfigurationPanel.tsx:38-68 | from a position edit in `ready`, the configuration child ends up with exactly the defined position keys changed |
| `ConfigurationPanel.AppearanceEditEndToEnd` | src/app/modular/components/ConfigurationPanel.tsx:70-83 | from an appearance edit in `ready`, the child ends up with exactly the defined appearance keys changed |
| `ConfigurationPanel.NumberingEditEndToEnd` | src/app/modular/components/ConfigurationPanel.tsx:85-105 | from a numbering edit in `ready`, the child ends up with exactly the defined numbering keys changed |
| `ConfigurationPanel.ResetButtonEndToEnd` | src/app/modular/components/ConfigurationPanel.tsx:107-109 | the reset button in `ready` leaves the configuration child with the defaults and the orchestrator in `ready` |
| `ConfigurationPanel.EmptyPositionEditSendsNothing` | src/app/modular/components/ConfigurationPanel.tsx:38-68 | a position edit with no position field defined builds an empty section, which the orchestrator drops: no event reaches the configuration child |
| `ConfigurationPanel.EmptyAppearanceEditSendsNothing` | src/app/modular/components/ConfigurationPanel.tsx:70-83 | the same for an appearance edit with no appearance field defined |
| `ConfigurationPanel.EmptyNumberingEditSendsNothing` | src/app/modular/components/ConfigurationPanel.tsx:85-105 | the same for a numbering edit with no numbering field defined |
| `PreviewManager.ClampPage` | src/app/modular/store/PreviewManager.tsx:32-35 | the page lies in 1..10 (the literal 10, not the page count), is the requested page when that is in range, else the nearer bound |
| `PreviewManager.ClampZoom` | src/app/modular/store/PreviewManager.tsx:36-39 | the zoom lies in [0.5, 3], is the requested zoom when in range, else the nearer bound |
| `PreviewManager.ZoomedIn` | src/app/modular/store/PreviewManager.tsx:40-42 | zooming in gives the smaller of 1.2 times the zoom and the cap 3; never below the old zoom inside the range |
| `PreviewManager.ZoomedOut` | src/app/modular/store/PreviewManager.tsx:43-45 | zooming out gives the larger of the zoom divided by 1.2 and the floor 0.5; never above the old zoom inside the range |
| `PreviewManager.Step` | src/app/modular/store/PreviewManager.tsx:75-119 | `GENERATE_PREVIEW` from `idle` stores file and config; from `ready` it reuses the stored pair; the live task's result moves `generating` to `ready` with that output, and nothing else is handled in `generating`; a task result in any other case changes nothing; page and zoom events are ignored outside `ready`; in `ready`, `SET_PAGE` and `SET_ZOOM` store the clamped value, `ZOOM_IN` and `ZOOM_OUT` the scaled and bounded zoom, and fit sets zoom 1, each leaving everything else alone; the page count never changes |
| `PreviewManager.InitialSatisfiesInv` | src/app/modular/store/PreviewManager.tsx:67-74 | the machine starts in `idle` with page 1, zoom 1, page count 0 and no preview, file or config, inside the bounds |
| `PreviewManager.StepPreservesInv` | src/app/modular/store/PreviewManager.tsx:32-48 | every event keeps the page in 1..10, the zoom in [0.5, 3] and the page count at 0 |
| `PreviewManager.RunPreservesInv` | src/app/modular/store/PreviewManager.tsx:75-119 | from any machine satisfying the invariant, which the initial machine does, every sequence of events keeps the page in 1..10, the zoom in [0.5, 3] and the page count at 0 |
| `PreviewManager.ZoomInOutRoundTrip` | src/app/modular/store/PreviewManager.tsx:40-45 | in `ready`, with a zoom of at most 2.5, zooming in and then out returns to the same machine, in exact arithmetic |
| `Processor.SetError` | src/app/modular/store/Processor.tsx:37-44 | the task's failure event stores null; only a `PROCESSING_ERROR` would store its message |
| `Processor.Step` | src/app/modular/store/Processor.tsx:70-111 | `START_PROCESSING` in `idle` stores file and config; in `error` it re-enters `processing` without refreshing them; in `processing` it is ignored, so the running task is not restarted. The live task's success completes with that output, and its failure goes to `error` with a null error. Cancel acts only in `processing`, returning to `idle`. `completed` accepts nothing, and progress never changes |
| `Processor.Initial` | src/app/modular/store/Processor.tsx:63-69 | the machine is created in `idle` with no task started and no output, file or config, satisfying the invariant (progress 0, null error) |
| `Processor.RunPreservesInv` | src/app/modular/store/Processor.tsx:63-111 | `UPDATE_PROGRESS` and `PROCESSING_ERROR` are handled nowhere, so from any machine satisfying the invariant, progress stays 0 and the error stays null under every sequence of events |
| `Processor.ReachableInv` | src/app/modular/store/Processor.tsx:63-111 | every machine reachable from creation has progress 0 and a null error |
| `Processor.CompletedIsFinal` | src/app/modular/store/Processor.tsx:101-103 | no sequence of events changes a completed machine |
| `Processor.StoppedStaysStopped` | src/app/modular/store/Processor.tsx:79-110 | a task that was started and is no longer running never becomes the running task again |
| `Processor.CancelledResultNeverApplied` | src/app/modular/store/Processor.tsx:95-99 | after a cancel, the cancelled task's success or failure leaves the machine unchanged at every later point, even after `processing` is re-entered |
| `Processor.CancelThenLateResult` | src/app/modular/store/Processor.tsx:71-99 | start, cancel, then the task resolves: the machine is in `idle` with no output and progress 0 |
| `Processor.OutputKeptAfterCompletion` | src/app/modular/store/Processor.tsx:91-103 | the live task's success enters `completed` with exactly its output, which no later event changes |

## Left out

- The file-manager machine. Its source is not part of this model. Only its observable state tag is modelled; its reaction to `UPLOAD_FILE` and its own progress are inputs.
- React rendering, hooks and providers. This covers the panel's JSX, the upload drop zone with its PDF type and 50 MB limits, the PDF viewer, the page layout and the machine provider. They only display snapshots or send the events modelled here.
- PDF byte work and I/O. The stamping routine, the download and the stubbed task bodies are left out. Task outputs are uninterpreted byte sequences, and task completion is an external event.
- Timing and the runtime's scheduling. The task delay, mailboxes, spawning and the actor start-up are not modelled. Delivery to a child is synchronous and in order, within the orchestrator's step.
- Preview task failure. The preview machine declares no failure transition, and its stub never rejects. The runtime's behaviour on an unhandled rejection is not modelled.
- `setProgress` (src/app/modular/store/Processor.tsx:29-36). No transition references it. The model states only its consequence: progress never changes.
- Unreachable fallback branches. The `: 1`, `: null` and `return null` else-branches of `setPage`, `setZoom`, `setFile`, `saveFileAndConfig`, `setPreviewData` and `setProcessedPdf` are left out. Each action runs only for the event it tests.
- Untyped payloads.
  - The preview and processor `config: any` is typed as the folio configuration.
  - A truthy `reset` is a boolean.
  - A section key that is present but `undefined` is treated as absent. With such a key, the source would still send an update that changes nothing. The panel never builds one.
  - Keys foreign to a section are not representable.
- `Workflow.Init`: the file child's initial state is taken to be `idle`. Its machine is not part of this model, and creation only spawns it.
- JavaScript numbers. Configuration numbers and the zoom are reals, and page numbers are integers, so NaN and infinities are represented for none of them. A fractional page request is not modelled either.
- `PreviewManager.StepPreservesInv`: the bounds hold because a NaN zoom or page cannot be sent in the model. In the program, `SET_ZOOM` with NaN stores NaN, since `Math.min` and `Math.max` propagate it, and `SET_PAGE` with NaN does the same for the page.
- `PreviewManager.RunPreservesInv`: the same restriction applies. Over event sequences without NaN or infinite payloads, the page and the zoom stay in their ranges.
- `PreviewManager.ZoomedIn`: zoom is a real, so the bounds hold in exact arithmetic. IEEE rounding of `* 1.2` and `/ 1.2` is not modelled.
- `PreviewManager.ZoomInOutRoundTrip`: the round trip holds only in exact arithmetic, not for floating point.
- `ConfigurationPanel.OrFallback`: it takes the result of `parseInt` (NaN or an integer), not the typed text. The grammar of `parseInt` is not modelled.
- Slider and input bounds in the panel (min, max, step). These are display hints. The reducer does not enforce them, and the model does not assume them.
- The orchestrator does not wire the preview and processor machines, and neither does this model. Reset does not cascade to the children.
