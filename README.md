# AngelOS desktop shell — a Dafny model

AngelOS renders a simulated desktop operating system in the browser. Three
small pieces of sequential logic sit inside it, and this project models and
verifies them:

- **The window manager** (`App.tsx`). A fixed list of windows, each with an
  id, a kind, a title, open/minimized flags and a stacking order (`zIndex`),
  plus the id of the active window. It is driven by five commands: open a
  kind, toggle (restore-and-raise or minimize), close, the taskbar click
  ("reopen if closed, else toggle"), and click-to-focus. Two bounded buffers
  travel with it: the kernel log (newest first, at most 100 entries) and the
  metrics history (newest last, at most 30 samples). The state holders are
  the fields of class `WindowManager.Desktop`. The list transforms the shell
  computes with `prev.map(...)` are pure functions beside it.
- **Path navigation in the mock file explorer** (`components/FileExplorer.tsx`).
  The path is a sequence of names. It is resolved against the static
  `MOCK_FS` tree by a loop that descends into the first item with each name,
  when that item has children, and skips segments that do not resolve.
  `navigateTo` appends a name, `goBack` drops the last one, and the
  breadcrumb is `/` followed by the names joined with `/`. The path and
  selection live in class `FileExplorer.Explorer`.
- **AI-response shaping** (`services/geminiService.ts`). `extractSources`
  turns the gateway's grounding chunks into `{title, uri}` citations. Each of
  the three call sites picks its default text for an empty reply and its
  fixed message (with no sources) on failure. The gateway call itself is an
  abstract `Outcome`: `Ok(response)` or `Err`.

Files: `types.dfy` (the records of `types.ts`), `window_manager.dfy`,
`file_explorer.dfy`, `gemini_service.dfy`.

Three behaviours of the source that the model keeps as written:
- `toggleWindow(id)` sets the active id to `id` unconditionally
  (App.tsx:93), even when no window has that id.
- Nothing clears or moves the active id when a window closes
  (App.tsx:96-98), so closing the active window leaves the id pointing at a
  closed window.
- The terminal call site's failure text is
  "Error: Kernel panic in AI sub-process." (services/geminiService.ts:34).

## Model

| member | source | states |
|---|---|---|
| WindowManager.MaxZ | App.tsx:73 | `Math.max` over the stacking orders: the result is at least every window's `zIndex` and equals one of them |
| WindowManager.Highlighted | App.tsx:269 | taskbar button `k` is highlighted exactly when its window has the active id, is open and is not minimized |
| WindowManager.InitialWindows | App.tsx:17-24 | the initial list: `term-1` (open, 10), `dash-1` (open, 5), `explorer-1` and `assistant-1` (closed, 1), none minimized; the initial active id `InitialActive` is `term-1` |
| WindowManager.MaxZUnique | App.tsx:73 | any value that bounds every `zIndex` and is attained equals `MaxZ` |
| WindowManager.FindByType | App.tsx:77 | `find` by kind: none exactly when no window has the kind; otherwise the first window of that kind |
| WindowManager.FindFirstOfType | App.tsx:77 | `find` by kind returns the window at position `k` when no earlier window has its kind |
| WindowManager.InitialIdsUnique | App.tsx:17-22 | the initial windows have unique ids |
| WindowManager.InitialKindsDistinct | App.tsx:17-22 | no two initial windows share a kind |
| WindowManager.InitialWindowsFind | App.tsx:17-22 | on the initial list, each kind but SYSTEM_LOGS is found at its own window; SYSTEM_LOGS is not found |
| WindowManager.InitialMaxZ | App.tsx:17-22 | the highest initial stacking order is 10 |
| WindowManager.OpenedWindows | App.tsx:71-76 | opening kind `t`: same windows in the same order; others unchanged; each window of kind `t` ends open, not minimized, at one above the old maximum |
| WindowManager.OpenedOnTop | App.tsx:71-74 | an opened window gets `MaxZ + 1`, is strictly above every window of another kind, and the new maximum is the old one plus one |
| WindowManager.OpenExplorerActivates | App.tsx:77-78 | on the initial desktop, opening EXPLORER finds `explorer-1`, which becomes the active id |
| WindowManager.OpenExplorerScenario | App.tsx:70-76 | from the initial desktop (10, 5, 1, 1), opening EXPLORER gives `explorer-1` `zIndex` 11, open, not minimized; the other windows are untouched |
| WindowManager.IsFocusing | App.tsx:84 | a toggle restores (rather than minimizes) a window exactly when it is minimized or is not the active one |
| WindowManager.ToggledWindows | App.tsx:82-92 | toggling `id`: when minimized or not active, it is restored at one above the maximum; otherwise it is minimized at the same `zIndex`; `isOpen`, id, kind, title and other windows unchanged |
| WindowManager.ToggleMinimizesActive | App.tsx:84-88 | toggling the active visible window only sets its `isMinimized`; the top of the stack is unchanged |
| WindowManager.ToggleRestoresMinimized | App.tsx:84-88 | toggling a minimized window restores it at one above the top, whatever the active id; no other window changes |
| WindowManager.ToggleAlternates | App.tsx:84-88 | toggling an active visible window twice minimizes it in place, then restores it above all with nothing else changed |
| WindowManager.ClosedWindows | App.tsx:97 | closing `id` changes only `isOpen` of that window, to false |
| WindowManager.CloseIdempotent | App.tsx:96-98 | closing twice equals closing once |
| WindowManager.ReopenedWindows | App.tsx:268 | the taskbar's reopen changes only `isOpen` of that window, to true, keeping `isMinimized` and `zIndex` |
| WindowManager.ReopenAfterClose | App.tsx:268 | reopening a window that was open and then closed restores the list exactly |
| WindowManager.AtMostOneHighlighted | App.tsx:269 | with unique ids, at most one taskbar button meets the highlight condition |
| WindowManager.PushLog | App.tsx:30-34 | the new entry is at index 0, the length is `min(n + 1, 100)`, and the rest is a prefix of the old log |
| WindowManager.PushLogKeepsAll | App.tsx:30-34 | below capacity, two entries logged in turn stand newest first before the whole old log |
| WindowManager.PushSample | App.tsx:63 | the new sample is last, the length is `min(n + 1, 30)`, and the rest is a suffix of the old history |
| WindowManager.PushSampleDropsOldest | App.tsx:63 | with a full history, a new sample drops exactly the oldest one |
| WindowManager.Desktop.constructor | App.tsx:17-27 | the initial window list, active `term-1`, empty log and history; the invariant holds |
| WindowManager.Desktop.OpenWindow | App.tsx:70-79 | the list becomes `OpenedWindows`; the active id becomes the id of the first window of the kind, and is unchanged when there is none; ids stay unique |
| WindowManager.Desktop.ToggleWindow | App.tsx:81-94 | the list becomes `ToggledWindows` under the old active id; the active id becomes `id` unconditionally |
| WindowManager.Desktop.CloseWindow | App.tsx:96-98 | the list becomes `ClosedWindows`; the active id, log and history are untouched |
| WindowManager.Desktop.TaskbarClick | App.tsx:265-268 | on an open window it acts exactly as `ToggleWindow`; on a closed one it only reopens it, keeping the active id |
| WindowManager.Desktop.Focus | App.tsx:216 | only the active id changes, to `id` |
| WindowManager.Desktop.AddLog | App.tsx:29-35 | the log becomes `PushLog` of the new entry; everything else is unchanged; the log stays within 100 |
| WindowManager.Desktop.RecordMetrics | App.tsx:63 | the history becomes `PushSample` of the new sample; everything else is unchanged; the history stays within 30 |
| FileExplorer.FindByName | components/FileExplorer.tsx:55 | `find` by name: none exactly when no item has the name; otherwise the first item with it |
| FileExplorer.MockFs | components/FileExplorer.tsx:11-46 | the literal tree: `bin`, `etc` and `home` (holding `root`) folders with their files, and the two boot images at the top |
| FileExplorer.Step | components/FileExplorer.tsx:55-58 | one iteration of the walk: into the children of the first item with the segment's name when it has children, otherwise stay; pinned by `StepDescends` and `StepSkips` |
| FileExplorer.Resolve | components/FileExplorer.tsx:53-59 | the walk over the whole path, first segment first; `ResolveSnoc` shows it is the source's left-to-right loop |
| FileExplorer.StepDescends | components/FileExplorer.tsx:55-57 | a segment naming an item with children (the first with that name) moves the walk to those children |
| FileExplorer.StepSkips | components/FileExplorer.tsx:55-58 | a segment naming nothing, or whose first match has no children, leaves the walk at the same level |
| FileExplorer.ResolveSnoc | components/FileExplorer.tsx:53-59 | walking one more segment is one more step from where the walk stood |
| FileExplorer.Explorer.GetCurrentItems | components/FileExplorer.tsx:52-61 | the loop returns the listing `Resolve(MOCK_FS, currentPath)`; the empty path gives the root listing |
| FileExplorer.MockFsWellFormed | components/FileExplorer.tsx:11-46 | in the mock tree, names are unique in every listing, and an entry is a folder exactly when it has children |
| FileExplorer.StepIntoListedFolder | components/FileExplorer.tsx:55-57 | in a well-formed listing, stepping into a listed folder gives its children |
| FileExplorer.StepWellFormed | components/FileExplorer.tsx:55-58 | every step from a well-formed listing reaches a well-formed listing |
| FileExplorer.ResolveWellFormed | components/FileExplorer.tsx:53-59 | every listing the walk reaches from a well-formed root is well formed |
| FileExplorer.EnterListedFolder | components/FileExplorer.tsx:86 | from a well-formed root, entering a folder listed at the current path shows that folder's children |
| FileExplorer.NavigateIntoFolder | components/FileExplorer.tsx:86 | double-clicking a listed folder yields a navigated path whose listing is that folder's children |
| FileExplorer.NavigatedListsLastFolder | components/FileExplorer.tsx:83-86 | on a path built only by double-clicking listed folders, the listing shown is the children of the last folder entered |
| FileExplorer.Child | components/FileExplorer.tsx:64 | appending keeps the old path as a prefix, adds the name at the end, and grows the length by one |
| FileExplorer.Parent | components/FileExplorer.tsx:68 | `slice(0, -1)` drops the last segment; the empty path stays empty |
| FileExplorer.ParentOfChild | components/FileExplorer.tsx:63-69 | going back after navigating restores the previous path |
| FileExplorer.Explorer.NavigateTo | components/FileExplorer.tsx:63-65 | the path becomes `Child(old path, name)`; the selection is kept |
| FileExplorer.Explorer.GoBack | components/FileExplorer.tsx:67-69 | the path becomes `Parent(old path)`; the selection is kept |
| FileExplorer.Explorer.CanGoBack | components/FileExplorer.tsx:74 | the back button is enabled exactly when going back would change the path |
| FileExplorer.Explorer.Select | components/FileExplorer.tsx:87 | a click selects the item's name; the path is kept |
| FileExplorer.Explorer.Activate | components/FileExplorer.tsx:86 | the double-click handler: on a folder it navigates into it; on a file it selects it and keeps the path |
| FileExplorer.Explorer.constructor | components/FileExplorer.tsx:49-50 | the explorer starts at the empty path with nothing selected |
| FileExplorer.Breadcrumb | components/FileExplorer.tsx:79 | the breadcrumb always starts with "/" |
| FileExplorer.Join | components/FileExplorer.tsx:79 | `join('/')`: the segments separated by "/", "" for none; `Split` inverts it on non-empty paths whose segments contain no "/" (`BreadcrumbRoundTrip`) |
| FileExplorer.JoinSnoc | components/FileExplorer.tsx:79 | joining one more segment onto a non-empty path appends "/" and the segment |
| FileExplorer.BreadcrumbOfChild | components/FileExplorer.tsx:79 | navigating into `name` extends the breadcrumb by "/name", or by "name" right after the root "/" |
| FileExplorer.BreadcrumbRoundTrip | components/FileExplorer.tsx:79 | for a non-empty path in which no segment contains "/", splitting the breadcrumb after its leading "/" gives the path back |
| GeminiService.Chunks | services/geminiService.ts:12 | the `?.` chain: the chunk list of the first candidate's metadata, missing when any level is missing or there is no candidate |
| GeminiService.SourceOf | services/geminiService.ts:13-15 | a chunk yields a source exactly when `web.uri` is present and non-empty; the uri is copied verbatim; the title is `web.title` when non-empty, else "External Source" |
| GeminiService.ChunkSources | services/geminiService.ts:12-15 | the map-and-filter pass yields at most one source per chunk, each with a non-empty title and uri |
| GeminiService.ChunkSourcesAppend | services/geminiService.ts:12-15 | the pass preserves chunk order: the sources of `a + b` are those of `a` followed by those of `b` |
| GeminiService.ChunkSourcesMembers | services/geminiService.ts:12-15 | a source is extracted exactly when some chunk yields it |
| GeminiService.ChunkSourcesCount | services/geminiService.ts:14-15 | when every chunk has a usable uri, none is dropped; when none has, the result is empty |
| GeminiService.ExtractSources | services/geminiService.ts:11-16 | no chunk list gives no sources; otherwise at most one source per chunk, all usable |
| GeminiService.OnlyFirstCandidate | services/geminiService.ts:12 | only `candidates[0]` is consulted |
| GeminiService.MissingLevelsGiveNoSources | services/geminiService.ts:12-15 | a missing candidate list, first candidate, metadata or chunk list gives an empty list |
| GeminiService.Shape | services/geminiService.ts:29-35 | on failure, the fixed text with no sources; on success, the reply text unless missing or empty (then the default), with the extracted sources |
| GeminiService.ExecuteTerminalCommand | services/geminiService.ts:29-35 | the text is never empty; an empty reply gives "Command executed."; a failure gives "Error: Kernel panic in AI sub-process." with no sources |
| GeminiService.AssistantChat | services/geminiService.ts:50-56 | the text is never empty; an empty reply gives "..."; a failure gives "Neural link interrupted. Please retry." with no sources |
| GeminiService.SearchTheGrid | services/geminiService.ts:69-75 | the text is never empty; an empty reply gives "No data found on the grid."; a failure gives "Search matrix unreachable." with no sources |
| GeminiService.SuccessPassesTextThrough | services/geminiService.ts:29-32 | on success with non-empty text, each call site returns that text verbatim with the extracted sources |
| GeminiService.ChatContents | services/geminiService.ts:43 | the chat request is the given history, unchanged, followed by exactly one `user` turn holding the message |

## Left out

- The AI client's construction and its `generateContent` calls (prompts, model name, tools, temperature). They are a foreign network library; each call's result is the parameter `Outcome`.
- `async`/`await` and the `loading` flags of the terminal and assistant components: UI plumbing around a single call.
- The terminal's hostname de-duplication of sources. It parses URLs with `new URL(...)`, a foreign call.
- The terminal component's own catch branch (components/Terminal.tsx:42-44). It is reached only when a source uri is not a well-formed URL, so that `new URL(...)` throws. It is left out together with the hostname de-duplication that parses the uri.
- The metrics random walk (`Math.random`, floating-point clamping). It is nondeterministic; `Desktop.RecordMetrics` takes the next sample as a parameter and models only the history trimming.
- Timers, the boot sequence and its two log lines (`setInterval`/`setTimeout`), and the log timestamp taken from `Date`. `Desktop.AddLog` takes the timestamp as a parameter. The source's default level `'info'` is passed explicitly.
- The dashboard component, all layout and styling, the assistant's display truncation of titles, and the search overlay and search form of `App.tsx`.
- ExtractSources: a chunk is modelled as a record that is always present. A `null` entry in the chunk array would make the source throw, and that is not modelled.
- Desktop.OpenWindow: `find` reads the list captured at render time while the map reads the latest list. The model runs commands one at a time, so the two are the same list.
- The reset of the explorer's path and selection. App.tsx:213 renders only open, non-minimized windows, so minimizing or closing the explorer window unmounts the component and its state starts again at the empty path with nothing selected; `FileExplorer.Explorer` and `WindowManager.Desktop` are modelled independently, and that coupling is not captured.
- Explorer.Activate: models the double-click handler alone. In a browser the gesture also fires the click handler twice first, so the real sequence is `Select; Select; Activate`, and after double-clicking a folder the selection is that folder's name.
- Desktop.TaskbarClick: the button is identified by its window's position `k` in the list, because the source renders exactly one button per listed window.
- `zIndex` is an unbounded integer. JavaScript numbers are doubles, which behave as integers far beyond any reachable stacking order.
