# Interaction recorder core, modelled in Dafny

This project models the deterministic core of an Electron application that records a user's interactions with a web page and turns them into a Robot Framework script. It has three parts.

- **The DOM scanner** — `wrappers.dfy` and `scanner.dfy`, modelling `locator/scanner.js`.
  - `parseNodes` is a recursive pre-order sweep over element children. It pushes classification records onto a caller-supplied array. The sweep is bounded by the `limit` field of the long-lived `scanner` object: the field is decremented on every call and never reset.
  - `parseNode` classifies and locates a single node.
  - The three collaborators are globals whose code is not part of this model: `classifier`, `builder.build` and `locator.build`. They are uninterpreted function values in the datatype `Collaborators`.
  - The scanner is the class `DomScanner`, with the mutable field `limit`. The caller's array is the class `Collector`.
  - The sweep is specified by the recursive function `Visit`. It is proved against a reference definition, the pre-order of the element tree (`PreOrder`).
  - The main theorem, `VisitElementPrefix`, says a call with limit `L` appends exactly the records of the first `L - 1` nodes of the pre-order, or of all of them when the budget suffices.
- **The renderer** — `renderer.dfy`, modelling `renderer.js`.
  - It maps recorded interactions into `{type, path, value, title}` records for the translator. `input` becomes `text`, and the title is the URL with one `http://` or `https://` stripped.
  - It models the session state machine as the class `Ui`. Its fields are the module-level variables, the three button `disabled` flags, the output and editor texts, and the view, which is which of output and editor is displayed plus the edit button's label.
  - `translator.generateFile` is an uninterpreted function value.
  - Messages to the main process are appended to `outbox`.
- **The main process** — `text.dfy` and `main_process.dfy`, modelling `main.js`.
  - The selector string built by the injected `recordEvent`.
  - The page's `window.interactions` queue and its drain.
  - The `actionCounter` sequence numbers and the four artefact names per action.
  - The `':'`→`'_'` timestamp sanitising.
  - The `auto_` rule for saved script names.
  - Paths are lists of segments, i.e. `path.join`'s arguments. File writes are recorded as `ArtefactFile` values in the `written` field of the class `Recorder`.

Where the code and its documentation differ, the model follows the code. The differences are:

- **Nodes served.** `limit` is decremented before it is checked (locator/scanner.js:22-23), so a fresh scanner classifies at most 999 nodes, not 1000. A budget of 2 serves one node, not two (`BudgetOfTwoServesOne`).
- **Negative budget.** `limit` goes below zero once the budget is exhausted. Exhausted calls still return inside the parent's loop, and every later call decrements again (`ExhaustedCallsKeepDecrementing`).
- **No reset.** Nothing resets `limit`, so a second sweep inherits what the first left (`SecondSweepInheritsBudget`).
- **Root node type.** The root's `nodeType` is not checked; only children are filtered by `ELEMENT_NODE`.
- **No vocabulary in `parseNode`.** `parseNode` calls `locator.build` with three arguments, so no attribute vocabulary reaches the locator (`Capture`, `CaptureAgreesWithSweep`).

## Model

| member | source | states |
|---|---|---|
| Scanner.Visit | locator/scanner.js:21-44 | Specification of one `parseNodes(array, root, attributesArray)` call, with `root` possibly undefined. A call on an undefined root decrements `limit` and returns nothing. Its contract on an element is stated by `VisitElementPrefix`, `VisitElementCalls` and `RecordsWithinBudget` |
| Scanner.VisitElement | locator/scanner.js:21-44 | Specification of the call on an element: decrement, the check against 0, classify and push, then the loop over children. Its contract is stated by `VisitElementPrefix` (records are the first `Served(limit, n)` nodes of the pre-order), `VisitElementCalls` (the limit drops by the calls made), `CompleteUnderBudget` and `VisitElementIgnoresClassifier` |
| Scanner.VisitChildren | locator/scanner.js:37-42 | Specification of the loop over `childNodes` from index `i`, recursing only into element children. Its contract is stated by `VisitChildrenPrefix`, `VisitChildrenCalls`, `VisitChildrenSuffix`, `VisitChildrenIgnoresClassifier` and `NonElementChildSkipped` |
| Scanner.SweepRecord | locator/scanner.js:29-34 | The record pushed for an accepted node: the classifier's hash with its `path` from `locator.build` on the context tree `builder.build(node, attributesArray, [])`, the hash's type and the vocabulary. Its meaning is stated by `DomScanner.PushRecord` and `CaptureAgreesWithSweep` |
| Scanner.RecordsAt | locator/scanner.js:27-35 | The records one node contributes: one when the classifier returns a hash, none when it returns null. Its meaning is stated by `DomScanner.PushRecord`, `RecordsOfLength` and `VisitElementPrefix` |
| Scanner.Served | locator/scanner.js:22-25 | Of `count` pending calls at limit `limit`, none run when `limit <= 1`; otherwise all of them or exactly `limit - 1` run, never more than `count` and never more than `limit - 1` |
| Scanner.PreOrder | locator/scanner.js:37-42 | The pre-order of a node is non-empty and starts with the node itself |
| Scanner.RecordsOfAppend | locator/scanner.js:29-42 | The records of a concatenation of node runs are the records of each run, concatenated |
| Scanner.ServesPrefixAppend | locator/scanner.js:38-41 | Serving `a` and then `b` from the limit `a` left serves the prefix of `a + b` that the original limit allows |
| Scanner.VisitElementPrefix | locator/scanner.js:21-44 | One call on a node appends exactly the records of the first `Served(limit, n)` nodes of its pre-order. It leaves `limit - n` when the budget covers all `n` nodes, and a non-positive limit otherwise |
| Scanner.VisitChildrenPrefix | locator/scanner.js:37-42 | The same for the loop over children from index `i`: records in `childNodes` order, each child's subtree in pre-order, only element children |
| Scanner.CompleteUnderBudget | locator/scanner.js:21-44 | With budget above the node count, the sweep appends one record per accepted node in pre-order, and the limit drops by the node count |
| Scanner.RecordsOfLength | locator/scanner.js:29-35 | At most one record per node, and exactly one per node when the classifier accepts every node |
| Scanner.RecordsOfPrefix | locator/scanner.js:29-35 | Classifying a prefix of the nodes yields a prefix of the records |
| Scanner.RecordsWithinBudget | locator/scanner.js:22-25 | A call appends at most `limit - 1` records, and the records appended plus the usable budget left never exceed the usable budget it started with |
| Scanner.VisitElementCalls | locator/scanner.js:22 | Every call decrements `limit` by exactly one, including calls that return at once: the limit left is the limit minus the number of calls made, and at least one call is made |
| Scanner.VisitChildrenCalls | locator/scanner.js:38-41 | The loop over children lowers the limit by exactly the number of calls it makes |
| Scanner.VisitElementIgnoresClassifier | locator/scanner.js:27-42 | The limit left and the calls made do not depend on the collaborators: children are recursed into whether or not their parent was classified |
| Scanner.VisitChildrenIgnoresClassifier | locator/scanner.js:37-42 | The same for the loop over children |
| Scanner.VisitChildrenSuffix | locator/scanner.js:37-42 | The loop's result depends only on the children that remain |
| Scanner.NonElementChildSkipped | locator/scanner.js:39 | Inserting a non-element child anywhere leaves the loop's records, limit and calls unchanged |
| Scanner.SecondSweepInheritsBudget | locator/scanner.js:10 | Because `limit` is never reset, a second sweep of the same document yields a prefix of the first sweep's records, whatever the first budget was. When the first sweep covered the whole document (budget above the node count) but the leftover budget cannot, and every node is accepted, the second sweep yields strictly fewer records |
| Scanner.BudgetOfTwoServesOne | locator/scanner.js:22-25 | With `limit` 2, five nested accepted elements give one record |
| Scanner.ExhaustedCallsKeepDecrementing | locator/scanner.js:22-25 | With `limit` 2 and three element children, the root's record alone is appended, four calls are made and `limit` ends at -2 |
| Scanner.Capture | locator/scanner.js:54-68 | `parseNode` returns a record exactly when the node is defined. The record carries `time`, and its hash is the classifier's, or of type `default` when the classifier returns null. Its path comes from the three-argument locator call on the built tree |
| Scanner.CaptureAgreesWithSweep | locator/scanner.js:57-63 | For a node the sweep accepts, the single capture has the same hash, and the two paths differ only in the vocabulary passed to the locator |
| Scanner.Collector.constructor | locator/scanner.js:16 | The caller's array starts with the given records |
| Scanner.DomScanner.constructor | locator/scanner.js:9-10 | A fresh scanner has `limit` 1000, has made no calls, classified no node and pushed no record |
| Scanner.DomScanner.ParseNodes | locator/scanner.js:21-44 | Returns the same collector. Its items are the old items followed by `Visit`'s records, `limit` is `Visit`'s limit, and the lifetime invariant holds: `limit` is 1000 minus the calls made, at most 999 nodes are ever classified (so built and located), and no more records are pushed than nodes classified |
| Scanner.DomScanner.PushRecord | locator/scanner.js:27-35 | Appends the node's record exactly when the classifier accepts it, with the path from the locator on the built tree |
| Scanner.DomScanner.ParseChildren | locator/scanner.js:37-42 | The loop appends the records of `VisitChildren`, leaves its limit and keeps the lifetime invariant |
| Scanner.DomScanner.ParseNode | locator/scanner.js:54-68 | Returns `Capture(...)`. It has no `modifies` clause, so it never touches `limit` |
| Text.ReplaceChar | main.js:87 | Replacing one character by another keeps the length |
| Text.ReplaceCharAt | main.js:87 | Position by position, `from` becomes `to` and every other character is kept, so `from` no longer occurs |
| Text.ReplaceCharAbsent | main.js:87 | A string without `from` is unchanged |
| Text.NatToString | main.js:125-129 | The decimal rendering of a sequence number is non-empty |
| Text.NatToStringDigits | main.js:125-129 | The rendering consists of decimal digits |
| Text.NatToStringRoundTrip | main.js:125-129 | Reading the rendering back as decimal gives the number |
| Text.NatToStringInjective | main.js:125-129 | Different sequence numbers render differently |
| MainProcess.Selector | main.js:99 | The selector built from a target's tag, id and className. Its contract is stated by `SelectorLayout` and `ClassPartLayout` |
| MainProcess.ClassPartLayout | main.js:99 | The class part is empty for an empty className. Otherwise it is `.` followed by the className with every space, and only spaces, turned into `.`; it contains no space |
| MainProcess.SelectorLayout | main.js:99 | The selector is the tag, then `#` and the id only if the id is non-empty, then the class part; with neither id nor class it is the tag |
| MainProcess.OrNull | main.js:100-101 | JavaScript's `x or null` on a string: present exactly when present and non-empty, and then unchanged |
| MainProcess.RecordEvent | main.js:96-103 | The recorded info has the event's type, the selector of its target, the text and value with empty strings turned into null, and the timestamp |
| MainProcess.PageWindow.constructor | main.js:116-118 | A page starts without an interactions array |
| MainProcess.PageWindow.Install | main.js:94 | The injected script sets the queue to an empty array |
| MainProcess.PageWindow.Record | main.js:105 | An event is appended to an array queue; pushing onto a non-array throws, is swallowed, and changes nothing |
| MainProcess.PageWindow.Drain | main.js:116-123 | The drain returns exactly the queued events in order, or none for a missing or non-array queue, and leaves the queue an empty array |
| MainProcess.RecordThenDrain | main.js:94-123 | Two events recorded on a fresh page come out of one drain in order, and a second drain finds none |
| MainProcess.ArtefactName | main.js:129-158 | The file name of artefact `a` of action `seqNo`: `screenshot-full-`, `screenshot-elem-`, `dom-` or `action-`, the sequence number in decimal, then `.png`, `.png`, `.html` or `.json`. Its contract is stated by `KindOfName`, `ArtefactNamesDistinct` and `BatchFilesAt` |
| MainProcess.KindOfName | main.js:129-158 | Every artefact name can be read back as its kind |
| MainProcess.ArtefactNamesDistinct | main.js:129-158 | Two artefact names are equal only for the same kind and the same sequence number |
| MainProcess.PathOf | main.js:129 | The path `path.join(savePath, name)` of an artefact file, as its list of segments. Its meaning is stated by `PathOfInjective` and `BatchPathsDistinct` |
| MainProcess.ActionFiles | main.js:128-158 | The four files one pass of the loop writes, in order: full screenshot, element screenshot, DOM and action JSON, all with the same sequence number. Its meaning is stated by `BatchFilesAt` and `Recorder.WriteArtefacts` |
| MainProcess.PathOfInjective | main.js:129-158 | Two written paths are equal only for the same folder, kind and sequence number |
| MainProcess.BatchFiles | main.js:124-158 | A batch of `count` actions writes `4 * count` files |
| MainProcess.BatchFilesAt | main.js:124-158 | File `4k + m` of a batch is artefact `m` (full screenshot, element screenshot, DOM, action JSON) of action `first + k`, so sequence numbers are consecutive |
| MainProcess.BatchFilesDistinct | main.js:124-158 | No file of a batch is written twice |
| MainProcess.BatchPathsDistinct | main.js:124-158 | No path of a batch is written twice |
| MainProcess.SanitiseTimestamp | main.js:87 | The sanitised timestamp has the same length, no `:`, `_` wherever the original had `:`, and every other character kept |
| MainProcess.SanitiseIdempotent | main.js:200 | Sanitising a sanitised timestamp changes nothing |
| MainProcess.ScriptFileName | main.js:200-202 | The script file name: `auto_` for an auto-save, then `robot_script_`, the timestamp with `:` turned into `_`, and `.robot`. Its contract is stated by `ScriptNameReflectsAutoSave` |
| MainProcess.SavedEventName | main.js:212 | The notification sent after a save. Its contract is stated by `ScriptNameReflectsAutoSave` |
| MainProcess.ScriptNameReflectsAutoSave | main.js:200-212 | The script file name starts with `auto_` exactly for auto-saves, the notification is `script-auto-saved` exactly for auto-saves, and the name contains no `:` |
| MainProcess.ScriptFolder | main.js:202 | The folder a script is saved in: the recording's save path when there is one, the app's `scripts` folder otherwise. Its meaning is stated by `Recorder.SaveCustomScript` |
| MainProcess.Recorder.constructor | main.js:24-25 | The process starts with `actionCounter` 0, no save path and nothing written |
| MainProcess.Recorder.StartTracking | main.js:87-90 | The save path becomes `recordings/<sanitised timestamp>` and the counter 0 |
| MainProcess.Recorder.WriteArtefacts | main.js:129-158 | The four files of one action are written in order |
| MainProcess.Recorder.ProcessBatch | main.js:124-161 | With a save path, the counter rises by one per event, the files are `BatchFiles` from the old counter plus one, and every event is forwarded in order. Without one, the first `path.join` throws after one increment and nothing is written |
| MainProcess.Recorder.Poll | main.js:114-165 | A tick drains the page's queue and processes exactly the drained events. With a save path, the counter rises by the batch size, the batch's files are written and its events forwarded. Without one, a non-empty batch raises the counter by one and nothing is written or forwarded |
| MainProcess.Recorder.ClearSession | main.js:227-249 | The counter becomes 0 and the save path is forgotten |
| MainProcess.Recorder.SaveCustomScript | main.js:198-213 | The script goes to the save path, or the app's `scripts` folder when there is none, under `ScriptFileName`, with notification `SavedEventName` |
| Renderer.StripScheme | renderer.js:62 | The `title` of a mapped record: the URL with a leading `http://` or `https://` removed. Its contract is stated by `StripSchemeSuffix` and `StripSchemeOf` |
| Renderer.StripSchemeSuffix | renderer.js:62 | The title is a suffix of the URL after removing nothing, `http://` or `https://`, and differs from the URL exactly when the URL starts with a scheme |
| Renderer.StripSchemeOf | renderer.js:62 | Exactly one leading scheme is removed, even if another follows it |
| Renderer.MapType | renderer.js:59 | Every type except `input` is kept, and only `input` and `text` map to `text` |
| Renderer.MapInteraction | renderer.js:58-63 | The record built for one interaction. Its contract is stated by `MapInteractionsAt` and `MapType` |
| Renderer.MapInteractions | renderer.js:58-63 | The mapped list has one record per interaction |
| Renderer.MapInteractionsAt | renderer.js:58-63 | Record `i` has the interaction's selector as path, its value, the stripped URL as title, and type `text` for `input` and the event's type otherwise |
| Renderer.MapInteractionsAppend | renderer.js:169-175 | Mapping after a push is the earlier mapping plus the new record |
| Renderer.Ui.Script | renderer.js:58-64 | The generated script: the interactions mapped to records, passed with their count and the demo and verify flags to `translator.generateFile`. Its meaning is stated by `Ui.ClickStop`, `Ui.OnInteraction` and `MapInteractionsAt` |
| Renderer.Ui.constructor | renderer.js:9-24 | The page starts with Start enabled, Stop and Edit disabled, not editing, no translator and empty texts |
| Renderer.Ui.EnterUrl | renderer.js:14 | Typing into the URL input changes only the URL |
| Renderer.Ui.TypeInEditor | renderer.js:21 | Typing into the editor changes only the editor text |
| Renderer.Ui.ClickStart | renderer.js:33-45 | An empty URL changes nothing. Otherwise Start is disabled, Stop enabled, tracking requested with the URL, the translator initialised, and the data and output cleared |
| Renderer.Ui.ClickStop | renderer.js:54-74 | Stop is disabled and Start and Edit are enabled. The script generated from the mapped data becomes `originalScript`, the output and the editor text |
| Renderer.Ui.ClickEdit | renderer.js:81-95 | Toggles `isEditing`. Entering edit mode copies the output into the editor, and the view and label follow the mode |
| Renderer.Ui.ClickSave | renderer.js:102-112 | In edit mode the editor text becomes the output and `originalScript`; otherwise neither changes. The resulting output text is sent, not as an auto-save |
| Renderer.Ui.ClickNewSession | renderer.js:120-160 | Declining with data present changes nothing. Otherwise the data, output and editor are cleared, Start enabled, Stop and Edit disabled, edit mode left, and the main process told to clear |
| Renderer.Ui.OnInteraction | renderer.js:168-181 | The interaction is always appended. Outside edit mode, and with a translator, the script is regenerated into `originalScript` and the output; otherwise both are unchanged |
| Renderer.Ui.RequestAutoSave | renderer.js:257-261 | The current output text is sent as an auto-save |
| Renderer.EditsSurviveNewRecording | renderer.js:177-181 | Start, Stop, Edit, type; then a new recording that delivers an interaction; then Save. The edited text is still shown, and it is what is sent |

`Ui.Valid` is preserved by every `Ui` method. It says:

- exactly one of Start and Stop is enabled;
- Stop is enabled only once a translator exists, so Stop never calls an uninitialised translator;
- the view follows `isEditing`;
- edit mode implies the edit button is enabled.

`DomScanner.Valid` ties `limit` to the lifetime call count, bounds the number of nodes ever classified by 999, and bounds the records pushed by the nodes classified.

## Left out

- The code of `classifier`, `builder.build`, `locator.build`, `initializeTranslator` and `translator.generateFile` is not part of this model. These are uninterpreted function values, so nothing is claimed about locator uniqueness or vocabulary priority.
- `Node` is a value: it has no parent and no identity. The `builder` collaborator, which builds the context tree of a node's ancestors, therefore sees only the node and its subtree, and two equal subtrees always get equal records. No proved property depends on the ancestors.
- `Object.assign` mutating the classifier's hash object is modelled as a new `Record` value. Aliasing with objects the classifier might keep is not captured.
- The root's own `nodeType` is not checked by the code, and the model follows it. `Node.ELEMENT_NODE` is the constant 1.
- MainProcess.RecordEvent: events whose handler throws inside the `try` are silently dropped by the empty `catch` at main.js:107, and the model's `Target` cannot express them. This happens when the target has no `getBoundingClientRect` (main.js:103), for example a page-level scroll whose target is `document` (main.js:112), and when `className` has no `split`, as on SVG elements (main.js:99). For those events the page queue is unchanged.
- Selenium/WebDriver control, `executeScript` transport, screenshots and `sharp` cropping, the page source, and all `fs` writes and `mkdirSync`. This is I/O. Only the names and the order of the files written are modelled.
- `getBoundingClientRect` and the `Math.round` crop geometry, because they are floating point. `Info` has no `rect` field.
- The Electron window, IPC transport, `setInterval` polling and async ordering. Each handler is one atomic method; a tick is `Poll`.
- DOM construction of list items and images, `alert`/`confirm` (the user's answer is the parameter `confirmed`), the message divs and their timers, the highlight class, and `handleWindowResize`. This is UI, timers and layout.
- index.html is not part of this model. The initial button states and view in `Ui.constructor` are an assumption.
- A disabled button dispatches no click event, so `ClickStart`, `ClickStop` and `ClickEdit` require their button to be enabled.
- `path.join` normalisation. Paths are kept as lists of segments.
- `__dirname` is the parameter `appDir`. The clock is the parameter `now`, an ISO string.
- `innerText`/`value` of non-string type. Targets carry strings, and `value` is optional.
- steps/mydrive_select_steps.py and steps/environment.py. They only drive Selenium.
- MainProcess.Recorder.ProcessBatch: an exception thrown by a Selenium call in the middle of a batch is not modelled. The only failure modelled is `path.join` on a missing save path.
- Renderer.Ui.OnInteraction: the list item built for the interaction and its screenshots are not modelled.
