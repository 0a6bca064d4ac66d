# ObjectSelector: a verified model in Dafny

This project models the in-memory state handling of the `ObjectSelector`
Lightning Web Component. The component does four things:

- It splits the org's object names into a standard pick-list and a custom
  pick-list. A name ending in `__c` is custom. Each list is sorted by label.
- It submits metadata-extraction batch jobs and records each job id it gets back.
- It listens for `BatchJobComplete__e` platform events. It shows the payload of
  an event only when the event's `BatchJobId__c` is one of its own job ids.
- It reports failures as toasts. The message is the error body's message when
  there is one, otherwise `Unknown error`.

Files:

- `wrappers.dfy` has `Option`, which stands for a value that may be `undefined` or `null`.
- `object_options.dfy` (module `ObjectOptions`) covers name classification, the partition loop, its reference functions and lemmas, and the in-place label sort.
- `metadata.dfy` (module `Metadata`) holds the values exchanged with collaborators: metadata results, parsed payloads, events, errors, submission outcomes and toasts. It also holds the error-message selection.
- `object_selector.dfy` (module `Selector`) holds the class `ObjectSelector`, with the component's fields and one method per handler. It ends with two client methods, `CompletionScenario` and `OverlappingSubmissionsScenario`, that drive a session and check the outcome using the contracts alone.

Modelling choices:

- The component's collaborators become inputs.
  - The wire result of `getObjectNames` is `Option<seq<string>>`. `None` means no data, either because the wire failed or because it has not been provisioned yet. An empty array is truthy in JavaScript, so `Some([])` does rebuild both lists as empty.
  - A settled Apex call is a `SubmissionOutcome`: `Resolved(jobId)` or `Rejected(error)`.
  - A delivered platform event is a `PlatformEvent`. It carries the job id and the result of parsing the payload: either the parse threw, or it gave `null` or a `MetadataResult`.
- `localeCompare` becomes a parameter `le`. `le(x, y)` stands for `x.localeCompare(y) <= 0`, and `le` is required to be a total preorder.
- A submission has two steps. `HandleStdObjectProcessing` / `HandleCustomObjectProcessing` turn the spinner on. `StdObjectProcessingSettled` / `CustomObjectProcessingSettled` are the `then`/`catch` callbacks.
- Showing a toast appends its `(title, message, variant)` triple to the `toasts` field.
- The class invariant `Valid()` says every toast ever shown is well formed: its message is non-empty, and its title and variant pair up as `Success`/`success` or `Error`/`error`. This holds because an empty service message is falsy and so falls back to `Unknown error`.

Behaviour of `objectSelector.js` worth noting:

- A relevant event **replaces** `metadataResult` with the parsed payload (objectSelector.js line 157). It does not concatenate per category. So two events from two tracked jobs leave only the second payload; `CompletionScenario` shows this.
- The same job id returned twice is appended twice (lines 103 and 128). Nothing treats a collision as an error.
- A payload whose parse throws is not reported by the component. The exception leaves the callback before any assignment, so the model leaves the state unchanged and shows no toast.
- The custom-object path shows no toast, on success or on failure.
- `hasResults` is also false while no result has arrived (`undefined`).
- `loading` is shared by both submission paths; the first call to settle turns it off even if another call is still outstanding (lines 105, 108, 129, 132). `OverlappingSubmissionsScenario` shows this.

## Model

| member | source | states |
|---|---|---|
| `ObjectOptions.CustomNameIff` | force-app/main/default/lwc/objectSelector/objectSelector.js:48 | a name is classified custom exactly when it is some text followed by `__c` |
| `ObjectOptions.PartitionNames` | force-app/main/default/lwc/objectSelector/objectSelector.js:45-53 | the single front-to-back scan produces exactly the reference standard and custom option sequences, in input order |
| `ObjectOptions.PartitionCounts` | force-app/main/default/lwc/objectSelector/objectSelector.js:47-53 | each name goes to the custom share as often as it occurs in the input if it ends in `__c`, and otherwise to the standard share; it never goes to the other list |
| `ObjectOptions.PartitionShape` | force-app/main/default/lwc/objectSelector/objectSelector.js:47-53 | every custom option has a custom name and every standard option a standard name; label and value are both that input name |
| `ObjectOptions.PartitionIsPermutation` | force-app/main/default/lwc/objectSelector/objectSelector.js:45-53 | the two shares together are, up to order, the options of all input names |
| `ObjectOptions.PartitionedLists` | force-app/main/default/lwc/objectSelector/objectSelector.js:44-57 | any permutations of the two shares (such as the sorted lists stored) hold each input name exactly as often as the input, custom names only in the custom list, others only in the standard list, as `{label: name, value: name}` |
| `ObjectOptions.SortOptionsAlphabetically` | force-app/main/default/lwc/objectSelector/objectSelector.js:38-40 | sorts the array in place so that labels are non-decreasing under the comparator, and the array keeps the same elements (a permutation) |
| `Metadata.ErrorMessage` | force-app/main/default/lwc/objectSelector/objectSelector.js:110-113 | the message is the error body's message when error, body and message are all present and the message is truthy, otherwise `Unknown error`; it is never empty |
| `Selector.ObjectSelector.constructor` | force-app/main/default/lwc/objectSelector/objectSelector.js:10-32 | both lists empty, no result, not loading, no job ids, no toasts, invariant established |
| `Selector.ObjectSelector.IsRelevantBatchJob` | force-app/main/default/lwc/objectSelector/objectSelector.js:194-197 | an id is relevant exactly when some position of the tracked ids holds it |
| `Selector.ObjectSelector.HasResults` | force-app/main/default/lwc/objectSelector/objectSelector.js:199-201 | true exactly when a result is present and holds at least one entry over the three categories; false for an absent result or an all-empty one |
| `Selector.ObjectSelector.ShowToast` | force-app/main/default/lwc/objectSelector/objectSelector.js:87-94 | appends exactly the `(title, message, variant)` triple to the toast log; every other field is unchanged |
| `Selector.ObjectSelector.WiredObjects` | force-app/main/default/lwc/objectSelector/objectSelector.js:42-61 | with data, each list becomes a label-sorted permutation of its share of the names; without data, both lists are unchanged; job ids, result, spinner and toasts never change |
| `Selector.ObjectSelector.HandleStdObjectProcessing` | force-app/main/default/lwc/objectSelector/objectSelector.js:96-101 | turns the spinner on; nothing else changes |
| `Selector.ObjectSelector.StdObjectProcessingSettled` | force-app/main/default/lwc/objectSelector/objectSelector.js:102-115 | on a job id: ids become old ids plus that id (no dedup), the id is relevant, and one `Success`/`Processing of standard objects started.`/`success` toast is shown; on a rejection: ids unchanged and one `Error` toast with the selected message; either way the spinner ends off, every previously relevant id stays relevant, and the lists and result are unchanged |
| `Selector.ObjectSelector.HandleCustomObjectProcessing` | force-app/main/default/lwc/objectSelector/objectSelector.js:119-126 | turns the spinner on; nothing else changes |
| `Selector.ObjectSelector.CustomObjectProcessingSettled` | force-app/main/default/lwc/objectSelector/objectSelector.js:127-134 | on a job id: ids become old ids plus that id, and the id is relevant; on a rejection: ids unchanged; no toast either way, the spinner ends off, earlier relevant ids stay relevant |
| `Selector.ObjectSelector.MessageCallback` | force-app/main/default/lwc/objectSelector/objectSelector.js:153-161 | for a tracked id with a parsed payload: the result becomes exactly that payload (replace, no merge) and exactly one `Success`/`Batch job completed successfully.`/`success` toast is appended; for an untracked id, or a payload whose parse throws: result and toasts unchanged; job ids, spinner and lists never change |
| `Selector.ObjectSelector.OnTransportError` | force-app/main/default/lwc/objectSelector/objectSelector.js:176-184 | one `Error` toast with the same message selection as a failed submission; nothing else changes |

## Left out

- Subscribing to and unsubscribing from the streaming channel, registering the error listener, the `subscription` handle, `channelName`, and the connected/disconnected lifecycle hooks (objectSelector.js lines 6, 34-35, 143-150, 163-174, 177). These are asynchronous calls into the `lightning/empApi` library. Only the bodies of the two callbacks are modelled.
- The Apex calls `getObjectNames`, `processStandardObjectMetadata` and `processCustomObjectMetadata`. These are network calls; their settled results are inputs. Promise scheduling is left out: each settlement runs as one step. The two selection sequences passed to Apex are not modelled.
- Parsing the payload text. The parser is a foreign library, so the parse result is an input. A payload that parses to anything other than `null` or an object with all three arrays is not modelled: a falsy value, or an object lacking one of the arrays. Such a value is still stored and still announced by a success toast (lines 157-158), and for an object lacking an array the `hasResults` getter may throw.
- `localeCompare`: it depends on the locale, so it is the abstract preorder `le`.
- ObjectOptions.SortOptionsAlphabetically: does not state that the sort is stable, although the JavaScript array sort is. The order of labels that the comparator treats as equal is therefore left open. The JavaScript method also returns the same array; the model's caller simply uses the sorted array.
- The four selection-change handlers and the `selected*` fields, and the two constant metadata-option lists (lines 13-28 and 63-85). The handlers only copy an event value into a field, and the lists are constants passed to the Apex calls.
- `console.log` and `console.error` output, including the only effect of the wire error branch, and the logging in a custom-path rejection.
- Building the `ShowToastEvent` and dispatching it, beyond recording the triple.
- `fetchResultsFromEvent` (lines 186-191). Nothing calls it, and it only repeats the replace-by-parse step.
- Non-string values in `error.body.message` and in job ids (for example `null` ids). Messages and ids are modelled as strings.
- force-app/main/default/lwc/compositeRequestResultViewer/compositeRequestResultViewer.js. It is a display getter that logs and tests an opaque property for keys; it has no state handling.
