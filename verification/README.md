# seqretary core, modelled in Dafny

seqretary is a Logseq plugin that adds a chat panel driven by "agent" pages.
This project models the plugin's logic that runs in sequence and holds
state. Host calls and UI rendering are not modelled. The parts are:

- **Query subscriptions** (`Query.dfy`, src/lib/query.ts).
  - `onQueryChanged` runs a Datascript query once.
  - On every database change notification it re-arms one trailing-edge
    debounced re-run.
  - It calls its handler only with a result that is not deep-equal to the
    last one delivered, and it logs and swallows failures.
  - It stops through the returned cleanup function or through an abort
    signal.
  - `useLogseqQuery` gates this on the host being ready and on `enabled`,
    and tracks `results`, `loading` and `error`.
  - The model has two layers:
    - a pure trace semantics (`Subscribe`, `Step`, `Run`), which the
      lemmas are about;
    - the classes `QuerySubscription` and `QueryHook`, whose methods update
      fields in place. Each method is proved to follow one step of that
      semantics.
- **Agents** (`AgentContext.dfy`, src/contexts/AgentContext.tsx).
  - `processBlocks` renders a block tree as indented text. For a non-empty
    forest in which no block content holds a newline, it is proved equal,
    line for line, to an independent pre-order outline. For any content,
    a parent renders as its content's lines followed by its children's
    lines indented by two spaces.
  - Agent pages are mapped to `AgentInfo` records.
  - `useAgent` builds the system-prompt query from an agent's name.
- **Page mentions** (`PageList.dfy`, src/components/PageList.tsx).
  - ArrowUp and ArrowDown move the selection cyclically, and Enter selects.
  - A mention renders as a `[[id]]` span.
  - Picking a suggestion inserts a mention node followed by a space.
- **Editor** (`Editor.dfy`, src/components/Editor.tsx): the plain text of
  editor content, and the Ctrl/Cmd+Enter submit shortcut.
- **Chat** (`ChatInterface.dfy`, src/components/ChatInterface.tsx): the
  submit guard, which appends a non-blank input as a user message and
  resets the input.
- **Utilities** (`Utils.dfy`, src/utils.ts):
  - the element tracker behind `observeElement`, which fires appear and
    disappear callbacks only on transitions;
  - the module-level visibility flag.
- Two support modules:
  - `Wrappers.dfy` holds `Option`.
  - `JsString.dfy` models the JavaScript string built-ins the core uses
    (`split`, `join`, `trim`). It proves the split/join round trips, and
    that `trim` gives the empty string exactly on blank input.

Lodash's deep `isEqual` is Dafny's structural `==` on values. Time is
discrete: a change notification arms or re-arms the debounce timer, the
timer fires, and cancelling disarms it. The outcome of a query evaluation,
and of the editor library's `generateText`, is a parameter.

## Model

| member | source | states |
|---|---|---|
| Query.Evaluate | src/lib/query.ts:21-38 | One evaluation. The handler gets the result exactly when the evaluation resolves to something different from `lastResults`. That result is then appended to the delivery log and becomes `lastResults`. A rejection delivers nothing and leaves the subscription state unchanged. Every call counts one evaluation. |
| Query.Subscribe | src/lib/query.ts:19-61 | Subscribing makes exactly one immediate evaluation and registers exactly one listener. No timer is armed. Something is delivered exactly when the first evaluation resolves to a non-null result, because `lastResults` starts as null. |
| Query.Step | src/lib/query.ts:41-73 | One event. Only a timer firing evaluates or delivers, and only when armed, once. Firing leaves the timer disarmed. A timer becomes armed only through a notification to a registered listener of an unaborted signal. Cleanup unregisters, disarms and unsubscribes once. No event unsubscribes more than once. A delivery appends the new `lastResults`. |
| Query.Run | src/lib/query.ts:9-74 | A run of events only extends the delivery log. It makes at most one evaluation and one unsubscribe per event. |
| Query.SubscribeEstablishesInv | src/lib/query.ts:19-61 | A fresh subscription satisfies the delivery-log and teardown invariant. |
| Query.EvaluateKeepsDeliveryLog | src/lib/query.ts:29-34 | After an evaluation, `lastResults` is still the last delivered result. The first delivery is still non-null. No two adjacent deliveries are deep-equal. |
| Query.StepKeepsInv | src/lib/query.ts:51-73 | Every event keeps the invariant: the delivery log, no armed timer without a listener, and no listener or timer after an abort. |
| Query.RunKeepsInv | src/lib/query.ts:9-74 | Every event sequence keeps the invariant. |
| Query.NoRepeatedDelivery | src/lib/query.ts:19-34 | On every run from subscription: the handler is never first called with null, never called twice in a row with deep-equal results, and `lastResults` is the last delivery. |
| Query.StepDelivery | src/lib/query.ts:29-37 | A delivery happens exactly when an armed timer fires with a resolved result different from `lastResults`, and it appends that result. A rejected evaluation delivers nothing and leaves the listener as it was. |
| Query.BurstArms | src/lib/query.ts:51-61 | While the listener is registered and the signal is not aborted, any burst of notifications only arms the timer. Nothing is evaluated. |
| Query.BurstThenFire | src/lib/query.ts:41-61 | A burst of notifications followed by one timer firing makes exactly one evaluation. The timer is then disarmed and the listener stays registered. |
| Query.TornDownStaysQuiet | src/lib/query.ts:63-73 | With neither a listener nor an armed timer, no later event evaluates, delivers or re-arms. |
| Query.NoEvaluationAfterCleanup | src/lib/query.ts:70-73 | After cleanup, no later event causes an evaluation or a delivery. Cleanup unsubscribes. |
| Query.NoEvaluationAfterAbort | src/lib/query.ts:64-67 | After the signal aborts, no later event causes an evaluation or a delivery. |
| Query.AbortedListenerUnreachable | src/lib/query.ts:53-57 | In no reachable state is the listener still registered while the signal reads as aborted. The listener's early exit never runs. |
| Query.HookTeardownUnsubscribesTwice | src/lib/query.ts:122-125 | The hook's teardown (cleanup, then abort) leaves no listener and no timer. It changes no evaluation or delivery. It calls the host's unsubscribe twice. |
| Query.EqualResultsDeliveredOnce | src/lib/query.ts:29-34 | Two notification-and-fire rounds resolving to the same result, then a round resolving to a different one, make three evaluations. They deliver the first result at most once, and only if it differs from `lastResults`, and then the different result. |
| Query.QuerySubscription.constructor | src/lib/query.ts:19-61 | The closure state after `onQueryChanged` is `Subscribe`'s state. |
| Query.QuerySubscription.RunQuery | src/lib/query.ts:21-38 | `runQuery` updates the fields as `Evaluate` does. It returns the handler's argument exactly when a delivery was logged. |
| Query.QuerySubscription.Notify | src/lib/query.ts:51-61 | The change listener updates the fields as one `Changed` step does. It arms the timer when listening and not aborted. |
| Query.QuerySubscription.TimerFire | src/lib/query.ts:41-44 | The debounced run updates the fields as one timer step does. It leaves the timer disarmed and returns the delivered result, if any. |
| Query.QuerySubscription.Cleanup | src/lib/query.ts:70-73 | Cleanup cancels the timer and unregisters the listener, as the `CleanedUp` step does. |
| Query.QuerySubscription.Abort | src/lib/query.ts:64-67 | The abort listener cancels the timer and unregisters the listener on the first abort of a passed signal, as the `Aborted` step does. |
| Query.QueryHook.constructor | src/lib/query.ts:88-90 | The hook starts with empty results, `loading` true and no error. |
| Query.QueryHook.RunEffect | src/lib/query.ts:92-120 | When not ready or disabled, `loading` becomes false, nothing is subscribed and results are kept. Otherwise a subscription with a signal is made. `loading` stays true and earlier results stay until its first delivery. |
| Query.QueryHook.Changed | src/lib/query.ts:104-120 | A notification reaches the subscription and does not change `results` or `loading`. |
| Query.QueryHook.TimerFired | src/lib/query.ts:106-113 | A delivery sets `results` to the delivered result and `loading` to false. Otherwise both stay. `error` is never set. |
| Query.QueryHook.Teardown | src/lib/query.ts:122-125 | Teardown runs cleanup and then abort on the subscription. Afterwards it has no listener and no timer. |
| JsString.Split | src/contexts/AgentContext.tsx:109 | `split("\n")` gives at least one part, and no part holds the separator. Joining the parts gives back the string (`JsString.JoinSplit`). |
| JsString.Join | src/contexts/AgentContext.tsx:111-113 | `join` of no parts is empty. Otherwise the result starts with the first part, followed by the separator when there are more parts. Splitting a join of separator-free lines gives them back (`JsString.SplitJoin`). |
| JsString.Trim | src/components/ChatInterface.tsx:31-35 | `trim()` leaves no white space at either end. It is empty exactly when the string is blank (`JsString.TrimBlank`). |
| JsString.TrimBlank | src/components/ChatInterface.tsx:31-35 | `trim()` of a string is empty exactly when the string is all ECMAScript white space. |
| AgentContext.RenderBlock | src/contexts/AgentContext.tsx:104-111 | A block's rendering starts with its content, and equals its content exactly when it has no children. Its lines are specified by `RenderParentLines` and `ProcessBlocksOutline`. |
| AgentContext.ProcessBlocks | src/contexts/AgentContext.tsx:102-114 | No blocks render as the empty string. Otherwise the rendering starts with the first block's. Also specified by `ProcessBlocksCons` and `ProcessBlocksOutline`. |
| AgentContext.ProcessBlocksEmpty | src/contexts/AgentContext.tsx:102-114 | `processBlocks([])` is the empty string. |
| AgentContext.RenderLeaf | src/contexts/AgentContext.tsx:105-107 | A block without children renders as exactly its content. |
| AgentContext.RenderParentLines | src/contexts/AgentContext.tsx:108-111 | A block with children renders as the lines of its content, then every line of its children's rendering prefixed with two spaces. No condition on newlines in the content. |
| AgentContext.ProcessBlocksCons | src/contexts/AgentContext.tsx:103-113 | Sibling renderings are joined by a newline in input order. |
| AgentContext.RenderBlockOutline | src/contexts/AgentContext.tsx:104-111 | When no content in a block's tree holds a newline, the block's rendered lines are its outline at depth 0. |
| AgentContext.ProcessBlocksOutline | src/contexts/AgentContext.tsx:102-114 | When no content contains a newline, the lines of `processBlocks` are exactly the pre-order outline. There is one line per block, and a block at depth d starts with 2·d spaces. |
| AgentContext.Flat | src/contexts/AgentContext.tsx:62 | Every page of every row is in the flattened list. `FlatRow` and `FlatAppend` together fix it completely: rows in order, each row's pages once each in their own order. |
| AgentContext.FlatRow | src/contexts/AgentContext.tsx:62 | A single row flattens to exactly itself. |
| AgentContext.FlatAppend | src/contexts/AgentContext.tsx:62 | The flattening of concatenated rows is the concatenation of their flattenings. |
| AgentContext.FlatOnlyRows | src/contexts/AgentContext.tsx:62 | Everything in the flattened list comes from some row. |
| AgentContext.ToAgent | src/contexts/AgentContext.tsx:62-66 | `id` is the page's uuid and `name` is its name. The description is used when present and non-empty, and "No description available" otherwise. |
| AgentContext.Agents | src/contexts/AgentContext.tsx:61-67 | There is one `AgentInfo` per page of the flattened rows, in order. Agent i is page i mapped by `ToAgent`: its uuid, its name, and its description or the default. No description is empty. |
| AgentContext.AgentsAppend | src/contexts/AgentContext.tsx:61-67 | The mapping preserves the order of the result rows. |
| AgentContext.AgentsOfSingletonRows | src/contexts/AgentContext.tsx:61-67 | With one page per row, agent i is the mapping of row i's page. |
| AgentContext.AgentQuery | src/contexts/AgentContext.tsx:116-131 | The query is empty exactly when the subscription is disabled, that is, when there is no agent name. Otherwise it starts with the fixed template prefix, which ends in a quote, ends with the fixed suffix, which starts with a quote, and holds the name verbatim and unescaped between them. |
| AgentContext.AgentQueryDeterminesName | src/contexts/AgentContext.tsx:116-126 | Two enabled agents get the same query exactly when they have the same name. |
| PageList.ArrowDown | src/components/PageList.tsx:47-50 | ArrowDown keeps an index in range on a non-empty list. On an empty list, or from NaN, it gives NaN. |
| PageList.ArrowUp | src/components/PageList.tsx:42-45 | ArrowUp keeps an index in range on a non-empty list. On an empty list, or from NaN, it gives NaN. |
| PageList.ArrowsInverse | src/components/PageList.tsx:42-50 | On an index in range, ArrowUp undoes ArrowDown and ArrowDown undoes ArrowUp. |
| PageList.PressDownForward | src/components/PageList.tsx:47-50 | Before the end of the list, k presses of ArrowDown advance the index by k. |
| PageList.ArrowDownWraps | src/components/PageList.tsx:47-50 | n presses of ArrowDown over n pages return to the starting index. |
| PageList.PageAt | src/components/PageList.tsx:32-33 | `pages[index]` exists exactly for an index in range, and it is that page. |
| PageList.Visible | src/components/PageList.tsx:80 | The list shows all pages when there are ten or fewer, and exactly the first ten otherwise. |
| PageList.SelectionCanLeaveVisible | src/components/PageList.tsx:43-80 | With eleven pages, ArrowUp from the first selects index 10, which is not among the ten listed. |
| PageList.Selection | src/components/PageList.tsx:30-36 | Selecting calls `command` once, with id and label both the page's name, exactly when the page exists. Otherwise it makes no call. |
| PageList.MentionList.SelectItem | src/components/PageList.tsx:30-38 | `selectItem` logs the call `Selection` specifies and changes nothing else. |
| PageList.MentionList.OnKeyDown | src/components/PageList.tsx:40-61 | The key is handled exactly for ArrowUp, ArrowDown and Enter. The arrows move the index as `ArrowUp`/`ArrowDown` specify. Enter selects the current index and is the only key whose default action is prevented. Any other key changes nothing. |
| PageList.MentionList.constructor | src/components/PageList.tsx:27-28 | The list starts with the pages found and the selected index 0, with no `command` call made. |
| PageList.MentionList.SetPages | src/components/PageList.tsx:27-28 | New search results replace the pages. The selected index is kept as it is, and no call is made. |
| PageList.RenderMention | src/components/PageList.tsx:112-122 | The span's `data-id` is the id, and its text reads back, through the `[[…]]` link parser, as exactly that id. |
| PageList.InsertMention | src/components/PageList.tsx:190-206 | The typed range is replaced by the mention node followed by a single-space text node. Everything before and after the range is kept. |
| Editor.TextOf | src/components/Editor.tsx:22-35 | `generateTextFromContent`. It has no contract of its own and is specified by lemmas `TextOfCases`, `TextOfItemsAppend` and `TextOfSingleton`. |
| Editor.TextsOf | src/components/Editor.tsx:28 | The array's element texts, one per element. |
| Editor.TextOfCases | src/components/Editor.tsx:22-35 | A string is its own text. Null has the empty text. An empty array has the empty text. A document is handed to `generateText`. |
| Editor.TextOfItemsAppend | src/components/Editor.tsx:27-28 | The text of an array is the in-order concatenation of its elements' texts. |
| Editor.TextOfSingleton | src/components/Editor.tsx:27-28 | A one-element array has its element's text. |
| Editor.HandleKeyDown | src/components/Editor.tsx:76-83 | The default action is prevented exactly on Enter with Ctrl or Meta. `onSubmit` is called exactly then, and only when one was given. |
| ChatInterface.Submittable | src/components/ChatInterface.tsx:30-37 | The submit guard stated without `trim`. It is a predicate with no contract of its own and is tied to `trim` by `JsString.TrimBlank` inside `Chat.HandleSubmit`. |
| ChatInterface.Chat.constructor | src/components/ChatInterface.tsx:16-20 | The chat starts with no messages and the empty document as input. |
| ChatInterface.Chat.InputChanged | src/components/ChatInterface.tsx:24-26 | The editor's document becomes the input. Messages are kept. |
| ChatInterface.Chat.HandleSubmit | src/components/ChatInterface.tsx:28-44 | Null input, a blank string, or content with blank text leaves messages and input unchanged. Otherwise the input is appended as a user message after the unchanged earlier messages, and the input is reset to the empty document. Every message keeps the user role. |
| ChatInterface.Chat.EditorKeyDown | src/components/ChatInterface.tsx:74-78 | Ctrl/Cmd+Enter in the input editor submits as `HandleSubmit` does. Any other key changes nothing. |
| Utils.NotifyStep | src/utils.ts:37-46 | Afterwards the tracked element is the one found. Appear is reported, with the found element, exactly when a different element is found. Disappear is reported exactly when none is found and one was tracked. |
| Utils.NotifyIdempotent | src/utils.ts:37-46 | A second `notify` on an unchanged DOM reports nothing. |
| Utils.CallsFor | src/utils.ts:41-44 | A transition makes at most one callback call. An appearance calls the appear callback, when set, with the found element. A disappearance calls the disappear callback, when set. Nothing else calls anything. |
| Utils.ElementObserver.constructor | src/utils.ts:32-52 | An element already present at creation is tracked silently. No callbacks are set and the observer is connected. |
| Utils.ElementObserver.Notify | src/utils.ts:37-46 | `notify` updates the tracked element as `NotifyStep` does and logs the matching callback call. |
| Utils.ElementObserver.Mutation | src/utils.ts:48-49 | A DOM mutation runs `notify` only while connected. |
| Utils.ElementObserver.OnAppear | src/utils.ts:55-58 | Replaces the appear callback and returns the same observer. |
| Utils.ElementObserver.OnDisappear | src/utils.ts:59-62 | Replaces the disappear callback and returns the same observer. |
| Utils.ElementObserver.Disconnect | src/utils.ts:63-65 | Later mutations are no longer observed. Nothing else changes. |
| Utils.VisibilityStore.constructor | src/utils.ts:4 | `_visible` starts as the host's main-UI visibility. |
| Utils.VisibilityStore.VisibleChanged | src/utils.ts:16-20 | A visibility event sets `_visible` before `onChange` runs. The snapshot `useAppVisible` reads (utils.ts:23) afterwards is the event's value, and the value `onChange` observes is that new value. |

## Left out

- Asynchronous interleaving: an evaluation is one atomic step. The code
  does not check for cancellation after awaiting the host's query, so a
  result can reach the handler after cleanup. The model does not split
  evaluation into start and completion, and it claims nothing about that
  race.
- Wall-clock time, the 300 ms default interval and `debounceMs`: a
  notification arms the timer and the timer fires, with no durations.
- The query text and `inputs` passed to `datascriptQuery`: the host's
  answer is the `Outcome` parameter. `inputs` identity as an effect
  dependency belongs to React scheduling, which is not modelled.
- Re-running the hook's effect when its dependencies change is modelled as
  `Teardown` followed by `RunEffect`. The React scheduler is not modelled.
- Console logging throughout.
- Host and library calls (`logseq.DB.onChanged`, `logseq.on`/`off`,
  `MutationObserver`, `querySelector`, lodash `debounce`) are events or
  parameters. The editor library's `generateText` is a function parameter.
- `subscribeLogseqEvent`'s handler registration and the
  `useSyncExternalStore` glue of `useAppVisible`: only the flag update and
  the snapshot are modelled.
- Callbacks are identified by a number: what a callback does is outside
  `observeElement`.
- JSX rendering, the tippy popup management of the mention suggestion, the
  `usePageSearch` hook (it is not part of this model, so the pages are an
  input), src/main.tsx, src/App.tsx, src/components/AgentSelect.tsx,
  src/components/LogseqReadyProvider.tsx and vite.config.ts.
- The editor document is modelled as a flat sequence of inline nodes, with
  `from`/`to` as positions in it. The editor library's position mapping is
  not modelled.
- A page's `properties` map is reduced to its optional `description`.
- AgentContext.Agents: modelled for non-null query results only. When the
  agent-list query delivers null, `pages.flat()` throws a TypeError,
  because the `?.` follows `.flat()`. The model does not represent that
  exception.
- ChatInterface.Chat.HandleSubmit: the `e?.preventDefault()` call on the
  optional form event is not modelled. The submit guard and the state
  update are.
- A block's missing `block/children` is modelled as the empty sequence,
  which the code treats the same way.

## Behaviour worth noting

The model states each of these as the code behaves.

- `error` is never set by a failed evaluation. Failures are only logged in
  `runQuery`, and `setError` runs only if `setResults` throws, which it
  does not. `QueryHook.Valid` records `!error`.
- When the hook is not ready or is disabled, it sets `loading` to false.
- When the first evaluation fails, `loading` stays true until a later
  delivery.
- An empty query string is not gated inside `onQueryChanged`: only the
  hook's `enabled` flag gates it.
- A null result is delivered whenever `lastResults` is not null. Only the
  first delivery is guaranteed non-null (`NoRepeatedDelivery`).
- Cancelling twice is not guarded: the hook's teardown calls the host's
  unsubscribe twice (`HookTeardownUnsubscribesTwice`).
- The aborted-signal exit of the change listener cannot run
  (`AbortedListenerUnreachable`).
