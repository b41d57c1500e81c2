# Conversation and task engine of a customer-support agent app

This project is a Dafny model of the logic behind a chat-based support agent.
The web client and the server are modelled separately.

**Web client**
- **Chat store.** A list of chats, newest first, and the active chat. Chats are added at the front, and messages are appended to the chat with a given id. `getRecentChats` sorts the list in place by creation time and returns the first few.
- **Task store.** Task lists keyed by category. `addTask` gives the new task an id one above the largest id in the store. `updateTask` replaces tasks by id, and `removeTask` filters them out by id.
- **Template table.** Scripted conversations keyed by task title, looked up by exact title with a fallback to `default`.
- **Two scripted progression engines.**
  - `AgentChat` posts the template's initial message when a chat is empty. After that, each user message gets the next scripted reply.
  - `ChatTimeline` posts the initial message and the first reply. After that, each user message gets the reply after the current index.
  - Both fire their delayed appends from timers, which the model treats as explicit pending events.
- **Task catalogue.** Sixteen built-in tasks in five categories, merged with the store's tasks. Store tasks that reuse a default id are dropped, and the result is sorted newest first. Clicking a task opens a chat for it.
- **Message box gate.** A message can be sent only when it has something besides white space and no send is in flight.
- **Status-badge colour of a task card.**

**Server**
- **Chat schema.** Required fields, the role enum, defaults, and the pre-save hook that stamps `updatedAt`.
- **Chat handlers.** These cover creating a chat, sending a message, listing chats and fetching a chat.
  - They act on an in-memory collection.
  - They only ever touch the requesting user's chats.
  - Replies come from an abstract generator that answers or fails.

Three kinds of source become three kinds of Dafny:
- Stateful sources become classes whose methods are proved equal to pure functions of the old state. The classes are `ChatStore.Store`, `TaskStore.TaskStore`, the two view classes, `ChatInput.ChatInputField`, `TaskCategories.TaskCategoriesView` and `ChatController.ChatCollection`.
- The properties are proved as lemmas about those pure functions.
- The `allTasks` loop is a method with a loop invariant.

The modules are:

| module | what it holds |
|---|---|
| `Wrappers` | an `Option` type |
| `JsArrays` | `Array.prototype.sort` with a descending numeric comparator, modelled as a stable insertion sort, plus `slice(0, n)` |
| `ChatStore` | the client chat store |
| `TaskStore` | the client task store |
| `ChatResponses` | the template table |
| `AgentChat` | the `AgentChat` engine |
| `ChatTimeline` | the `ChatTimeline` engine |
| `TaskCategories` | the task catalogue |
| `ChatInput` | the message box gate |
| `TaskCard` | the status-badge colour |
| `ChatModel` | the server schema |
| `ChatController` | the server handlers |

## Model

| member | source | states |
|---|---|---|
| JsArrays.SortDescCorrect | src/store/chatStore.ts:63-64 | sorting with a `b - a` comparator yields a permutation of the input, ordered by descending key |
| JsArrays.SortDescStable | src/store/chatStore.ts:63-64 | the sort is stable: for every key, the elements with that key come out in the order they went in |
| JsArrays.TopOfSort | src/store/chatStore.ts:63-65 | sort-then-slice returns `min(n, length)` elements in descending order, drawn from the input, and none of them ranks below an element left out |
| ChatStore.Store.constructor | src/store/chatStore.ts:27-29 | the store starts with no chats and no active chat |
| ChatStore.Store.SetActiveChat | src/store/chatStore.ts:31 | stores any id, or none, as the active chat without checking it exists; the chats are untouched |
| ChatStore.Store.AddChat | src/store/chatStore.ts:33-43 | the new chat goes at index 0 with the fresh id; all earlier chats follow in their order; it becomes active; its id is returned |
| ChatStore.Store.AddMessage | src/store/chatStore.ts:45-59 | the chats become those of the append function (properties below); the active chat is unchanged |
| ChatStore.AppendMessageAt | src/store/chatStore.ts:48-57 | the number of chats is kept; chats with another id are unchanged; each chat with the id gains exactly the new message, at the end |
| ChatStore.AppendMessageKeepsHistory | src/store/chatStore.ts:49-57 | every chat keeps its id, title, creation time and task link, and its old messages as a prefix |
| ChatStore.AppendMessageUnknownId | src/store/chatStore.ts:48-58 | with an id no chat has, nothing changes |
| ChatStore.FindFirst | src/components/ui/AgentChat.tsx:10 | `find` succeeds exactly when a chat has the id, and then returns the first such chat |
| ChatStore.FindAfterAppend | src/store/chatStore.ts:48-57 | appending a message never changes which chat `find` resolves; the resolved chat gains the message only when it is the target |
| ChatStore.Store.GetRecentChats | src/store/chatStore.ts:61-66 | sorts the stored chats in place into a creation-time-descending permutation of the old ones; returns their first `limit`, default 5; the active chat is unchanged |
| ChatStore.RecentChats | src/store/chatStore.ts:61-66 | returns `min(limit, count)` chats, newest first, drawn from the store, none older than a chat left out |
| ChatStore.GetRecentChatsTwice | src/store/chatStore.ts:62-64 | a second in-place sort leaves the order as it is |
| TaskStore.TaskStore.constructor | src/store/taskStore.ts:22-28 | the store starts with exactly the five categories, each empty, in their order |
| TaskStore.TaskStore.AddTask | src/store/taskStore.ts:29-41 | the new record is the `addTask` value, and categories stay distinct |
| TaskStore.MaxIdBounds | src/store/taskStore.ts:32 | `Math.max(0, ...ids)` is at least 0 and at least every id, and it is 0 or one of the ids |
| TaskStore.NextTaskIdFresh | src/store/taskStore.ts:32 | the assigned id is at least 1 and above the id of every task in every category |
| TaskStore.AddedTaskEffect | src/store/taskStore.ts:29-40 | the category, created if absent, gains one task at its end; the task has the fresh id, the draft's fields and the current time, whatever the caller passed; every other category is unchanged |
| TaskStore.PutGet | src/store/taskStore.ts:36-39 | writing a category reads back as written, and every other category reads as before |
| TaskStore.PutAt | src/store/taskStore.ts:36-39 | writing keeps each category at its position, and a new category is appended at the end, which is the object spread's key order for categories that are not array-index strings |
| TaskStore.PutKeys | src/store/taskStore.ts:36-39 | writing keeps the categories distinct and in order, and adds the category at the end when it is new |
| TaskStore.FlattenHas | src/store/taskStore.ts:58-59 | every task of every category is in the flattened list |
| TaskStore.ReplaceByIdAt | src/store/taskStore.ts:45-47 | the mapped list has the same length; exactly the tasks with the updated id are replaced |
| TaskStore.RemoveByIdCounts | src/store/taskStore.ts:53 | filtering drops every occurrence of a task with that id and keeps every other task as often as it occurred |
| TaskStore.RemoveByIdAppend | src/store/taskStore.ts:53 | filtering keeps the order of the tasks it keeps |
| TaskStore.UpdateRemoveFrame | src/store/taskStore.ts:42-55 | update and remove succeed exactly when the category exists; they rewrite only that category and leave every other category unchanged |
| TaskStore.TaskStore.UpdateTask | src/store/taskStore.ts:42-49 | stores the updated record when the category exists; otherwise reports failure and keeps the state, where the source throws |
| TaskStore.TaskStore.RemoveTask | src/store/taskStore.ts:50-55 | stores the filtered record when the category exists; otherwise reports failure and keeps the state, where the source throws |
| TaskStore.GetRecentTasks | src/store/taskStore.ts:56-62 | at most five tasks from all categories, newest first, drawn from the store, none older than a task left out |
| ChatResponses.GetChatResponseByTask | src/data/chatResponses.ts:138-140 | the lookup is total: a key returns its template and any other title the `default` one; the result is always a table entry and well formed |
| ChatResponses.TableWellFormed | src/data/chatResponses.ts:22-135 | the table has exactly four titles, one of them `default`; every template has steps at 0/1000/2000/3000 ms with only the last `current`, three links, and three responses of which only the first has no user line |
| ChatResponses.LookupIsCaseSensitive | src/data/chatResponses.ts:139 | `track my order` falls back to the default template, which differs from `Track My Order`'s |
| AgentChat.AgentChatView.constructor | src/components/ui/AgentChat.tsx:13-15 | a mounted component has index 0, is not typing, has the guard unset and has no pending timers |
| AgentChat.AgentChatView.RunEffect | src/components/ui/AgentChat.tsx:17-31 | the view becomes the entry step's view; the effect never writes the store |
| AgentChat.AgentChatView.HandleSendMessage | src/components/ui/AgentChat.tsx:33-54 | store and view become the as-written send step's; the active chat is unchanged |
| AgentChat.AgentChatView.FireTimer | src/components/ui/AgentChat.tsx:22-29 | store and view become the as-written timer step's: the oldest 1200 ms callback runs |
| AgentChat.EntryIdempotent | src/components/ui/AgentChat.tsx:17-31 | the effect schedules something exactly when the chat exists, is empty and the guard is unset; running it again schedules nothing more |
| AgentChat.SendEffect | src/components/ui/AgentChat.tsx:33-54 | sending to a missing chat does nothing; otherwise the user message is appended first; the reply at `responseIndex` is scheduled exactly when the script has one; the index stays put |
| AgentChat.FireReply | src/components/ui/AgentChat.tsx:44-52 | a reply callback appends its text as an assistant message and sets the index past its own |
| AgentChat.SupportLinksStay | src/components/ui/AgentChat.tsx:69 | once the chat has more than one message and the template has links, no step hides them |
| AgentChat.RunInv | src/components/ui/AgentChat.tsx:13-54 | after any events: the index is within the script; every scheduled reply is the script's line at its index; the initial message is scheduled at most once, after the guard is set |
| AgentChat.InitialMessageAtMostOnce | src/components/ui/AgentChat.tsx:15-20 | from a mounted component, the initial message is scheduled at most once and the index never passes the script's end |
| AgentChat.ExhaustedStaysExhausted | src/components/ui/AgentChat.tsx:41-42 | once the script is used up and no reply is pending, the index never moves and no reply is ever scheduled again |
| AgentChat.DuplicateReplyAsWritten | src/components/ui/AgentChat.tsx:41-50 | two sends before the first reply lands give the chat `responses[0]` twice, and the index ends at 1 |
| AgentChat.ReservedRepliesInOrder | src/components/ui/AgentChat.tsx:41-50 | when the index is reserved as the reply is scheduled, the replies scheduled are lines 0, 1, 2, ... in order, each once |
| ChatTimeline.ChatTimelineView.constructor | src/components/ui/ChatTimeline.tsx:12-15 | a mounted component has index 0, no input, is not typing, has the guard unset and has no pending timers |
| ChatTimeline.ChatTimelineView.RunEffect | src/components/ui/ChatTimeline.tsx:25-51 | the view becomes the entry step's view: the initial message is scheduled once for an empty active chat, or the input is shown for a non-empty one |
| ChatTimeline.ChatTimelineView.HandleSendMessage | src/components/ui/ChatTimeline.tsx:54-75 | store and view become the as-written send step's: user message first, then the reply at `responseIndex + 1` if the script has one |
| ChatTimeline.ChatTimelineView.FireTimer | src/components/ui/ChatTimeline.tsx:31-73 | store and view become the as-written timer step's for the pending callback chosen |
| ChatTimeline.RunKeeps | src/components/ui/ChatTimeline.tsx:25-75 | after any events, the timeline invariant holds: scheduled messages are scripted, the initial message and first reply are tallied at most once, and the index is bounded |
| ChatTimeline.MountedRun | src/components/ui/ChatTimeline.tsx:25-75 | from a mounted component, under any sequence of its own effect runs, sends, timer callbacks and chat selections: the initial message and the first reply are each scheduled at most once; the index is 0 or below `cap`, a bound on every template's script length (not only the active chat's); every scheduled message is its chat's scripted text |
| ChatTimeline.SendEffect | src/components/ui/ChatTimeline.tsx:54-75 | for every store, index and progression: with no active chat nothing changes. Otherwise the user's message is appended to the active chat at once. The reply at `responseIndex + 1` is scheduled for that chat exactly when the script has that line. As written the index does not move at send time. Without such a line the view is unchanged |
| ChatTimeline.SendAtIndexZero | src/components/ui/ChatTimeline.tsx:54-73 | a send at index 0 appends the user message and schedules `responses[1]` |
| ChatTimeline.FireSecondReply | src/components/ui/ChatTimeline.tsx:65-73 | the reply callback for line 1 appends it and sets the index to 1 |
| ChatTimeline.DuplicateReplyAsWritten | src/components/ui/ChatTimeline.tsx:62-71 | two sends before the reply lands give the chat `responses[1]` twice, and the index ends at 1 |
| ChatTimeline.ReservedRepliesOnce | src/components/ui/ChatTimeline.tsx:62-71 | when the index is reserved as the reply is scheduled, the replies scheduled are lines 1 to `responseIndex`, each exactly once |
| ChatTimeline.OpeningTurn | src/components/ui/ChatTimeline.tsx:25-51 | for an empty chat, the steps show and the input does not. Once the initial message and then `responses[0]` have landed, in that order, the steps are gone, the input shows, and the support links show under the second message |
| ChatTimeline.FireTargetsScheduledChat | src/components/ui/ChatTimeline.tsx:31-73 | a callback appends to the chat it was scheduled for, whichever chat is active, and never changes the active chat |
| TaskCategories.CategoryOf | src/components/ui/TaskCategories.tsx:83 | a key names a category only if it is that category's key |
| TaskCategories.CategoryOfKey | src/components/ui/TaskCategories.tsx:83 | each category's key names that category, so store keys outside the five are ignored |
| TaskCategories.DefaultIdsConsecutive | src/components/ui/TaskCategories.tsx:27-54 | each category's defaults carry consecutive ids from 1, 5, 8, 11 and 14, ending where the next run starts |
| TaskCategories.DefaultIdsUnique | src/components/ui/TaskCategories.tsx:27-54 | every default id is between 1 and 16, and no two defaults share an id |
| TaskCategories.DefaultIdsCover | src/components/ui/TaskCategories.tsx:27-54 | every id from 1 to 16 belongs to some default |
| TaskCategories.DefaultsUndated | src/components/ui/TaskCategories.tsx:27-54 | no default has a creation time, so each sorts under the key 0 |
| TaskCategories.FreshCounts | src/components/ui/TaskCategories.tsx:85-86 | a store task is kept exactly when its id is not a default id; the filter never lengthens the list, and drops nothing exactly when no id collides |
| TaskCategories.FreshMultiplicity | src/components/ui/TaskCategories.tsx:85-86 | a store task whose id is not a default id is kept as often as it occurs, duplicates included; one with a default id is not kept at all |
| TaskCategories.FreshAppend | src/components/ui/TaskCategories.tsx:86 | the filter keeps the store's order: it distributes over concatenation |
| TaskCategories.MergeCorrect | src/components/ui/TaskCategories.tsx:85-91 | a merged list is sorted by creation time descending, a missing one counting as 0; it holds exactly the defaults plus the store tasks whose id is not a default id, as a multiset |
| TaskCategories.AllTasks | src/components/ui/TaskCategories.tsx:79-96 | the result has every category: merged when the store has its key, the defaults unchanged otherwise |
| TaskCategories.CountsAgree | src/components/ui/TaskCategories.tsx:71-118 | the count the effect stores is never below the tab's count, `allTasks[c].length`; they agree exactly when no store task reuses a default id of its category |
| TaskCategories.TaskCategoriesView.constructor | src/components/ui/TaskCategories.tsx:65-67 | the first tab is active, nothing is loading, and every count is 0 |
| TaskCategories.TaskCategoriesView.UpdateCounts | src/components/ui/TaskCategories.tsx:71-77 | every category's count becomes its default count plus its store task count |
| TaskCategories.TaskCategoriesView.SelectTab | src/components/ui/TaskCategories.tsx:122-123 | a tab click switches tabs unless a task click is in progress |
| TaskCategories.TaskCategoriesView.HandleTaskClick | src/components/ui/TaskCategories.tsx:100-111 | a click puts a chat first in the store with the task's title, no messages and the task's id, and makes it active; loading ends unset |
| ChatInput.ChatInputField.constructor | src/components/ui/ChatInput.tsx:12 | the field starts empty |
| ChatInput.ChatInputField.Change | src/components/ui/ChatInput.tsx:40 | the field takes the typed value as is |
| ChatInput.ChatInputField.HandleSubmit | src/components/ui/ChatInput.tsx:14-20 | the untrimmed message is sent exactly when the gate passes, and the field is then cleared; otherwise nothing is sent and the field is kept |
| ChatInput.TrimShape | src/components/ui/ChatInput.tsx:16 | `trim()` returns the part of the message after its leading white space and before its trailing white space; the result neither starts nor ends with white space |
| ChatInput.TrimEmpty | src/components/ui/ChatInput.tsx:16 | the trimmed message is empty exactly when every character is white space |
| ChatInput.TrimIdempotent | src/components/ui/ChatInput.tsx:16 | trimming twice removes nothing more |
| ChatInput.DisabledIffRejected | src/components/ui/ChatInput.tsx:61 | the button is disabled exactly when the submit gate rejects, that is, when loading or when the message is all white space |
| TaskCard.ToLower | src/components/ui/TaskCard.tsx:17 | no upper-case ASCII letter is left; each one becomes its lower-case letter in place and every other character is kept, so the length is kept |
| TaskCard.ToLowerFixedPoint | src/components/ui/TaskCard.tsx:17 | lower-casing leaves a text unchanged exactly when it holds no upper-case letter, so a second lower-casing changes nothing |
| TaskCard.LowerKeepsDollar | src/components/ui/TaskCard.tsx:17-27 | a status contains `$` exactly when its lower-cased form does |
| TaskCard.StatusColorCases | src/components/ui/TaskCard.tsx:16-32 | the four colours, each characterised both ways: blue for "in progress"; green for "resolved" or "available"; purple for any other status with `$`; grey for "open" and everything else |
| TaskCard.StatusColorIgnoresCase | src/components/ui/TaskCard.tsx:17 | statuses equal up to case get the same colour |
| TaskCard.CatalogueStatuses | src/components/ui/TaskCard.tsx:16-32 | the catalogue's statuses map as designed: "In Progress" to blue, "Open" to grey, "Available" to green, and "$25 Saved" and "$40 Saved" to purple |
| ChatModel.ParseRole | backend/src/models/chat.js:4-8 | a role is accepted exactly when present and one of `user` and `assistant` |
| ChatModel.CastMessage | backend/src/models/chat.js:3-17 | a message is accepted exactly when its role is valid and its content present and non-empty; its timestamp is the given one, or else the time of creation |
| ChatModel.CastRoundTrip | backend/src/models/chat.js:3-17 | a stored message, submitted again, casts back to itself exactly when its content is not empty, and is rejected otherwise |
| ChatModel.ValidMessagesCast | backend/src/models/chat.js:19-29 | a chat is valid exactly when it has a user and a title and each of its messages passes the message schema unchanged |
| ChatModel.PreSave | backend/src/models/chat.js:41-44 | every save sets `updatedAt` to the time of saving and changes nothing else |
| ChatModel.PreSaveKeepsValid | backend/src/models/chat.js:19-44 | the hook neither makes a record valid nor invalid, and saving twice at one time is like saving once |
| ChatController.FindOwned | backend/src/controllers/chat.js:35 | a chat is found only when both its id and its owner match, and otherwise no such chat exists |
| ChatController.TitleShape | backend/src/controllers/chat.js:14 | the title is the message's first 50 characters followed by `...`, added even to a short message |
| ChatController.ContextProjects | backend/src/controllers/chat.js:41-44 | the context holds every earlier message, in order, as role and content |
| ChatController.CreateChatEffect | backend/src/controllers/chat.js:4-27 | the generator gets only the user's message. A chat is created exactly when it answers, the user is given, the message and reply are non-empty and the id is new. The new chat is appended with the requester as owner, the truncated title, [user message, reply], and both times set to now. Otherwise the answer is a server error and nothing is stored |
| ChatController.SendMessageNotFound | backend/src/controllers/chat.js:35-38 | a chat not owned by the requester is never found, and nothing changes. When sending and when fetching, a well-formed ObjectId gets 404 and any other id gets a server error |
| ChatController.MalformedIdFails | backend/src/controllers/chat.js:35-91 | a `chatId` that is not 24 hexadecimal digits fails the query's cast, so both `sendMessage` and `getChat` answer with a server error, and exactly then. Nothing is stored |
| ChatController.SendMessageFailure | backend/src/controllers/chat.js:41-60 | when generation fails, nothing is stored, not even the user's message, and the answer is a server error |
| ChatController.SendMessageSuccess | backend/src/controllers/chat.js:35-56 | a successful send has an ObjectId as its id and appends exactly the user's message and then the generator's reply; the old messages stay a prefix; id, owner, title and creation time are kept; `updatedAt` becomes now; every other chat is unchanged |
| ChatController.SendMessageIsolation | backend/src/controllers/chat.js:35 | a send by one user never changes another user's chat |
| ChatController.OwnedSummariesCounts | backend/src/controllers/chat.js:66 | the filter keeps exactly the requester's chats, and lists as many as the requester owns |
| ChatController.OwnedSummariesBag | backend/src/controllers/chat.js:66-68 | each projection is listed exactly as often as the requester owns a chat with it |
| ChatController.GetChatsOwned | backend/src/controllers/chat.js:66-68 | the list is sorted by `updatedAt` descending and is a permutation of the requester's chats, projected: exactly as many entries as the requester owns chats, each with its multiplicity |
| ChatController.ChatCollection.HandleCreateChat | backend/src/controllers/chat.js:4-27 | answer and collection are those of the create step above |
| ChatController.ChatCollection.HandleSendMessage | backend/src/controllers/chat.js:29-61 | answer and collection are those of the send step above |
| ChatController.ChatCollection.HandleGetChats | backend/src/controllers/chat.js:63-75 | lists exactly the requester's chats, most recently updated first |
| ChatController.ChatCollection.HandleGetChat | backend/src/controllers/chat.js:77-92 | returns the chat exactly when the id is an ObjectId and the chat has it and belongs to the requester. Otherwise the answer is 404, or a server error for an id that is not an ObjectId |

## Left out

- **Rendering.** JSX markup, Tailwind classes and animations are left out. The display conditions are kept as predicates: steps, support links, input and the status badge (`TaskCard.ShowsBadge`).
- **Timers.** Real timing is not modelled. Each delayed append is a pending timer that fires as a separate step.
  - `AgentChat`'s delays are all 1200 ms, so its timers fire in the order they were scheduled.
  - `ChatTimeline`'s delays differ (4000, 2000 and 1200 ms), so any pending timer may fire next. This over-approximates the orders that real timing allows.
- **Ids and clocks.** `Date.now()` ids and `new Date()` times are parameters (`freshId`, `msgId`, `now`). Nothing assumes the ids are unique.
- **React and zustand plumbing.** Hook dependency re-runs, re-renders and subscriptions are not modelled. A component's effect runs as an explicit event.
- **Object keys.** `chatResponses[taskTitle]` and `category in result` on keys inherited from `Object.prototype`, such as `toString`, are not modelled. The table and the records are plain maps.
- **Array-index category keys.** Categories are taken not to be array-index strings such as `"7"`. An object spread puts such keys first, in numeric order, not at the end. That would change the order of `Object.values` in `getRecentTasks` for tasks with equal creation times. `TaskStore.Put` appends every new category at the end.
- ChatTimeline.MountedRun: covers only the component's own events and chat selection. A chat added to the store by another component while timers are pending is not an event of the model. Such a chat could reuse a pending timer's chat id, since ids are not assumed unique, and would change which title the timer's script is read from. The index is bounded by the longest template, because a reply scheduled for one chat can land after the user selects another.
- **Text.** `toLowerCase` is modelled for ASCII letters only. `slice(0, 50)` counts characters, not UTF-16 code units.
- **Unused count state.** The `categories` count state that the count effect fills is not rendered. The tab shows `allTasks[c].length`. `TaskCategories.CountsAgree` relates the two.
- **Server plumbing.** Mongoose and Express are not modelled: queries, HTTP status codes, the route files, the `auth` middleware and `console.error` logging. The collection is a sequence, and the requester is a given id.
- **ObjectId casting.** A route's `chatId` is taken to cast exactly when it is 24 hexadecimal digits (`ChatController.IsObjectId`). Older BSON versions also accept any 12-character string as raw bytes; such ids are treated as malformed here. Ids are compared as written. An id in upper-case hexadecimal names the same ObjectId as its lower-case form, but the model finds the chat only under the id as stored. The requester's id from `auth` is taken to be well formed.
- **Missing input.** A `message` missing from the request body would fault in `slice`, which the model does not express. The message is always a string.
- **Concurrent requests.** The handlers run one at a time, each as one atomic step. Overlapping `sendMessage` calls on one chat are not modelled. The `await` at `backend/src/controllers/chat.js:47` lies between the lookup and the save, so such calls are possible. The second reply is then generated without the first turn in its context, and the two saves land in whichever order they finish. `ChatController.SendMessageSuccess`'s claim about the generator's input holds only for requests that do not overlap.
- **Database failures.** A save that fails for a reason other than validation or a duplicate id is not modelled.
- **Sort ties in `getChats`.** The order MongoDB gives chats with equal `updatedAt` is unspecified. `ChatController.GetChats` uses a stable sort, so only the order and permutation properties are claimed.
- **The network generator.** The generator is an abstract function of the request messages (`seq<Turn> -> Option<string>`). Only the request shape is modelled, by `ChatController.Request`: the context followed by the prompt as the user's turn. Model name, temperature and token limit are not modelled.
- **Other components.** `src/components/MainContent.tsx`, `src/components/ChatInput.tsx`, `src/components/ui/ChatMessage.tsx`, `src/components/Layout.tsx`, both sidebars and `src/components/TaskCard.tsx` lie outside the modelled core and are not modelled. Some of them hold logic of their own:
  - `src/components/Sidebar.tsx:27-41` lists the first five `recommended` tasks and follows the store's changes.
  - `src/components/Sidebar.tsx:59-74` is a client of `TaskStore.TaskStore.AddTask`. Its "New Task" button passes its own `Date.now()` id and creation time, and the store replaces both, as `TaskStore.AddedTaskEffect` states.
  - `src/components/MainContent.tsx:35-43` has its own `trim()` submit gate and a 2000 ms placeholder response.
- ChatTimeline.ChatTimelineView.RunEffect: a template with no responses would make the nested callback throw. The model schedules the first reply as an empty pending timer that appends nothing. No template in the table has this shape (`ChatResponses.TableWellFormed`).

## Findings

| source | as written | input that shows it | evidently intended | confidence | as-written member | corrected member |
|---|---|---|---|---|---|---|
| src/components/ui/AgentChat.tsx:41-50 | `responseIndex` advances only inside the 1200 ms reply timer, so a send made before that timer fires reads the old index | two user messages sent within 1200 ms, in a chat whose initial message is in place: both schedule `responses[0]`, the chat shows that reply twice, and the index ends at 1 | each user message gets the next scripted line, each line at most once | high, not executed | AgentChat.DuplicateReplyAsWritten | AgentChat.ReservedRepliesInOrder |
| src/components/ui/ChatTimeline.tsx:62-71 | `responseIndex` advances only inside the reply timer, so a send made before that timer fires computes the same `responseIndex + 1` | two user messages sent within 1200 ms after the opening turn: both schedule `responses[1]`, the chat shows that reply twice, and the index ends at 1 | each user message gets the next scripted line, each line 1, 2, ... at most once | high, not executed | ChatTimeline.DuplicateReplyAsWritten | ChatTimeline.ReservedRepliesOnce |
