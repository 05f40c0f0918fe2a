# Feedback Pulse: a Dafny model of the feedback store

Feedback Pulse is a small feedback-collection application. Project owners
create projects, paste an embed snippet into their site, and collect
feedback items (bug, feature or other). They tag items with labels and can
ask a language model to classify an item's sentiment.

This project models the part of it that has stateable behaviour:

- the domain types (`Project`, `Feedback`, `FeedbackType`, `Sentiment`);
- the validation schemas for projects, feedback, labels, signup and login;
- the client-side store with its four list updates;
- the server actions `createProject`, `submitFeedback`,
  `getSentimentAnalysis` and `addLabelToFeedback`;
- the views built on the lists: the type filter, the sentiment-answer
  handling and the Analyze button, the per-project feedback count, and the
  embed snippet;
- the seed data, used as a fixture for scenario lemmas.

Everything is immutable data and pure functions. Each of the store's
arrays is a `seq`, and each update returns a new one.

Modules, one per source file, plus three helpers:

| module | models |
|---|---|
| `Wrappers` | `Option`, for `null` and absent keys |
| `Seqs` | `Array.prototype.filter` / `map`, subsequences, duplicate-freedom |
| `JsText` | JavaScript string length (UTF-16 code units), and how `${Date.now()}` prints |
| `Definitions` | `src/lib/definitions.ts` |
| `Schemas` | `src/lib/schemas.ts` |
| `AppProvider` | `src/context/app-provider.tsx` |
| `Actions` | `src/lib/actions.ts` |
| `FeedbackTable` | `src/components/feedback/feedback-table.tsx` |
| `EmbedSnippet` | `src/components/dashboard/embed-snippet.tsx` |
| `ProjectCard` | `src/components/dashboard/project-card.tsx` |
| `Data` | `src/lib/data.ts`, plus scenario lemmas about it |

Modelling choices:

- The `type` field of a feedback item is called `kind`, because `type` is
  a Dafny keyword.
- String lengths in the schemas are JavaScript lengths. A character outside
  the Basic Multilingual Plane counts as two, so a label of 15 emoji such
  as 😀 (U+1F600) is "too long". Fifteen emoji from inside that plane, such
  as ✨ (U+2728), count one each and pass.
- A form field arrives as a string, or as `null` when it is missing
  (`None`). For a `null` field the validation library reports a type error,
  and the model records that kind of issue (`WrongType`) without its text.
  The feedback schema's `required_error` text applies only to `undefined`,
  and a form field is never `undefined`. So a missing type is rejected,
  never defaulted, but with the library's own message.
- `Date.now()`, `new Date()` and `crypto.randomUUID()` are inputs (`Env`).
  The code guarantees no uniqueness of ids or keys, and neither does the
  model. `ProjectIdsClashIffSameMillisecond` shows that two project ids are
  equal exactly when the two clock readings are.
- The language model is an oracle, a function from the comment text to a
  `ModelReply`. It can answer with a string, complete without output, or
  throw. The flow returns `output!`. When the output is `null`, reading
  `.sentiment` from it throws inside the action's `try`, so that case ends
  as an error too.
- A stored sentiment is an `Option<string>`. The answer is cast, not
  checked, so the declared type (three labels or `null`) is a promise the
  code does not keep. `UndeclaredSentimentIsStored` exhibits this.
- Two JavaScript truthiness tests are modelled exactly. An empty answer
  does not update the store (`if (result.sentiment)`). An empty stored
  sentiment shows the Analyze button again (`item.sentiment ? … : …`).

Behaviour of the code worth knowing:

- The `addLabelToFeedback` server action validates its input and answers,
  but it changes no array. Only the client store's `updateLabel` adds
  labels.
- Generated ids and keys are not unique by construction.
- `submitFeedback` never checks that the project exists
  (`SubmitAcceptsUnknownProject`).
- Updating the sentiment or a label of an unknown id does nothing, and
  nothing reports "not found" (`UpdatesOfUnknownIdAreIdentity`).
- The answer from the model is passed through unchecked.

## Model

| member | source | states |
|---|---|---|
| `Definitions.ParseType` | src/lib/definitions.ts:8 | a string denotes a feedback type exactly when it is `bug`, `feature` or `other` |
| `Definitions.TypeNameRoundTrip` | src/lib/definitions.ts:8 | the three literals and the three types correspond one to one, both ways |
| `Definitions.ParseSentiment` | src/lib/definitions.ts:9 | a string is a declared sentiment exactly when it is `positive`, `negative` or `neutral` |
| `Definitions.SentimentNameRoundTrip` | src/lib/definitions.ts:9 | the three sentiment literals and the three values correspond one to one, both ways |
| `JsText.DecimalRoundTrip` | src/lib/actions.ts:29 | the digits a clock reading prints as read back as that reading |
| `JsText.DecimalInjective` | src/lib/actions.ts:64 | two clock readings print the same exactly when they are equal |
| `Schemas.Flatten` | src/lib/actions.ts:21 | walking the issues in reported order, a field is present exactly when some issue names it, and then holds the issues naming it, in the order they were reported |
| `Schemas.FlattenReportAt` | src/lib/actions.ts:56 | when an object schema's fields are checked one after the other in declaration order, flattening puts each field in the map exactly when it has issues, with exactly its own issues |
| `Schemas.FlattenReportKeys` | src/lib/actions.ts:56 | only declared fields appear in the flattened errors |
| `Schemas.ObjectErrors` | src/lib/schemas.ts:3-37 | the field-by-field reading of an object schema's errors: a declared field is present exactly when it has issues, with exactly those, and no other name is present |
| `Schemas.ObjectErrorsIsFlatten` | src/lib/actions.ts:56 | the field-by-field reading equals flattening the issues the schema reports, field after field in declaration order |
| `Schemas.FeedbackErrors` | src/lib/schemas.ts:26-32 | the feedback errors name only `type`, `comment` and `projectId`; each is present exactly when its check fails: a type error when missing, the enumeration error for an unknown type, the schema's message for a short comment |
| `Schemas.ParseProject` | src/lib/schemas.ts:22-24 | a name is accepted iff it is a string of at least 3 code units, and then kept verbatim; otherwise the only error field is `name`, with the schema's message when a string was given and a single type error when the name is missing |
| `Schemas.ParseFeedback` | src/lib/schemas.ts:26-32 | accepted iff the type is one of the three literals, the comment has at least 10 code units and a project id is present (any string); a rejection reports each bad field, and only those; a missing field gets a type error, an unknown type the enumeration error, a short comment the schema's message |
| `Schemas.ParseLabel` | src/lib/schemas.ts:34-37 | accepted iff the label has 1 to 20 code units and a feedback id is present; an empty label and an over-long label each get their own message; a missing label or feedback id gets a single type error under its field |
| `Schemas.SignupErrors` | src/lib/schemas.ts:3-15 | only `name`, `email`, `password` and `confirmPassword` can appear; each is present exactly when its check fails (name under 2, password under 8 code units, email rejected, passwords differing), with the schema's own message; no errors iff all checks hold |
| `Schemas.LoginErrors` | src/lib/schemas.ts:17-20 | the password is rejected exactly when it is empty, with "Password is required."; the email exactly when the email check fails, with "Please enter a valid email."; no other field appears |
| `AppProvider.AddProject` | src/context/app-provider.tsx:30-32 | the new project is first, the old list follows unchanged, feedback is untouched |
| `AppProvider.AddFeedback` | src/context/app-provider.tsx:34-36 | the new item is first, the old list follows unchanged (one longer, order kept), projects are untouched |
| `AppProvider.Patch` | src/context/app-provider.tsx:40 | each field present in the update overwrites that field; every absent field keeps its value |
| `AppProvider.PatchLaws` | src/context/app-provider.tsx:40 | an empty update changes nothing, and applying an update twice equals applying it once |
| `AppProvider.UpdateFeedback` | src/context/app-provider.tsx:38-42 | length and order kept; items with another id unchanged; items with the id are patched |
| `AppProvider.UpdateFeedbackIdempotent` | src/context/app-provider.tsx:38-42 | updating twice with the same id and update equals updating once, even when the update changes the id |
| `AppProvider.UpdateLabel` | src/context/app-provider.tsx:44-52 | on items with the id, the label is appended at the end unless already present; every other item, and the order, is unchanged |
| `AppProvider.UpdateLabelAdds` | src/context/app-provider.tsx:46-49 | afterwards every item with the id carries the label |
| `AppProvider.UpdateLabelIdempotent` | src/context/app-provider.tsx:44-52 | adding the same label to the same id twice equals adding it once |
| `AppProvider.UpdateLabelKeepsLabelsUnique` | src/context/app-provider.tsx:47 | if no item had a label twice, none has afterwards |
| `AppProvider.UpdatesOfUnknownIdAreIdentity` | src/context/app-provider.tsx:38-52 | updating a feedback or a label of an id no item carries leaves the store identical |
| `Actions.CreateProject` | src/lib/actions.ts:14-45 | an invalid name gives the errors, the failure message, no project, and no array change; a valid name prepends a new project with that name, clock-derived id, `pk_` key and creation time, returns it, with null errors; feedback is never touched |
| `Actions.CreatedProjectShape` | src/lib/actions.ts:28-33 | a created id is `proj_` then the digits of the clock reading; a created key is `pk_` then the random token |
| `Actions.ProjectIdsClashIffSameMillisecond` | src/lib/actions.ts:29-32 | two created ids are equal iff the clock readings are; two keys are equal iff the random tokens are |
| `Actions.SameMillisecondDuplicatesId` | src/lib/actions.ts:29-36 | two creations in one millisecond leave two projects with one id at the front of the array |
| `Actions.SubmitFeedback` | src/lib/actions.ts:47-82 | invalid input gives the errors, the failure message, and no array change; valid input prepends and returns a new item with the submitted type, comment and project id, empty labels and null sentiment; projects are never touched |
| `Actions.SubmitAcceptsUnknownProject` | src/lib/actions.ts:61-73 | feedback naming a project that does not exist is accepted and stored |
| `Actions.ShortCommentRejected` | src/lib/actions.ts:54-59 | a comment under 10 code units is reported under `comment`, and the feedback array is unchanged |
| `Actions.GetSentimentAnalysis` | src/lib/actions.ts:84-92 | succeeds iff the model answers, passing its string through unchanged; otherwise the fixed error message |
| `Actions.LabelAddedMessageRoundTrip` | src/lib/actions.ts:110 | the success message names the label exactly (it can be read back) and never equals "Invalid label." |
| `Actions.AddLabelToFeedback` | src/lib/actions.ts:94-111 | answers "Invalid label." iff validation fails, otherwise a message naming the label; no array changes in either case |
| `FeedbackTable.FilterFeedback` | src/components/feedback/feedback-table.tsx:42-47 | `all` returns the list unchanged; a type returns only items of that type |
| `FeedbackTable.FilterFeedbackSpec` | src/components/feedback/feedback-table.tsx:46 | an item is shown iff it is in the list and of the selected type; the result keeps the original order (a subsequence); filtering again changes nothing |
| `FeedbackTable.TypeFiltersPartition` | src/components/feedback/feedback-table.tsx:46 | the bug, feature and other tabs together show every item exactly once: their lengths sum to the list length |
| `FeedbackTable.HandleAnalyzeSentiment` | src/components/feedback/feedback-table.tsx:49-58 | only a result carrying a non-empty sentiment updates the store; it sets that string on the items with the id and changes nothing else |
| `FeedbackTable.OffersAnalysisIffUnset` | src/components/feedback/feedback-table.tsx:110-128 | for an item with a declared sentiment, the Analyze button shows exactly when the sentiment is unset |
| `FeedbackTable.AnalyzeSentimentOutcome` | src/components/feedback/feedback-table.tsx:49-58 | after a non-empty answer, the context store's items with the id carry the answer; a failed analysis leaves the store as it was |
| `FeedbackTable.UndeclaredSentimentIsStored` | src/components/feedback/feedback-table.tsx:54 | an answer outside the three labels is stored as the sentiment, breaking the declared type |
| `EmbedSnippet.Snippet` | src/components/dashboard/embed-snippet.tsx:12 | the snippet is the fixed prefix, the key, and the fixed suffix, and its length is the sum of the three |
| `EmbedSnippet.SnippetRoundTrip` | src/components/dashboard/embed-snippet.tsx:12 | stripping prefix and suffix recovers the key, and any text that yields a key is that key's snippet |
| `EmbedSnippet.SnippetInjective` | src/components/dashboard/embed-snippet.tsx:12 | distinct keys give distinct snippets |
| `ProjectCard.ForProject` | src/components/dashboard/project-card.tsx:17 | only items naming the project, and every item of the list that names it, in list order |
| `ProjectCard.ForProjectMembership` | src/components/dashboard/project-card.tsx:17 | an item is among the project's items exactly when it is in the list and names the project |
| `ProjectCard.FeedbackCount` | src/components/dashboard/project-card.tsx:17 | the count never exceeds the number of items |
| `ProjectCard.FeedbackCountIsOccurrences` | src/components/dashboard/project-card.tsx:17 | the count equals the number of items whose project id is the project's |
| `ProjectCard.PrependCounts` | src/components/dashboard/project-card.tsx:17 | a new item raises its project's count by one and leaves every other project's count unchanged |
| `ProjectCard.CountsSumBound` | src/components/dashboard/project-card.tsx:17 | for projects with distinct ids, the counts add up to the number of items naming one of them: at most the total, and exactly the total when every item names one of them |
| `Data.SeedIsConsistent` | src/lib/data.ts:3-64 | seed project ids, project keys and feedback ids are distinct; every item names a seed project, has no duplicate label, a declared sentiment and a valid comment |
| `Data.SeedBugFilter` | src/lib/data.ts:18-64 | on the seed, the bug tab shows fb_2 then fb_5 |
| `Data.SeedCounts` | src/lib/data.ts:18-64 | on the seed, proj_1 counts 3, proj_2 counts 2, five in all |
| `Data.SeedLabels` | src/lib/data.ts:19-27 | adding `ui` to fb_1, which has it, changes nothing; adding a new label to fb_5 makes it its only label |
| `Data.SeedAnalysis` | src/lib/data.ts:55-63 | analysing fb_5 with a model answering `negative` stores `negative`; a throwing model leaves it unset |
| `Data.SubmitScenario` | src/lib/actions.ts:47-82 | a bug report for proj_1 in a store holding proj_1 and no feedback yields an item with no labels and no sentiment, the project's only feedback |
| `Data.SubmissionsListMostRecentFirst` | src/lib/actions.ts:73 | after submitting A then B for one project, its list starts B, A, followed by what it had before |

## Left out

- Revalidation of pages (`revalidatePath`) is not modelled. It is a
  framework cache signal with no effect on the data.
- `async`, `useTransition` and the pending/analysing-id UI state are not
  modelled. Each operation is modelled as one atomic step.
- Sentiment classification itself is an external language-model call. It
  is an oracle parameter, and the prompt is not modelled.
- Email validity in the signup and login schemas is the validation
  library's own check. It is a parameter (`isEmail`).
- Signup and login fields are taken to be strings. Missing or non-string
  values there are not modelled.
- Form values that are files rather than strings are not modelled.
- The validation library's built-in messages are issue kinds, not texts.
- Clock readings before 1970 are not modelled: `Env.nowMs` is a `nat`, while
  a negative `Date.now()` would print a minus sign into the id.
- Numbers of 10^21 and above print in exponent notation in JavaScript.
  `Decimal` does not model that, because no clock reading reaches it.
- Date formatting, clipboard copying, toasts and timers are not modelled.
  They are presentation and I/O.
- The UI components (widget button, create-project dialog, add-label
  popover, sidebar, logo, sentiment badge) are not modelled. They hold no
  store logic.
- Not modelled, only observed: the create-project dialog and the feedback
  widget button wait for a `resetKey` that no action returns.
- The failure path of `getSentimentAnalysis` logs the error with
  `console.error` before answering. Logging is I/O and is not modelled.
- Not modelled, only observed: the table passes `onLabelAdded` to
  `AddLabelPopover`, which ignores it, so `updateLabel` is never called
  from the page.
- Not modelled, only observed: the table writes sentiments into the context
  store, but it displays the list its page passes in. So after an analysis
  the Analyze button stays on the screen.
- Not modelled, only observed: the project card counts the seed feedback,
  not a store. `FeedbackCount` takes the list as a parameter.
- The project page's parsing of a project from its query string is not
  part of this model.
