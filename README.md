# IBM Granite compliance assistant: a Dafny model of its core

The application shows a contract reviewer two panels for an uploaded document of
one of three classes (NDA, contract, policy):

- a **risk analysis** panel that draws three findings from a fixed catalog of
  fifteen per class, always including exactly one high-severity finding, and lets
  the reviewer mark findings fixed and give thumbs-up or thumbs-down feedback;
- a **compliance chat** that keeps a message history, sends each question with the
  earlier history to the analysis backend, shows a typing indicator while waiting,
  answers with the backend's text or a canned apology, and offers up to three
  suggested questions.

A small API route, `/api/analyze-text`, validates a prompt and a context and
returns a fixed placeholder analysis.

The modules:

| file | module | models |
|---|---|---|
| `wrappers.dfy` | `Wrappers` | `Option` |
| `catalog.dfy` | `Catalog` | `allRisksByFile`: the finding records and the three catalogs, kept as columns so that the verifier need not take apart the long texts |
| `sampler.dfy` | `Sampler` | the selection effect: severity filters, `shuffleArray` as an in-place Fisher–Yates over an `array`, the three-risk selection and the final shuffle |
| `remediation.dfy` | `Remediation` | the `RiskAnalysis` component state as class `RiskSession`: the selection effect with its timer, `handleFix`, `handleFeedback`, `isFixed` |
| `chat.dfy` | `Chat` | the `ComplianceChat` component state as class `ChatSession`: the `trim` guard, `handleSend`, the reply handling, the suggestion fetch and the disabled controls |
| `analyze_text.dfy` | `AnalyzeText` | the route handler as a function from method and parsed body to the response, and the constant `LegalAI.analyze` |

Randomness is an input. `Math.random()` inside `shuffleArray` becomes a sequence
`picks` with `picks[i] <= i`, the index drawn when the loop is at `i`. The random
comparator sort of the suggestion fetch becomes any permutation of the fetched
list. `crypto.randomUUID()` becomes id parameters that a precondition requires
to be fresh. Network calls become their outcomes (`Reply`, `SuggestionFetch`,
a `JsValue` body). Each asynchronous step is one method call: `HandleSend` returns
the request it sends, and `DeliverReply` applies a reply.

Behaviour of the code that the model keeps as it is:

- `handleFix` and `handleFeedback` check nothing about the id. Fixing an id
  twice appends it twice, and feedback can be recorded for any id.
- `handleSend` checks only that `content.trim()` is non-empty and that
  `isAnalyzing` is false. It does not check `isTyping`, so two requests can be in
  flight at once. Only the disabled controls prevent that:
  `ChatSession.Serialized` states the at-most-one property, and
  `SendFromControls`, `SendInput` and `ClickSuggestion` preserve it.
- A new document class does not clear the chat history, because the chat
  component stays mounted. A late reply is applied to whatever the session holds
  by then, since nothing ties a reply to the class it was asked under.
- A class with no high-severity finding would make `shuffledHigh[0]`
  `undefined`. No catalog has one: each holds five or six, and
  `Sampler.CatalogSamplable` proves there is at least one.

## Model

| member | source | states |
|---|---|---|
| Catalog.CatalogShape | src/components/RiskAnalysis.tsx:16-338 | every class has fifteen findings with distinct ids; row 0 is high-severity, rows 3 and 4 are not |
| Catalog.RowsShape | src/components/RiskAnalysis.tsx:16-338 | zipping a column of fifteen distinct ids with its severities gives rows with distinct ids, row 0 high-severity and rows 3 and 4 not |
| Sampler.HighRisks | src/components/RiskAnalysis.tsx:358 | the high filter keeps exactly the high-severity members of the list |
| Sampler.OtherRisks | src/components/RiskAnalysis.tsx:359 | the other filter keeps exactly the members that are not high-severity |
| Sampler.FilterCounts | src/components/RiskAnalysis.tsx:358-359 | each filter keeps every occurrence of a selected risk and none of the others |
| Sampler.Partition | src/components/RiskAnalysis.tsx:357-359 | the two filters together hold the catalog's multiset, and their lengths add up to its length |
| Sampler.FiltersKeepOrder | src/components/RiskAnalysis.tsx:358-359 | both filtered lists are subsequences of the catalog, in catalog order |
| Sampler.FiltersKeepDistinctIds | src/components/RiskAnalysis.tsx:358-359 | filtering a list with distinct ids keeps the ids distinct |
| Sampler.Swap | src/components/RiskAnalysis.tsx:365 | the destructuring swap exchanges positions i and j and leaves every other position alone |
| Sampler.FisherYatesPermutes | src/components/RiskAnalysis.tsx:363-366 | any run of the loop, with any admissible draws, permutes its input |
| Sampler.ShuffledIsPermutation | src/components/RiskAnalysis.tsx:362-368 | `shuffleArray` returns a permutation: same length, same multiset, same members, ids kept distinct |
| Sampler.Shuffle | src/components/RiskAnalysis.tsx:362-368 | the in-place loop leaves the array equal to the Fisher–Yates specification of its old contents, and a permutation of them |
| Sampler.CatalogSamplable | src/components/RiskAnalysis.tsx:16-338 | every catalog has distinct ids, at least one high finding and at least two others, so `shuffledHigh[0]` always exists |
| Sampler.SelectionShape | src/components/RiskAnalysis.tsx:370-377 | the selection is the first shuffled high risk followed by the first two shuffled others, all catalog members |
| Sampler.SelectionIsValid | src/components/RiskAnalysis.tsx:370-377 | before the final shuffle the selection has three distinct-id catalog risks, one high and two others |
| Sampler.SampleIsShuffledSelection | src/components/RiskAnalysis.tsx:374-380 | the final shuffle only reorders the three selected risks |
| Sampler.SameMultisetSameSplit | src/components/RiskAnalysis.tsx:380 | reordering a list changes neither the number of high risks nor the number of others |
| Sampler.SampleIsValid | src/components/RiskAnalysis.tsx:356-380 | for every class and all draws, the published selection has three risks with distinct ids from that class, exactly one of them high |
| Sampler.SampleRisks | src/components/RiskAnalysis.tsx:357-380 | the array-based selection computes the specified sample, so it has three distinct-id catalog risks with exactly one high |
| Remediation.FindRisk | src/components/RiskAnalysis.tsx:391 | the lookup returns the first member with the requested id, and returns none exactly when no member has it |
| Remediation.FixMessage | src/components/RiskAnalysis.tsx:391-405 | the toast text is never empty: it is a displayed risk's fix text for that id, or the default message |
| Remediation.FindDisplayedRisk | src/components/RiskAnalysis.tsx:391 | among distinct ids, looking up a displayed risk's id finds that risk |
| Remediation.FixMessageOfDisplayed | src/components/RiskAnalysis.tsx:391-405 | fixing a displayed risk that has a non-empty fix text reports exactly that text |
| Remediation.FixMessageDefault | src/components/RiskAnalysis.tsx:404 | an id that is not displayed, or whose risk has no fix text, gives the default message |
| Remediation.SampleIsSelection | src/components/RiskAnalysis.tsx:370-385 | every sample is a valid panel selection drawn from its class's catalog |
| Remediation.RiskSession.constructor | src/components/RiskAnalysis.tsx:345-348 | starts analyzing, with nothing fixed, no feedback and nothing displayed |
| Remediation.RiskSession.SelectFileType | src/components/RiskAnalysis.tsx:351-388 | resets fixes and feedback, keeps analyzing, and schedules the sampled selection, which is valid and drawn from the class |
| Remediation.RiskSession.TimerFires | src/components/RiskAnalysis.tsx:382-385 | publishes the pending selection and stops analyzing; fixes and feedback are untouched |
| Remediation.RiskSession.HandleFix | src/components/RiskAnalysis.tsx:390-406 | appends the id, after which the id is fixed; no earlier fix is lost; returns the toast text |
| Remediation.RiskSession.HandleFeedback | src/components/RiskAnalysis.tsx:408-414 | records the latest verdict for the id and leaves every other entry unchanged |
| Chat.TrimStartSpec | src/components/ComplianceChat.tsx:55 | trimming the start drops a whitespace prefix and stops at the first other character |
| Chat.TrimEndSpec | src/components/ComplianceChat.tsx:55 | trimming the end drops a whitespace suffix and stops at the last other character |
| Chat.TrimEmptyIffBlank | src/components/ComplianceChat.tsx:55 | `trim()` gives the empty string exactly when the text is all whitespace |
| Chat.AcceptsNonBlank | src/components/ComplianceChat.tsx:55 | a send goes ahead exactly when no analysis runs and the text has a character that is not whitespace |
| Chat.FirstThree | src/components/ComplianceChat.tsx:36 | `slice(0, 3)` is the prefix of length min(3, n) |
| Chat.InitialSuggestions | src/components/ComplianceChat.tsx:30-44 | after the fetch, min(3, n) suggestions are shown, a sub-multiset of the fetched list; on error none |
| Chat.ReplyMessages | src/components/ComplianceChat.tsx:80-107 | a reply adds one assistant message holding the answer or the apology; a reply without suggestions adds the apology as a second message |
| Chat.ReplySuggestions | src/components/ComplianceChat.tsx:94 | a successful reply replaces the suggestions with the first three it returns; otherwise they stay |
| Chat.ExchangeAddsTwo | src/components/ComplianceChat.tsx:54-107 | a question and its well-formed reply extend the history by exactly the question and one assistant message |
| Chat.AppendFresh | src/components/ComplianceChat.tsx:57-61 | appending messages with fresh ids keeps all message ids distinct |
| Chat.ChatSession.constructor | src/components/ComplianceChat.tsx:25-28 | starts with no messages, empty input, no typing indicator and no suggestions |
| Chat.ChatSession.ChangeFileType | src/components/ComplianceChat.tsx:24-44 | a new document class changes only the class: the history stays |
| Chat.ChatSession.ReceiveSuggestions | src/components/ComplianceChat.tsx:30-44 | the fetch effect sets the suggestions to the shuffled list's first three, or none on error |
| Chat.ChatSession.EditInput | src/components/ComplianceChat.tsx:177 | the input box holds the typed text |
| Chat.ChatSession.HandleSend | src/components/ComplianceChat.tsx:54-78 | rejected text changes nothing; accepted text is appended unchanged as a user message, clears the input, turns on typing and sends the text with the earlier history |
| Chat.ChatSession.DeliverReply | src/components/ComplianceChat.tsx:46-107 | typing ends, the reply's messages are appended, the suggestions follow the reply, and the request leaves the in-flight list |
| Chat.ChatSession.SendFromControls | src/components/ComplianceChat.tsx:161-185 | disabled controls do nothing, enabled ones act as `handleSend`; at most one request is ever in flight |
| Chat.ChatSession.SendInput | src/components/ComplianceChat.tsx:174-189 | Enter or the send button submits the current input as `handleSend` does; disabled, nothing changes; at most one request stays in flight |
| Chat.ChatSession.ClickSuggestion | src/components/ComplianceChat.tsx:161-170 | clicking a shown suggestion is `handleSend` of that question; disabled, nothing changes; at most one request stays in flight |
| AnalyzeText.AnalyzeIgnoresInput | src/pages/api/analyze-text.ts:3-27 | the analysis does not depend on its parameters |
| AnalyzeText.Handler | src/pages/api/analyze-text.ts:30-67 | 405 exactly for a non-POST; 500 exactly for a POST whose body is null or undefined; 400 exactly when prompt or context is falsy; otherwise 200 with the placeholder, after one analysis call that forwards both fields with model 1.0, project legal-docs and 500 tokens |
| AnalyzeText.WellFormedPostSucceeds | src/pages/api/analyze-text.ts:38-61 | a POST of an object with non-empty string prompt and context gets the 200 placeholder response |

## Left out

- Timers: the 2.5-second publication delay becomes `pendingRisks` plus
  `TimerFires`. The 1.5-second wait in `handleFix` and the typing delay of
  `simulateTyping` are folded into one step each, so their lengths are not
  modelled (the typing delay is a floating-point length).
- Remediation.RiskSession.HandleFix: the wait between the lookup and the append
  is one step. A class change during the wait appends the old id to the new
  session's fixed list; the model does not show that interleaving.
- Interleavings in general: each asynchronous handler is split at its one
  suspension point, and the pieces are separate calls in any order. A stale
  suggestion fetch finishing after a newer one is covered only in that the
  later call wins.
- Sampler.Shuffle: whether the draws are uniform is not modelled. Every
  admissible draw sequence gives a permutation; that the result is unbiased is a
  probabilistic claim outside the model.
- Chat.InitialSuggestions: sorting with a random comparator is modelled as an
  arbitrary permutation of the fetched list. It is neither uniform nor modelled
  step by step.
- Remediation.FixMessageOfDisplayed: requires the risk to have a non-empty fix
  text. That every catalog row has one is not proved, because the texts are too
  long for the verifier to compare cheaply.
- Toasts, JSX rendering, icons and styling are left out. Only the toast text of
  a fix is modelled (`FixMessage`).
- The HTTP collaborators (`/api/suggested-questions/<class>` and
  `/api/analyze-document`) are not part of this model. Their results are the
  inputs `SuggestionFetch` and `Reply`; an answer that is not a string is
  counted as `Failed`.
- `temperature: 0.7`, `console.error` logging and the `id` that
  `LegalAI.analyze` generates are left out. The handler's response never
  includes that id.
- Chat text is a sequence of Unicode scalar values, where JavaScript uses UTF-16
  code units. Every whitespace character `trim` removes lies in the Basic
  Multilingual Plane, so the guard is unaffected.
- `isAnalyzing` is optional in the chat's props. It is modelled as a `bool`, with
  `undefined` as `false`.
- `NaN` in a request body is left out, since JSON cannot carry it.
