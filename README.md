# Docusaurus helper app: the transcript, the step navigator and the config generator

This project models the three pieces of sequential logic in a small React
front end for Docusaurus users. It proves properties of each model.

- **The AI assistant's transcript** (`ChatAssistant`, in `chat_assistant.dfy`).
  A class `Chat` holds three things: the message list, which starts as the
  single welcome message; the input box's text; and the `isLoading` gate.
  `Chat.Submit` is `handleSubmit`, split at its `await` points into steps:
  1. the gate and the user's message;
  2. the empty reply marked as streaming;
  3. the `for await` loop, which rewrites the reply with the text received so far;
  4. the end of streaming, or the error message;
  5. the `finally` block.

  The reply stream is an `Outcome` value. Opening it either fails, or the
  stream delivers a list of chunks and then ends or throws. The final
  transcript is stated by the function `Submitted`, and the lemmas about the
  turn are proved about `Submitted`.
- **The installation guide's step navigator** (`InstallationWizard`, in
  `installation_wizard.dfy`). It has the table of four steps and a class
  `Wizard` holding `currentStepIndex`. The class's methods are "Next",
  "Previous" and the progress-bar jump. Pure predicates give what the
  progress bar and the two buttons show for an index.
- **The configuration generator** (`ConfigGenerator`, in
  `config_generator.dfy`). It has the form record, whose defaults the class
  `ConfigEditor` starts from. Its one-field `handleChange` is a method of
  `ConfigEditor`. `generateConfigString` is a template literal. It is
  modelled as a sequence of segments: literal text, a form field, or the
  footer-style expression. The segments are rendered left to right. The
  lemmas say where each field lands in the generated text.

`wrappers.dfy` holds the `Option` type used for the optional fields of
`Step` and for a chunk's possibly missing `text`.

Modelling choices:
- **Message ids.** The `Date.now()` readings that name messages are replaced
  by a counter of fresh numbers (`Chat.nextId`). One message's id is the
  literal `'welcome'`.
- **The gate's trim.** `input.trim()` removes the ECMAScript white-space and
  line-terminator characters. The gate `Accepts` is stated as "the input is
  not entirely made of those characters". `SendEnabledIffAccepted` proves
  that this is the same as the trimmed input being non-empty.
- **Sequential turns.** Each `Submit` runs a whole turn to the end before
  the next event.
- **An interrupted reply stays in progress.** The `catch` block
  (`components/ChatAssistant.tsx:77-83`) never touches the reply, which
  keeps `isStreaming: true`, so its cursor (line 148) keeps pulsing after an
  error. The model says the same (`ReplyMessages`, `ReplyHoldsStreamedText`).

## Model

| member | source | states |
|---|---|---|
| ChatAssistant.Chat.constructor | components/ChatAssistant.tsx:9-17 | the transcript starts as exactly the welcome message, the input is empty and the gate is open; ids are distinct and numbered ids are below the counter |
| ChatAssistant.Chat.OnInputChange | components/ChatAssistant.tsx:161 | typing sets the input to the box's value and changes nothing else |
| ChatAssistant.TrimStart | components/ChatAssistant.tsx:31 | the result is a suffix of the input that does not start with white space, and only white space was removed |
| ChatAssistant.TrimEnd | components/ChatAssistant.tsx:31 | the result is a prefix of the input that does not end with white space, and only white space was removed |
| ChatAssistant.TrimEmptyIffBlank | components/ChatAssistant.tsx:31 | `input.trim()` is empty if and only if the input consists only of white space |
| ChatAssistant.SendEnabledIffAccepted | components/ChatAssistant.tsx:167 | the send button is enabled exactly when a submission would be accepted, that is when the trimmed input is non-empty and no turn is running |
| ChatAssistant.Chat.BeginTurn | components/ChatAssistant.tsx:30-41 | a refused submission changes nothing; an accepted one appends one user message holding the untrimmed input under a fresh id, clears the input and closes the gate |
| ChatAssistant.Chat.FreshId | components/ChatAssistant.tsx:34-80 | a new id is the counter's value, which then advances; nothing else changes |
| ChatAssistant.Chat.OpenReply | components/ChatAssistant.tsx:46-54 | once the stream is open, one model message with empty content and the streaming mark is appended under a fresh id |
| ChatAssistant.ConcatAppend | components/ChatAssistant.tsx:56-61 | the accumulated text of two runs of chunks is the text of the first followed by that of the second |
| ChatAssistant.ConcatSkipsMissing | components/ChatAssistant.tsx:60 | a chunk without text adds nothing to the accumulated text |
| ChatAssistant.ConcatPlacesChunks | components/ChatAssistant.tsx:56-61 | the k-th chunk's text sits in the reply right after the text of the chunks before it |
| ChatAssistant.StreamedGreeting | components/ChatAssistant.tsx:56-61 | the chunks `Hel`, `lo, `, `world` accumulate to `Hello, world` |
| ChatAssistant.UpdateById | components/ChatAssistant.tsx:63-67 | the map-by-id update keeps the list's length, patches the messages with the given id and leaves every other message as it was |
| ChatAssistant.UpdateByIdPatchesOne | components/ChatAssistant.tsx:63-75 | with distinct ids the update patches exactly the message with that id, and an id that is absent leaves the list unchanged |
| ChatAssistant.UpdateNewest | components/ChatAssistant.tsx:63-75 | patching the newest message by its id changes only that message |
| ChatAssistant.Chat.ReceiveChunk | components/ChatAssistant.tsx:63-67 | after a chunk the reply's content is the text so far, via the map-by-id update |
| ChatAssistant.Chat.StreamReply | components/ChatAssistant.tsx:56-68 | after the k-th chunk (loop invariant) the reply holds the in-order concatenation of the first k chunk texts, a missing text counting as empty; every other message is untouched |
| ChatAssistant.Chat.FinishReply | components/ChatAssistant.tsx:71-75 | at the normal end of the stream the reply's streaming mark is cleared by the map-by-id update; nothing else changes |
| ChatAssistant.Chat.ReportFailure | components/ChatAssistant.tsx:77-83 | a failure appends exactly one model message with the fixed error text under a fresh id; earlier messages stay as they were |
| ChatAssistant.Chat.EndTurn | components/ChatAssistant.tsx:84-86 | the `finally` block opens the gate and changes nothing else |
| ChatAssistant.Chat.Respond | components/ChatAssistant.tsx:43-83 | the `try`/`catch` block appends exactly the reply messages of the outcome |
| ChatAssistant.Chat.Submit | components/ChatAssistant.tsx:29-87 | the transcript after `handleSubmit` is `Submitted` of the state before it; a refused submission changes nothing; after an accepted one the input is empty and the gate is open again for every outcome the stream settles with (a stream that never settles is not an `Outcome`, see Left out); ids stay distinct |
| ChatAssistant.TranscriptGrows | components/ChatAssistant.tsx:29-87 | the transcript only grows, keeping earlier messages in place: by 0 when refused, 2 on success or early failure, and 3 on a failure mid-stream |
| ChatAssistant.UserMessageFirst | components/ChatAssistant.tsx:33-39 | the first message an accepted submission appends is the user's, holding the input as typed |
| ChatAssistant.ReplyHoldsStreamedText | components/ChatAssistant.tsx:49-75 | the reply holds all chunk texts in order, and it still carries the streaming mark exactly when an error interrupted it |
| ChatAssistant.FailureAppendsError | components/ChatAssistant.tsx:77-83 | on any failure the transcript ends with the fixed error message |
| ChatAssistant.SuccessEndsWithReply | components/ChatAssistant.tsx:71-75 | on a normal end exactly two messages are appended, the user's and the finished reply without the streaming mark, so no error message |
| ChatAssistant.BusyRefusesSubmit | components/ChatAssistant.tsx:31 | while `isLoading` is true the send button is disabled and every submission leaves the transcript unchanged |
| ChatAssistant.SubmittedKeepsIds | components/ChatAssistant.tsx:33-83 | a submission keeps message ids pairwise distinct |
| ChatAssistant.StampsCollideAsWritten | components/ChatAssistant.tsx:33-83 | with ids taken from millisecond clock readings, the error message can share its id with the reply or with the user's message |
| ChatAssistant.TurnIdsFresh | components/ChatAssistant.tsx:33-83 | with ids taken from a counter, one turn's messages get pairwise distinct ids that no earlier message has |
| InstallationWizard.StepTable | components/InstallationWizard.tsx:7-50 | the table has four steps with pairwise distinct ids, each with a command and details |
| InstallationWizard.Wizard.constructor | components/InstallationWizard.tsx:53 | the index starts at 0 |
| InstallationWizard.Wizard.NextStep | components/InstallationWizard.tsx:55-59 | "Next" adds exactly 1 when the index is below the last step and otherwise leaves it unchanged; it keeps the index in the table |
| InstallationWizard.Wizard.PrevStep | components/InstallationWizard.tsx:61-65 | "Previous" subtracts exactly 1 when the index is above 0 and otherwise leaves it unchanged; it keeps the index in the table |
| InstallationWizard.Wizard.JumpTo | components/InstallationWizard.tsx:79-82 | a progress-bar button sets the index to its own step, which is in the table |
| InstallationWizard.StepKeysDistinct | components/InstallationWizard.tsx:105 | two steps of the table have the same id if and only if they are the same step, so the step panel's key changes exactly when the index changes |
| InstallationWizard.MovesStayInRange | components/InstallationWizard.tsx:55-65 | both moves keep the index within `0 <= index < 4` |
| InstallationWizard.MovesUndo | components/InstallationWizard.tsx:55-65 | "Previous" after a "Next" that moved restores the index, and so does "Next" after a "Previous" that moved |
| InstallationWizard.NextTimesReaches | components/InstallationWizard.tsx:55-59 | k presses of "Next" from step i reach step i + k, or the last step if i + k is past it |
| InstallationWizard.ButtonsDisabledIffNoOp | components/InstallationWizard.tsx:145-160 | "Previous" is disabled if and only if its handler would do nothing, and likewise "Next" |
| InstallationWizard.HighlightedIsCompletedOrActive | components/InstallationWizard.tsx:85-93 | a step is highlighted if and only if it is completed or active, and no step is both completed and active |
| InstallationWizard.OneActiveLabel | components/InstallationWizard.tsx:93 | exactly one step of the table has the active label: the current one |
| InstallationWizard.CompletedCount | components/InstallationWizard.tsx:90 | at step c, the steps showing a check mark are exactly the c steps before it |
| ConfigGenerator.ConfigEditor.constructor | components/ConfigGenerator.tsx:8-17 | the form starts as the listed defaults, which are well typed, with preset `classic` and theme `custom` |
| ConfigGenerator.WithField | components/ConfigGenerator.tsx:24 | the record update sets the named field to the value and keeps every other field |
| ConfigGenerator.FormsEqualByFields | components/ConfigGenerator.tsx:24 | forms that agree on every field are equal, so the update's two properties pin its result down |
| ConfigGenerator.ConfigEditor.HandleChange | components/ConfigGenerator.tsx:22-25 | `handleChange(name, value)` sets only the field `name` to `value`; every other field is unchanged |
| ConfigGenerator.ControlsKeepTheme | components/ConfigGenerator.tsx:150-232 | no rendered control is named `theme`, so any sequence of edits through the controls keeps the theme |
| ConfigGenerator.ControlsKeepWellTyped | components/ConfigGenerator.tsx:150-232 | edits through the rendered controls, whose select offers only `classic` and `facebook`, keep the form within its declared type |
| ConfigGenerator.FooterStyleIsLightOrDark | components/ConfigGenerator.tsx:102 | the footer style is `dark` for theme `custom` and otherwise the theme, so it is always `light` or `dark` |
| ConfigGenerator.RenderAppend | components/ConfigGenerator.tsx:27-133 | a template's text is the concatenation of its parts' texts |
| ConfigGenerator.GenerateRendersTemplate | components/ConfigGenerator.tsx:27-133 | `generateConfigString` equals the rendering of the whole template literal `ConfigTemplate` |
| ConfigGenerator.BlocksInOutput | components/ConfigGenerator.tsx:27-133 | each block of the template occurs in the output as a contiguous piece |
| ConfigGenerator.SiteTitle | components/ConfigGenerator.tsx:30 | the site block contains `title: '`, then the title, then `'` |
| ConfigGenerator.SiteTagline | components/ConfigGenerator.tsx:31 | the site block contains the tagline between single quotes after its key |
| ConfigGenerator.SiteUrl | components/ConfigGenerator.tsx:35 | the site block contains the url between single quotes after its key |
| ConfigGenerator.SiteBaseUrl | components/ConfigGenerator.tsx:37 | the site block contains the base url between single quotes after its key |
| ConfigGenerator.SiteOrganization | components/ConfigGenerator.tsx:41 | the site block contains the organization between single quotes after its key |
| ConfigGenerator.SiteProject | components/ConfigGenerator.tsx:42 | the site block contains the project between single quotes after its key |
| ConfigGenerator.SiteFieldsQuoted | components/ConfigGenerator.tsx:30-42 | the output contains each site field verbatim, unescaped, between single quotes after its key |
| ConfigGenerator.PresetEntry | components/ConfigGenerator.tsx:55-57 | the presets block names the preset as its entry |
| ConfigGenerator.PresetOptionsType | components/ConfigGenerator.tsx:58 | the options type comment imports `@docusaurus/preset-` followed by the preset |
| ConfigGenerator.PresetEditUrl | components/ConfigGenerator.tsx:62-63 | the edit URL is `https://github.com/<organization>/<project>/tree/main/` |
| ConfigGenerator.PresetOccurrences | components/ConfigGenerator.tsx:55-76 | the output names the preset as the preset entry and, after `@docusaurus/preset-`, in both type comments |
| ConfigGenerator.NavbarThemeConfigType | components/ConfigGenerator.tsx:76 | the theme-config type comment imports `@docusaurus/preset-` followed by the preset |
| ConfigGenerator.NavbarTitle | components/ConfigGenerator.tsx:80-81 | the navbar's title is the form's title |
| ConfigGenerator.NavbarLogoAlt | components/ConfigGenerator.tsx:83 | the logo's alt text is the title followed by ` Logo` |
| ConfigGenerator.NavbarGitHubHref | components/ConfigGenerator.tsx:95 | the GitHub link is `https://github.com/<organization>/<project>` |
| ConfigGenerator.GitHubLinks | components/ConfigGenerator.tsx:62-95 | the output contains the repository address built from organization and project, once as the edit URL with `/tree/main/` and once as the GitHub link |
| ConfigGenerator.FooterStyleLine | components/ConfigGenerator.tsx:101-102 | the footer block's style entry holds the style derived from the theme |
| ConfigGenerator.FooterStyleEntry | components/ConfigGenerator.tsx:101-102 | the output's footer style entry holds the style derived from the theme |
| ConfigGenerator.FooterCopyright | components/ConfigGenerator.tsx:127 | the copyright line holds the escaped year expression as literal text, then the title |
| ConfigGenerator.TitleOccurrences | components/ConfigGenerator.tsx:81-127 | the title is also the navbar title, the start of the logo's alt text and the owner in the copyright line; the year stays literal text, so no clock is read |

## Left out

- `services/gemini.ts` is not part of this model. It is the client of the language-model service: the API key, the lazily created session and the network calls. The stream it returns is modelled only as `Outcome` data.
- The text sent to the stream (`sendMessageStream({ message: input })`) is not modelled. `Chat.BeginTurn` returns it, but the outcome does not depend on it.
- `console.error` in the `catch` block is not modelled, because it is output only.
- Three kinds of rendering are not modelled: the JSX layout, the markdown rendering of messages and the auto-scroll effect. They draw the state and do not change it.
- The real `Date.now()` values are not modelled. They may collide, as the finding below shows. The model numbers messages from a counter instead, and states distinct ids as the result of that numbering.
- Interleaving at the `await` points is not modelled: typing into the box while a reply streams, and the view being removed mid-stream. The code has no guard for either. `Chat.Submit` runs a whole turn without interruption.
- Renders between state updates are not modelled either. React's updater functions (`prev => ...`) are applied in order, so the model applies each update to the current state. The per-chunk updaters read `fullText` when React applies them, not when they are queued, so a batched render can skip intermediate texts. The loop invariant of `Chat.StreamReply` is about the value of `fullText` after each chunk, and the final content is the same either way.
- A request or stream that never settles is not modelled: neither `sendMessageStream` nor the `for await` loop has a timeout. Every `Outcome` settles. In the source the `finally` block then never runs, `isLoading` stays true for good, and the gate and the send button refuse every later submission (`BusyRefusesSubmit` states that refusal).
- `handleAiAnalyze` in the config generator is not modelled. It sets a flag around one call to the language-model service.
- `components/CodeBlock.tsx` is not part of this model, because it is clipboard access and a timer. `App.tsx` routing is not part of it either.
- The wizard's rendering of a step's command and details (shown when present) is not modelled as output. `StepTable` states that every step has both.
- InstallationWizard.Wizard.JumpTo: it requires an index of the table, because the buttons calling it are drawn only for those indices.
- ConfigGenerator.GenerateRendersTemplate: the model does not list every interpolation of the template. Its lemmas state where each field lands, but not that nothing else is interpolated.

## Findings

| source | as written | input that shows it | evidently intended | confidence | as-written member | corrected member |
|---|---|---|---|---|---|---|
| components/ChatAssistant.tsx:34-80 | ids are `Date.now()`, `Date.now() + 1` for the reply, and `Date.now()` again for the error message | clock readings of 1000 when the stream opens and 1001 at a failure mid-stream: the error message and the reply share the id `1001`. A failure before the stream, in the same millisecond as the submission: the error message and the user's message share the id `1000` | every message of the transcript has its own id, as the React keys of the message list rely on | not executed; low, since it needs a failure within a millisecond | ChatAssistant.StampsCollideAsWritten | ChatAssistant.TurnIdsFresh |
