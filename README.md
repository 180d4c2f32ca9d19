# Parlios onboarding core, modelled in Dafny

Parlios is a small French coaching web application for freelancers. It has a
ten-question diagnostic. The diagnostic scores the visitor on clarity, system
and mental load, and saves the answers and scores in the browser's
`localStorage`. A seven-day action plan is derived from those answers, the
scores and the chosen persona, and can be copied as text. A follow-up message
tool ("Relance Email / LinkedIn") builds a message from five form fields and
keeps a history of the fifty most recent runs. A keyword-driven coach chat
answers with canned replies.

This project models that core and proves properties of the model:

| file | module | models |
|---|---|---|
| `wrappers.dfy` | `Wrappers` | `Option` |
| `strings.dfy` | `Strings` | `toLowerCase`, `trim`, `includes`, `join`, decimal rendering |
| `keyword_match.dfy` | `KeywordMatch` | the first-match keyword table (`find` + `some` + `includes`) |
| `records.dfy` | `Records` | the stored records (`DiagnosticAnswers`, `DiagnosticScores`, `ToolRun`, `ChatMessage`) |
| `browser.dfy` | `Browser` | `localStorage`, as a class over a map |
| `storage.dfy` | `Storage` | the keys, getters and setters, `addToolRun`, `personaData` |
| `chat_storage.dfy` | `ChatStorage` | the chat history kept to its last fifty messages |
| `scoring.dfy` | `Scoring` | `calculateScores` |
| `diagnostic.dfy` | `Diagnostic` | the questionnaire stepper, as a class |
| `plan.dfy` | `Plan` | `generatePlan`, the copied text, the score cards and their colours |
| `tools.dfy` | `Tools` | `generateRelanceMessage`, and the tool page as a class |
| `chat.dfy` | `Chat` | the canned responder, and the conversation as a class |

Some source values depend only on the program's own constants: the plan's
tasks and themes, the message parts and the chat replies. These are
enumerations, and each enumeration has a `Text()` or `Name()` function that
gives the exact wording of the source. An action's label ("Facile",
"Impact", "Système") is computed from its kind, because in the source the
label always agrees with the `type` field.

Imperative source code is modelled with classes and methods:
- the React state of the diagnostic, tools and chat pages;
- `localStorage`;
- `generatePlan`, which pushes action after action and day after day.

Each such method is proved against a specification function (for example
`GeneratePlan` against `WeekPlan`). The properties are then proved as lemmas
about those functions.

`50 + 10·energie − 8·urgence` gives 20..92 for sliders in 1..5 (`Scoring.ChargeMentaleRange`).

## Model

| member | source | states |
|---|---|---|
| Strings.Lower | src/pages/Chat.tsx:56 | lower-casing keeps the length and maps every character through the same one-character fold |
| Strings.LowerIdempotent | src/pages/Chat.tsx:56 | lower-casing an already lower-cased text changes nothing |
| Strings.TrimEmptyIffBlank | src/pages/Diagnostic.tsx:110 | a trimmed text is empty exactly when the text is only white space |
| Strings.DecimalRoundTrip | src/pages/Chat.tsx:48 | the decimal text of a non-negative integer reads back as that integer |
| KeywordMatch.FirstMatchSpec | src/pages/Chat.tsx:57-59 | `find` returns nothing exactly when no entry has a keyword in the text; otherwise it returns the matching entry with the least index |
| KeywordMatch.FirstMatchAt | src/pages/Chat.tsx:57-59 | if entry k matches and no earlier entry does, `find` returns entry k |
| KeywordMatch.AnyKeywordPair | src/pages/Tools.tsx:65 | a row with two keywords matches exactly when the text includes one of them |
| Records.Get | src/lib/storage.ts:12-23 | an answer read from the record has the field's kind: a number for the two sliders, text otherwise |
| Records.GetSet | src/pages/Diagnostic.tsx:92-97 | setting one field of the answers stores the value there and leaves every other field as it was |
| Storage.PersonaNamed | src/lib/storage.ts:10 | a persona found for a key has that key |
| Storage.PersonaKeyRoundTrip | src/lib/storage.ts:10 | each persona's key names that persona back, and distinct personas have distinct keys |
| Storage.GetPersona | src/lib/storage.ts:41-43 | with nothing stored under the persona key, the persona is `null` |
| Storage.SetPersona | src/lib/storage.ts:45-47 | only the persona key is rewritten, and reading it back gives the persona's key |
| Storage.GetDiagnosticAnswers | src/lib/storage.ts:49-52 | with nothing stored under the answers key, the answers are `null` |
| Storage.SetDiagnosticAnswers | src/lib/storage.ts:54-56 | only the answers key is rewritten, and reading it back gives the same answers |
| Storage.GetDiagnosticScores | src/lib/storage.ts:58-61 | with nothing stored under the scores key, the scores are `null` |
| Storage.SetDiagnosticScores | src/lib/storage.ts:63-65 | only the scores key is rewritten, and reading it back gives the same scores |
| Storage.GetToolRuns | src/lib/storage.ts:67-70 | with nothing stored, the tool-run list is empty |
| Storage.PrependCapped | src/lib/storage.ts:79-80 | the kept list has 1 to 50 runs: the new run first, then the older runs in order, cut so that at most 50 remain |
| Storage.PrependCappedIgnoresOld | src/lib/storage.ts:79-80 | stored runs beyond the first fifty make no difference to the list kept |
| Storage.PrependCappedTwice | src/lib/storage.ts:72-81 | two runs added in a row sit newest first, in front of the older runs, cut to fifty |
| Storage.AddToolRun | src/lib/storage.ts:72-81 | only the tool-run key changes; the stored list starts with the new run (id and date supplied), followed by the first 49 older runs, at most fifty in all |
| Storage.PersonaData | src/lib/storage.ts:85-130 | every persona has three bullets, a title and a call to action |
| Storage.PersonaTitlesDistinct | src/lib/storage.ts:85-130 | distinct personas have distinct titles |
| ChatStorage.KeepLast | src/lib/chat-storage.ts:19 | `slice(-n)` for n ≥ 1 (the library uses 50) keeps the last min(n, length) messages, i.e. a suffix, and the whole list when it is short enough; `slice(-0)` keeps the whole list |
| ChatStorage.KeepLastIdempotent | src/lib/chat-storage.ts:17-21 | trimming an already trimmed history changes nothing |
| ChatStorage.KeepLastAppend | src/lib/chat-storage.ts:17-21 | trimming after every new message gives the same history as trimming the whole conversation once |
| ChatStorage.GetHistory | src/lib/chat-storage.ts:12-15 | with nothing stored, the history is empty |
| ChatStorage.SaveHistory | src/lib/chat-storage.ts:17-21 | only the history key changes; the stored history is the last (at most) fifty messages, in order, and the whole list when short enough |
| ChatStorage.ClearHistory | src/lib/chat-storage.ts:23-25 | the key is removed, nothing else changes, and the history reads back empty |
| Scoring.Clamp | src/pages/Diagnostic.tsx:135 | the clamp gives a value in 0..100: the value itself when in range, else the bound it crossed |
| Scoring.SliderOr3 | src/pages/Diagnostic.tsx:147-148 | `x \|\| 3` is never 0; it is the slider value when that is present and not 0, and 3 when the slider is missing or 0 |
| Scoring.Clarte | src/pages/Diagnostic.tsx:128-135 | definition; properties in `ClarteIsRuleSum`, `ClarteDependsOn`, `VisionBonus` |
| Scoring.Systeme | src/pages/Diagnostic.tsx:137-144 | definition; properties in `SystemeIsRuleSum`, `SystemeDependsOn`, `OffreBonus` |
| Scoring.ChargeMentale | src/pages/Diagnostic.tsx:146-150 | definition; properties in `ChargeMentaleRange`, `MissingSliderIsThree` |
| Scoring.CalculateScores | src/pages/Diagnostic.tsx:127-153 | all three scores lie in 0..100 |
| Scoring.ClarteIsRuleSum | src/pages/Diagnostic.tsx:128-135 | clarity is 50 plus the sum of the deltas of every matching clarity rule, clamped once at the end |
| Scoring.SystemeIsRuleSum | src/pages/Diagnostic.tsx:137-144 | system is 50 plus the sum of the deltas of every matching system rule, clamped once at the end |
| Scoring.ClarteDependsOn | src/pages/Diagnostic.tsx:128-135 | clarity depends only on the objective, the blocker and the 30-day vision |
| Scoring.SystemeDependsOn | src/pages/Diagnostic.tsx:137-144 | system depends only on the weekly time, the current offer and the main channel |
| Scoring.ClampNeverBinds | src/pages/Diagnostic.tsx:127-144 | for any answers, clarity stays in 20..85 and system in 25..90, so both clamps never bind |
| Scoring.VisionBonus | src/pages/Diagnostic.tsx:134 | a vision earns +15 clarity exactly when it is longer than 50 characters (50 earns nothing) |
| Scoring.OffreBonus | src/pages/Diagnostic.tsx:141 | an offer earns +15 system exactly when it is longer than 30 characters |
| Scoring.ChargeMentaleRange | src/pages/Diagnostic.tsx:146-150 | for sliders in 1..5 or unanswered, mental load is the unclamped formula and lies in 20..92 |
| Scoring.MissingSliderIsThree | src/pages/Diagnostic.tsx:147-149 | missing or zero sliders count as 3, giving mental load 56 |
| Scoring.ExampleScores | src/pages/Diagnostic.tsx:127-153 | worked values: the best clarity 85, the worst clarity 20, and mental load 92, 20 and 56 at the slider corners and the middle |
| Diagnostic.SlidersAskForNumbers | src/pages/Diagnostic.tsx:20-79 | a question is a slider exactly when its field holds a number |
| Diagnostic.QuestionFieldsDistinct | src/pages/Diagnostic.tsx:20-79 | no two questions ask for the same field |
| Diagnostic.ScoringRulesUseOfferedChoices | src/pages/Diagnostic.tsx:27-72 | every answer a scoring rule compares against is one of the choices that question offers |
| Diagnostic.CurrentValue | src/pages/Diagnostic.tsx:99-105 | a slider shows a non-zero number (3 when unanswered); other questions show text ("" when unanswered) |
| Diagnostic.AnsweredIff | src/pages/Diagnostic.tsx:107-111 | a slider question can always be passed, whatever the answers; any other question exactly when its value is present, is text and is not only white space |
| Diagnostic.DisplaysWhatWasEntered | src/pages/Diagnostic.tsx:92-105 | the value just entered for a question is the value it displays (a slider set to 0 aside) |
| Diagnostic.DiagnosticForm.GetCurrentValue | src/pages/Diagnostic.tsx:99-105 | definition on the current question; properties in `CurrentValue` |
| Diagnostic.DiagnosticForm.CanProceed | src/pages/Diagnostic.tsx:107-111 | definition on the current question; properties in `AnsweredIff` |
| Diagnostic.DiagnosticForm.constructor | src/pages/Diagnostic.tsx:83-85 | the form starts at step 0, with no answers and results hidden |
| Diagnostic.DiagnosticForm.UpdateAnswer | src/pages/Diagnostic.tsx:92-97 | only the current question's field changes; the step stays, and every earlier question stays answered |
| Diagnostic.DiagnosticForm.HandleNext | src/pages/Diagnostic.tsx:113-119 | before the last step it advances by one without touching storage; on the last step it saves the answers and their scores and shows the results; every text and choice question is then non-blank, while sliders never moved stay unset in the saved answers (and score as 3) |
| Diagnostic.DiagnosticForm.HandlePrevious | src/pages/Diagnostic.tsx:121-125 | it goes back one step, or stays at step 0; nothing else changes |
| Diagnostic.DiagnosticForm.CalculateAndSave | src/pages/Diagnostic.tsx:155-160 | exactly the answers and scores keys are written; they read back as the answers and `calculateScores` of them; results are shown |
| Plan.ClarteActions | src/pages/Plan.tsx:41-51 | the actions pushed for day 1 are day 1 of the decision table |
| Plan.OffreActions | src/pages/Plan.tsx:64-73 | the actions pushed for day 3 are day 3 of the decision table |
| Plan.ProspectionActions | src/pages/Plan.tsx:75-90 | the actions pushed for day 4 are day 4 of the decision table |
| Plan.ContenuActions | src/pages/Plan.tsx:103-116 | the actions pushed for day 6 are day 6 of the decision table |
| Plan.GeneratePlan | src/pages/Plan.tsx:19-130 | without answers the result is the one-day default plan; otherwise it is the seven-day table for the persona, answers and scores |
| Plan.PlanFromStorage | src/pages/Plan.tsx:139-145 | the page's plan is built from exactly what storage holds: the default plan without saved answers, else the week for the saved persona, answers and scores |
| Plan.WeekPlan | src/pages/Plan.tsx:39-129 | definition of the seven days; `GeneratePlan` is proved to build it, properties in `WeekPlanShape` and the four day rules |
| Plan.WeekPlanShape | src/pages/Plan.tsx:39-129 | the week has seven days, numbered 1..7, with themes Clarté, Organisation, Offre, Prospection, Relance, Contenu, "Bilan & Next Steps"; each day is easy, impact, system in that order |
| Plan.DefaultPlanShape | src/pages/Plan.tsx:24-37 | the default plan is the single day 1 "Clarification" with its three tasks in order |
| Plan.ClarteDayRule | src/pages/Plan.tsx:42-51 | day 1 opens with the one-sentence exercise exactly when scores exist and clarity is below 60; missing scores count as clear; the system task never changes |
| Plan.OffreDayRule | src/pages/Plan.tsx:65-73 | day 3 depends on the answers only through "offer longer than 20 characters", and opens with the ten-word task exactly then; its impact task (the services page) and system task (the proposal template) are the same for every answer |
| Plan.ProspectionDayRule | src/pages/Plan.tsx:76-90 | day 4 has a LinkedIn version exactly for "LinkedIn", an e-mail version exactly for "Email / newsletter", and one shared version for every other channel |
| Plan.ContenuDayRule | src/pages/Plan.tsx:104-116 | day 6 has a version exactly for "sales", one exactly for "scale", and one shared by every other persona, including none; the system task never changes |
| Plan.PlanText | src/pages/Plan.tsx:148-154 | definition of the copied text; properties in `DayTextKeepsAction`, `PlanTextKeepsDay`, `ExportKeepsEveryAction`, `ExportStartsWithFirstHeading` |
| Plan.DayTextKeepsAction | src/pages/Plan.tsx:148-154 | each action's line, label and task, appears in its day's text |
| Plan.PlanTextKeepsDay | src/pages/Plan.tsx:148-154 | each day's text appears in the copied text |
| Plan.ExportKeepsEveryAction | src/pages/Plan.tsx:148-154 | every action of every day appears, label and task, in the copied text |
| Plan.ExportStartsWithFirstHeading | src/pages/Plan.tsx:148-154 | the copied text opens with "Jour" followed by the first day's number and theme |
| Plan.OrDefault | src/pages/Plan.tsx:164-166 | `v \|\| 50` gives 50 exactly when the score is missing, 0, or 50 itself; otherwise the score |
| Plan.ScoreData | src/pages/Plan.tsx:163-167 | three cards labelled Clarté, Système, Charge mentale; each shows its score when that was saved and is not 0, and 50 when scores are missing or that score is 0 |
| Plan.ScoreDataOfDiagnostic | src/pages/Plan.tsx:163-167 | for scores computed by the diagnostic, every card shows a value in 1..100 |
| Plan.ScoreColor | src/pages/Plan.tsx:169-173 | success exactly from 70, primary exactly from 40 to 69, destructive exactly below 40 |
| Plan.ScoreColorMonotone | src/pages/Plan.tsx:169-173 | a higher score never gets a worse colour |
| Plan.ScoreColorClassName | src/pages/Plan.tsx:169-173 | each of the three class names is returned for exactly its band of scores |
| Plan.ZeroScoreShownAsPrimary | src/pages/Plan.tsx:163-173 | a saved score of 0 on any card is shown as 50 in the primary colour, like every card without scores |
| Tools.RegisterOf | src/pages/Tools.tsx:43-44 | the tone is formal exactly for "pro" and warm exactly for "chaleureux" |
| Tools.GreetingByTable | src/pages/Tools.tsx:48-51 | the overwriting greeting code agrees with a channel × register table; a professional LinkedIn message opens with "Hey !" |
| Tools.OpeningFor | src/pages/Tools.tsx:53-61 | the formal opening exactly for "pro", the warm one exactly for "chaleureux" (not pro) |
| Tools.ContextLineByTable | src/pages/Tools.tsx:63-73 | the context sentence is what the first matching row of the keyword table gives for the lower-cased context; with no match, the fallback quotes a context longer than 10 characters |
| Tools.ObjectiveLineByTable | src/pages/Tools.tsx:75-85 | the objective sentence is the first matching row of its keyword table, else the fallback that quotes an objective longer than 5 characters |
| Tools.LookupThreePairs | src/pages/Tools.tsx:65-72 | an `if … else if …` chain over three keyword pairs is the first-match lookup in the table of those pairs |
| Tools.ClosingFor | src/pages/Tools.tsx:87-101 | the closing is in its e-mail form exactly for e-mail, formal exactly for "pro", warm exactly for "chaleureux" (not pro) |
| Tools.GenerateRelanceMessage | src/pages/Tools.tsx:35-111 | definition; properties in `MessageFrame`, `MessageQuotesLongContext`, `OtherChannelIsLinkedIn`, `OtherToneIsDirect`, `OtherLengthIsLong` |
| Tools.Paragraphs | src/pages/Tools.tsx:103-110 | a short message has 3 paragraphs, a medium one 5, any other length 7; each opens with the greeting and ends with the closing |
| Tools.RenderIsParagraphs | src/pages/Tools.tsx:103-110 | each template is its paragraphs joined by blank lines |
| Tools.MessageFrame | src/pages/Tools.tsx:35-111 | every message starts with its greeting and ends with its closing |
| Tools.RenderQuotesReminder | src/pages/Tools.tsx:103-110 | whatever the length, a message whose context sentence quotes a text contains that text |
| Tools.MessageQuotesLongContext | src/pages/Tools.tsx:63-110 | a context that matches no keyword and is longer than 10 characters appears verbatim in the message, whatever the other fields |
| Tools.OtherChannelIsLinkedIn | src/pages/Tools.tsx:42 | every channel other than "email" gives the same message as "linkedin" |
| Tools.OtherToneIsDirect | src/pages/Tools.tsx:43-44 | every tone other than "pro" and "chaleureux" gives the same message as "direct" |
| Tools.OtherLengthIsLong | src/pages/Tools.tsx:45-46 | every length other than "court" and "moyen" gives the same message as "long" |
| Tools.InputOr | src/pages/Tools.tsx:154-158 | `inputs[key] \|\| fallback` is the saved value when that is present and not empty, else the fallback |
| Tools.InputsRoundTrip | src/pages/Tools.tsx:136-158 | loading the inputs saved by a run gives back the form values they were saved from (the option fields are never empty) |
| Tools.ToolsPage.constructor | src/pages/Tools.tsx:116-129 | the form defaults: empty context and objective, "email", "chaleureux", "moyen", no output, history closed and read from storage |
| Tools.ToolsPage.HandleGenerate | src/pages/Tools.tsx:131-142 | the output is the generated message; the form is unchanged; the run, with the form's inputs, is stored at the front of the history (cut to fifty), and the history shown is what storage now holds |
| Tools.ToolsPage.LoadFromHistory | src/pages/Tools.tsx:152-162 | a follow-up run refills the five fields (with their defaults for missing or empty inputs) and the output, and closes the history; any other run changes nothing |
| Chat.BotReply | src/pages/Chat.tsx:55-65 | definition; properties in `BotReplySpec`, `BotReplyRules`, `BotReplyIgnoresCase` |
| Chat.BotReplySpec | src/pages/Chat.tsx:55-65 | the fallback is given exactly when no group of keywords occurs in the lower-cased input; otherwise the reply of the first matching group |
| Chat.BotReplyRules | src/pages/Chat.tsx:13-29 | a "stuck" keyword gives the stuck reply; failing that a "time" keyword gives the time reply; failing that a "clients" keyword gives the clients reply |
| Chat.BotReplyIgnoresCase | src/pages/Chat.tsx:56 | the reply ignores the case of the input |
| Chat.ChatSession.constructor | src/pages/Chat.tsx:35-42 | the conversation starts with the welcome message alone and an empty input |
| Chat.ChatSession.SetInput | src/pages/Chat.tsx:115 | typing replaces the input and nothing else |
| Chat.ChatSession.CanSend | src/pages/Chat.tsx:122 | the send button is enabled exactly when the input is not only white space |
| Chat.ChatSession.HandleSend | src/pages/Chat.tsx:44-72 | a blank input changes nothing; otherwise the typed text is appended as the visitor's message (id from the first clock read `now`), its reply is scheduled (id `later + 1`, from the second read, no earlier than the first), and the input is cleared |
| Chat.ChatSession.DeliverReply | src/pages/Chat.tsx:67-69 | the oldest scheduled reply is appended to the conversation |
| Chat.SendAndWait | src/pages/Chat.tsx:44-72 | a non-blank input, once its timer fires, leaves the visitor's message (id `now`) followed by the bot's reply (id `later + 1`) at the end of the conversation |
| Chat.ReplyIdDiffersFromUserId | src/pages/Chat.tsx:48-62 | within one send the reply's id differs from the visitor's message id |

## Left out

- JSON and storage failures: `JSON.parse` of a corrupt stored text, a value stored in an unexpected shape, and `localStorage` quota errors are not modelled. A stored text is represented by the value it encodes. A wrong shape reads as "nothing stored" (`null` or `[]`), whereas the source would return whatever was parsed.
- Storage.GetPersona: returns the stored text unchecked, as the source's cast does; the model does not claim the value is one of the four persona keys.
- `crypto.randomUUID()`, `new Date().toISOString()` and `Date.now()` are parameters (`id`, `date`, and `now` and `later` for the two clock reads of a send, with `now <= later`), because randomness and clocks are outside the model. Ids are not promised unique across sends: a send one millisecond after another can give its visitor message the earlier reply's id.
- Chat.ChatSession.DeliverReply: the 800 ms `setTimeout` is modelled as a queue of pending replies, delivered oldest first. The delay and any interleaving with unmount are not modelled.
- Chat.ChatSession: keeps the reply table in a field that the constructor sets to the page's table. The greeting and reply texts are an enumeration whose `Text()` gives the exact wording.
- Strings.Lower: folds A-Z and the Latin-1 capitals À-Þ only, which covers the keywords compared against. Other Unicode case mappings of `toLowerCase` (Greek, Cyrillic, the special cases) are not modelled.
- Strings.Trim: removes ASCII white space and the no-break space only. The other Unicode spaces and line terminators that `trim` also removes are not modelled.
- Text lengths (`length > 10`, `> 20`, `> 30`, `> 50`) count characters, where JavaScript counts UTF-16 code units. The two differ only for characters outside the Basic Multilingual Plane, such as emoji.
- `||` on a missing or `NaN` number: the stored numbers are always integers in the model, so `NaN` does not arise.
- Plan.GeneratePlan: labels are derived from the action's kind, and tasks and themes are an enumeration whose `Text()`/`Name()` give the exact wording used in the copied text.
- The clipboard write and the toast of `copyPlan` and `copyOutput`: only the copied plan text is modelled (`Plan.PlanText`).
- Rendering: the JSX layout, icons, progress bar percentage, navigation, the tool picker (`selectedTool`), the inactive tools, the history display cut to five entries, and the history toggle button are not modelled.
- The chat does not call `chatStorage`; the persisted history is modelled on its own, as the library offers it.
- The Supabase edge functions and every file outside the core are not part of this model.
