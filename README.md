# StandUp business incubator — a verified model of its core

StandUp is a founder's dashboard. It has quests, XP and levels, a daily
streak, and an AI co-founder to chat with. This project models the parts
of the app that decide things and proves what they promise:

- **The chat panels.** There are two of them: the co-founder sheet and the full chat page. Each guards its input, builds the founder's context and the recent history, and stores the user message. Each then appends an empty assistant placeholder and decodes the server-sent-event reply into it, line by line. Finally it stores the answer, or writes an error text over the placeholder.
  - The decoder is specified by pure functions: `StreamDecoder.Lines` for one run of the inner loop, `StreamDecoder.Run` for the whole stream.
  - It is implemented by the nested loops of `ChatSession.DecodeReply` and `ChatSession.DrainBuffer`, proved against those functions.
- **The hooks** for the chat transcript, the profile and the quest list. Each is a class, with the same updates the hook makes to its state.
- **The level rule**, and the progress arithmetic of the dashboard card and of the heads-up bar.
- **The onboarding wizard**: three steps, with a Next button that is disabled while the current field is blank.
- **The sign-in / sign-up form**: the order of its checks, the auth call it makes and the toast each outcome shows.
- **The `ai-cofounder` edge function**: the preflight, how the system prompt and the message list are assembled, and how the gateway's status becomes its own reply. An end-to-end lemma carries that status through to what the chat panel shows.

The store, the network, the auth service, the clock and JSON parsing are
parameters. An insert outcome, a success flag, a `Response` value, a reply
value, timestamps and a `parse` function are passed in, so that every
branch the code takes on them is modelled.

Both panels run the same decoder. The co-founder sheet's copy is at
`src/components/ai/AICoFounder.tsx:92-124` and the chat page's at
`src/pages/AIChat.tsx:88-120`; the rows below cite the first. The two
panels differ only in the context they send. The sheet sends level, XP and
streak, with falsy values defaulted. The chat page sends none of the
three, so the edge function prints `undefined` in those prompt lines
(`CoFounderFunction.ChatPagePromptSaysUndefined`).

Where the project's written description and the code differ, the model follows the code:

- `[DONE]` ends only the inner loop. The outer loop keeps reading chunks, and text after `[DONE]` is decoded when the next chunk arrives (`StreamDecoder.DoneKeepsRest`).
- A payload that fails to parse is put back in front of the buffer. After that no later line is ever decoded (`StreamDecoder.RequeueFreezesReply`).
- The history sent with a request is the transcript as it was before the send. It does not include the message being sent, which the edge function appends itself.
- After a streamed answer the placeholder stays in memory next to the stored assistant row, so the answer appears twice (`ChatSession.AnswerKeptTwice`).
- Whitespace for `trim` is JavaScript's set, and `password.length` counts UTF-16 code units.
- `completeQuest` does not check whether a quest is already completed: it marks it again and returns its reward again. `addQuest` does not check the title.
- `updateStreak` stores the value it is given. There is no day arithmetic.

## Model

| member | source | states |
|---|---|---|
| Text.TrimSpec | src/components/ai/AICoFounder.tsx:31 | `trim()` is empty exactly for all-whitespace text; otherwise it neither starts nor ends with whitespace |
| Text.IndexOf | src/components/ai/AICoFounder.tsx:100 | `indexOf('\n')` is -1 exactly when there is no newline, else the first newline's position |
| Text.Contains | src/pages/Auth.tsx:65 | `includes` holds exactly when the text occurs at some position |
| Text.Utf16Length | src/pages/Auth.tsx:42 | `length` counts UTF-16 units: between the character count and twice it, equal to it for BMP text |
| Text.DatePart | src/hooks/useProfile.tsx:58 | `split('T')[0]` is a prefix without `T`, followed by `T` when shorter than the input |
| StreamDecoder.ActMeaning | src/components/ai/AICoFounder.tsx:104-121 | a line finishes the loop iff it is a `data: ` line with payload `[DONE]`; it is put back iff its payload does not parse; a fragment is emitted iff the payload parses to a non-empty content, and it is that content |
| StreamDecoder.Classify | src/components/ai/AICoFounder.tsx:105-108 | comments, blank lines and lines without `data: ` are ignored, else the trimmed payload; `DataLineIff` and `ClassifyStripAgain` characterise it |
| StreamDecoder.Lines | src/components/ai/AICoFounder.tsx:100-121 | one run of the inner loop; `LinesBuffer`, `LinesFragmentsNonEmpty`, `LinesIsScan`, `LinesSplit` and `LinesFirstLine` characterise it |
| StreamDecoder.Feed | src/components/ai/AICoFounder.tsx:97-121 | one chunk: the buffer grows by the chunk and the content by the inner loop's fragments; `RunContent` and `RunAppend` characterise it |
| StreamDecoder.Run | src/components/ai/AICoFounder.tsx:93-124 | the outer loop over all chunks; `RunContent`, `RunAppend`, `RunFragmentsNonEmpty` and `StalledRun` characterise it |
| StreamDecoder.Act | src/components/ai/AICoFounder.tsx:113-117 | a fragment is reported only when non-empty (falsy content is skipped) |
| StreamDecoder.ConcatAppend | src/components/ai/AICoFounder.tsx:115 | appending fragments in two batches gives the concatenation of both |
| StreamDecoder.LinesBuffer | src/components/ai/AICoFounder.tsx:100-122 | when the inner loop drains, the buffer keeps exactly the unterminated tail; after `[DONE]`, the text after that line; after a parse failure, a complete line and no more text than before |
| StreamDecoder.LinesFragmentsNonEmpty | src/components/ai/AICoFounder.tsx:114 | every fragment the inner loop reports is non-empty |
| StreamDecoder.StreamAppend | src/components/ai/AICoFounder.tsx:93-98 | the outer loop over two batches of chunks continues from the session the first left |
| StreamDecoder.RunAppend | src/components/ai/AICoFounder.tsx:93-98 | the same for the decoder's own feed |
| StreamDecoder.RunContent | src/components/ai/AICoFounder.tsx:89-117 | the content is the starting content followed by every fragment reported, in order |
| StreamDecoder.RunFragmentsNonEmpty | src/components/ai/AICoFounder.tsx:114 | every fragment appended over a whole stream is non-empty |
| StreamDecoder.ScanNoNewline | src/components/ai/AICoFounder.tsx:100 | characters without a newline only extend the pending line |
| StreamDecoder.ScanTail | src/components/ai/AICoFounder.tsx:100 | text without a newline stays whole in the buffer |
| StreamDecoder.ScanHead | src/components/ai/AICoFounder.tsx:101-102 | the first complete line is what precedes the first newline |
| StreamDecoder.LinesIsScan | src/components/ai/AICoFounder.tsx:100-102 | the index-based inner loop equals a character-by-character reading |
| StreamDecoder.ScanSplit | src/components/ai/AICoFounder.tsx:97-102 | a draining character-by-character reading can be split at any point |
| StreamDecoder.LinesSplit | src/components/ai/AICoFounder.tsx:97-102 | after a drained inner loop, appending more text and looping again equals looping once over the whole text: chunk boundaries do not matter |
| StreamDecoder.DataLineIff | src/components/ai/AICoFounder.tsx:106-108 | a line is a data line iff it starts with `data: `, and its payload is the trimmed text after the prefix |
| StreamDecoder.ClassifyStripAgain | src/components/ai/AICoFounder.tsx:104 | stripping a second carriage return does not change how a data line is read |
| StreamDecoder.StalledPrefix | src/components/ai/AICoFounder.tsx:118-121 | a failing data line put back in front of any text stalls the buffer |
| StreamDecoder.RequeueStalls | src/components/ai/AICoFounder.tsx:118-121 | an inner loop that puts a line back leaves the buffer stalled |
| StreamDecoder.StalledLines | src/components/ai/AICoFounder.tsx:97-121 | once stalled, every later inner loop emits nothing and stays stalled, whatever is appended |
| StreamDecoder.StalledRun | src/components/ai/AICoFounder.tsx:93-121 | once stalled, the rest of the stream adds no content |
| StreamDecoder.RequeueFreezesReply | src/components/ai/AICoFounder.tsx:93-121 | when chunk k's feed stops on a parse failure, the final content is what that feed left, whatever follows |
| StreamDecoder.LinesFirstLine | src/components/ai/AICoFounder.tsx:100-121 | one inner-loop step: the first complete line is acted on, then the rest is read |
| StreamDecoder.SplitDataLine | src/components/ai/AICoFounder.tsx:97-117 | a data line split over two chunks shows nothing after the first and its content, exactly once, after the second |
| StreamDecoder.DoneLine | src/components/ai/AICoFounder.tsx:104-109 | `data: [DONE]` ends the loop, and so does `data: [DONE]` followed by a carriage return, once the CR is stripped |
| StreamDecoder.DoneKeepsRest | src/components/ai/AICoFounder.tsx:109 | `[DONE]` ends only the inner loop; the text after it stays in the buffer |
| Transcript.UpdateTouchesLastOnly | src/hooks/useChatMessages.tsx:68-78 | an update keeps the length, every earlier entry and every id, owner, role and timestamp; only an assistant last entry's content changes |
| Transcript.WithLastContent | src/hooks/useChatMessages.tsx:69-77 | the content of an assistant last entry is replaced; `UpdateTouchesLastOnly`, `RefusedUpdate` and `LatestUpdateWins` characterise it |
| Transcript.RefusedUpdate | src/hooks/useChatMessages.tsx:71-73 | on an empty transcript or a user last entry nothing changes |
| Transcript.LatestUpdateWins | src/hooks/useChatMessages.tsx:74-76 | two updates in a row equal the second alone |
| Transcript.UpdateLandsOnLast | src/hooks/useChatMessages.tsx:68-78 | after an assistant entry is appended, an update rewrites exactly that entry |
| Transcript.UpdateAfterUser | src/hooks/useChatMessages.tsx:71-73 | after a user entry is appended, updates are refused |
| Transcript.Optimistic | src/hooks/useChatMessages.tsx:80-87 | the placeholder's id is `temp-` and the millisecond clock; owner empty without a user; role, content and timestamp as given |
| Transcript.OptimisticIdsDiffer | src/hooks/useChatMessages.tsx:82 | placeholders made at different milliseconds have different ids |
| Transcript.Stored | src/hooks/useChatMessages.tsx:45-65 | a row is returned exactly with a user and a successful insert, carrying the store's id and timestamp |
| Transcript.ChatMessages.constructor | src/hooks/useChatMessages.tsx:18-43 | the settled transcript is the fetched rows, or empty with no user or on an error |
| Transcript.ChatMessages.FetchMessages | src/hooks/useChatMessages.tsx:28-43 | a successful fetch replaces the transcript; an error or no user keeps it |
| Transcript.ChatMessages.AddMessage | src/hooks/useChatMessages.tsx:45-66 | the inserted row is appended at the end and returned; otherwise null and no change |
| Transcript.ChatMessages.UpdateLastMessage | src/hooks/useChatMessages.tsx:68-78 | the transcript becomes `WithLastContent` of the old one |
| Transcript.ChatMessages.AddOptimisticMessage | src/hooks/useChatMessages.tsx:80-90 | exactly one `temp-` entry is appended and returned |
| Levels.Level | src/hooks/useProfile.tsx:51 | the level is the unique l with (l-1)·100 ≤ total < l·100 (floor division) |
| Levels.LevelUnique | src/hooks/useProfile.tsx:51 | any level whose band holds the total is the computed level |
| Levels.LevelAtLeastOne | src/hooks/useProfile.tsx:51 | a non-negative total is at least level 1 |
| Levels.LevelMonotone | src/hooks/useProfile.tsx:51 | more XP never lowers the level |
| Levels.LevelStep | src/hooks/useProfile.tsx:50-51 | a gain under 100 XP raises the level by at most one |
| Levels.LevelExamples | src/hooks/useProfile.tsx:51 | 0 and 99 XP are level 1, 100 is 2, 250 is 3, 300 is 4 |
| Levels.QuestRunExample | src/hooks/useProfile.tsx:50-51 | three 25-XP quests from 225 XP reach level 4 only at 300 |
| XPCard.XpForCurrentLevel | src/components/dashboard/XPProgressCard.tsx:12-13 | the next threshold is 100 above the current one |
| XPCard.XpInCurrentLevel | src/components/dashboard/XPProgressCard.tsx:14 | the XP above the current threshold; `InLevelIsRemainder` (the total modulo 100, in [0, 100)) and `Hud.AgreesWithCard` characterise it |
| XPCard.InLevelIsRemainder | src/components/dashboard/XPProgressCard.tsx:12-15 | with the profile's level, the in-level XP is the total modulo 100, in [0, 100) |
| XPCard.NextLevelLabel | src/components/dashboard/XPProgressCard.tsx:43 | the label names the level of the next threshold |
| XPCard.ShowsStreakBadge | src/components/dashboard/XPProgressCard.tsx:32 | the badge is shown for a positive streak; `Hud.FlameMatchesBadge` ties it to the bar's flame |
| Hud.XpNeeded | src/components/layout/HUD.tsx:15 | the divisor is always 100 |
| Hud.ProgressInBand | src/components/layout/HUD.tsx:12-15 | with the profile's level the bar's progress is in [0, 100) |
| Hud.AgreesWithCard | src/components/layout/HUD.tsx:14 | the bar and the dashboard card show the same in-level XP |
| Hud.XpProgress | src/components/layout/HUD.tsx:14 | the XP above the current threshold; `ProgressInBand` and `AgreesWithCard` characterise it |
| Hud.FlameActive | src/components/layout/HUD.tsx:43 | the flame's active style for a positive streak; `FlameMatchesBadge` characterises it |
| Hud.FlameMatchesBadge | src/components/layout/HUD.tsx:43 | the bar's flame is lit exactly when the dashboard card shows its streak badge |
| ProfileStore.Today | src/hooks/useProfile.tsx:58 | the stored date is the part of the ISO timestamp before `T` |
| ProfileStore.AwardXP | src/hooks/useProfile.tsx:50-51 | only total and level change; the total grows by the award and the level band holds it |
| ProfileStore.AwardMakesConsistent | src/hooks/useProfile.tsx:50-51 | after an award the level follows the total |
| ProfileStore.AwardsAdd | src/hooks/useProfile.tsx:50-51 | two awards equal one award of the sum |
| ProfileStore.AwardNeverLowersLevel | src/hooks/useProfile.tsx:50-51 | a non-negative award never lowers a consistent level |
| ProfileStore.WithStreak | src/hooks/useProfile.tsx:83 | only the streak changes, to exactly the given value |
| ProfileStore.ProfileState.constructor | src/hooks/useProfile.tsx:20-45 | the settled profile is the fetched row, null with no user or on an error |
| ProfileStore.ProfileState.UpdateXP | src/hooks/useProfile.tsx:47-69 | no write without user or profile; else total, recomputed level and date are written, and memory changes only on success |
| ProfileStore.ProfileState.UpdateStreak | src/hooks/useProfile.tsx:71-85 | no write without user or profile; else the given streak and date are written, and memory changes only on success |
| QuestLedger.RewardOrDefault | src/hooks/useQuests.tsx:48 | 25 when no reward is passed; an explicit reward, zero included, is kept |
| QuestLedger.Find | src/hooks/useQuests.tsx:74 | `find` returns the first quest with the id, or nothing exactly when none has it |
| QuestLedger.MarkCompleted | src/hooks/useQuests.tsx:90-94 | same length; quests with the id are marked completed at the time, the rest unchanged |
| QuestLedger.MarkAbsent | src/hooks/useQuests.tsx:90-94 | marking an absent id changes nothing |
| QuestLedger.MarkThenFind | src/hooks/useQuests.tsx:90-94 | after marking, the quest found under the id is the old one completed |
| QuestLedger.Without | src/hooks/useQuests.tsx:108 | the filtered list holds exactly the quests without the id |
| QuestLedger.WithoutAppend | src/hooks/useQuests.tsx:108 | filtering distributes over concatenation, so order is kept |
| QuestLedger.WithoutAbsent | src/hooks/useQuests.tsx:108 | deleting an absent id changes nothing |
| QuestLedger.WithoutIdempotent | src/hooks/useQuests.tsx:108 | after a delete no quest has the id, and deleting again changes nothing |
| QuestLedger.NewQuest | src/hooks/useQuests.tsx:53-58 | an inserted quest is uncompleted, with the given fields and the default or given reward |
| QuestLedger.QuestList.constructor | src/hooks/useQuests.tsx:21-46 | the settled list is the fetched rows, or empty with no user or on an error |
| QuestLedger.QuestList.AddQuest | src/hooks/useQuests.tsx:48-69 | a stored quest is prepended and returned; otherwise null and no change |
| QuestLedger.QuestList.CompleteQuest | src/hooks/useQuests.tsx:71-97 | the completion of that id, at the store's clock reading, is written iff there is a user and the id is present; on success the quests are marked and the first one's reward returned |
| QuestLedger.QuestList.DeleteQuest | src/hooks/useQuests.tsx:99-110 | with a user a delete is written; on success the quests with the id leave the list |
| ChatSession.UserName | src/components/ai/AICoFounder.tsx:49 | the name is never empty, and is "Founder" exactly for a missing, empty or literal "Founder" name |
| ChatSession.OrDefault | src/components/ai/AICoFounder.tsx:50-52 | zero or missing gives the default, anything else is kept |
| ChatSession.ActiveTitles | src/components/ai/AICoFounder.tsx:45 | no more titles than quests |
| ChatSession.CompletedCount | src/components/ai/AICoFounder.tsx:46 | no more completed quests than quests |
| ChatSession.QuestsAccounted | src/components/ai/AICoFounder.tsx:45-46 | active titles plus completed count equal the number of quests |
| ChatSession.SummariesAppend | src/components/ai/AICoFounder.tsx:45-46 | both summaries split over concatenation, keeping list order |
| ChatSession.ActiveTitlesMembers | src/components/ai/AICoFounder.tsx:45-53 | a title is listed exactly when some uncompleted quest has it |
| ChatSession.BuildContext | src/components/ai/AICoFounder.tsx:48-55 | name and quest summaries for both panels; level, XP and streak, defaulted, only on the sheet |
| ChatSession.ContextWithoutProfile | src/components/ai/AICoFounder.tsx:49-52 | without a profile the sheet sends "Founder", level 1, 0 XP and streak 0 |
| ChatSession.History | src/components/ai/AICoFounder.tsx:58-61 | the last min(n, 20) entries, in order, as role and content |
| ChatSession.HistoryKeepsRecent | src/components/ai/AICoFounder.tsx:58 | a full history loses only its oldest entry when one more arrives |
| ChatSession.StatusErrorText | src/components/ai/AICoFounder.tsx:76-84 | the rate-limit text iff 429, the credits text iff 402, the generic text otherwise |
| ChatSession.ExchangeOutcome | src/components/ai/AICoFounder.tsx:63-127 | a failed fetch or a non-ok status becomes its error text, an ok reply the decoded content; `StatusErrorText`, `AnswerIsFragments` and `StalledReplyFreezes` characterise it |
| ChatSession.AnswerIsFragments | src/components/ai/AICoFounder.tsx:89-127 | a complete ok reply answers with the in-order concatenation of its fragments |
| ChatSession.StalledReplyFreezes | src/components/ai/AICoFounder.tsx:93-127 | a reply that stalls on an unparsable line answers with what came before it |
| ChatSession.Accumulated | src/components/ai/AICoFounder.tsx:115-116 | one shown text per fragment |
| ChatSession.AccumulatedAt | src/components/ai/AICoFounder.tsx:115-116 | each shown text is the whole content so far, never a lone delta |
| ChatSession.AccumulatedAppend | src/components/ai/AICoFounder.tsx:93-116 | the texts shown over two batches continue from the first batch's content |
| ChatSession.ReadLine | src/components/ai/AICoFounder.tsx:105-121 | the if-chain on one line yields the action `Act` specifies |
| ChatSession.TakeLine | src/components/ai/AICoFounder.tsx:101-121 | one iteration's action and new buffer, related to the decoder's reading of the old buffer |
| ChatSession.DrainBuffer | src/components/ai/AICoFounder.tsx:100-122 | the inner loop leaves `Lines(buffer).rest`; content grows by its fragments; each fragment's accumulated text reaches the placeholder |
| ChatSession.DecodeReply | src/components/ai/AICoFounder.tsx:87-124 | the nested loops produce `Run`'s content and the accumulated texts; the placeholder ends with the content |
| ChatSession.SendAppendsOnly | src/components/ai/AICoFounder.tsx:38-41 | a send keeps every earlier entry; the placeholder stays a `temp-` assistant entry holding the answer or error text |
| ChatSession.AfterSend | src/components/ai/AICoFounder.tsx:38-131 | the transcript after a send: the stored user row, the placeholder with the answer or error text, then the stored answer; `SendAppendsOnly` and `AnswerKeptTwice` characterise it |
| ChatSession.AnswerKeptTwice | src/components/ai/AICoFounder.tsx:115-127 | a stored answer appears in both the placeholder and the stored row after it |
| ChatSession.AwaitReply | src/components/ai/AICoFounder.tsx:63-131 | failures write their text over the placeholder; an answer fills it and is stored after it |
| ChatSession.ChatPanel.constructor | src/components/ai/AICoFounder.tsx:20-21 | the panel opens with empty input, not loading |
| ChatSession.ChatPanel.SendMessage | src/components/ai/AICoFounder.tsx:30-135 | blank input or a send in progress changes nothing; otherwise the trimmed text, context and pre-send history are sent, input is cleared, loading ends false, and the transcript is `AfterSend` |
| Onboarding.CanProceed | src/components/onboarding/OnboardingModal.tsx:54-59 | the Next button's enabling rule; `CanProceedMeaning` characterises it |
| Onboarding.CanProceedMeaning | src/components/onboarding/OnboardingModal.tsx:54-59 | welcome step always enabled; name and goal steps enabled iff their field has a non-whitespace character |
| Onboarding.DotState | src/components/onboarding/OnboardingModal.tsx:146-151 | current iff i is the step, done iff before it, pending iff after it |
| Onboarding.DotsShowProgress | src/components/onboarding/OnboardingModal.tsx:143-151 | the row reads step × done, one current, then pending for the rest |
| Onboarding.ButtonLabel | src/components/onboarding/OnboardingModal.tsx:162 | "Let's Go!" exactly on the last step, "Continue" before it |
| Onboarding.Wizard.constructor | src/components/onboarding/OnboardingModal.tsx:42-44 | the wizard opens on step 0 with empty fields |
| Onboarding.Wizard.EditName | src/components/onboarding/OnboardingModal.tsx:109-120 | typing on the name step sets only the name |
| Onboarding.Wizard.EditGoal | src/components/onboarding/OnboardingModal.tsx:123-133 | typing on the goal step sets only the goal |
| Onboarding.Wizard.HandleNext | src/components/onboarding/OnboardingModal.tsx:46-52 | before the last step, one step forward and no completion; on it, both fields trimmed and the step unchanged |
| Onboarding.Wizard.PressNext | src/components/onboarding/OnboardingModal.tsx:157-159 | a disabled button does nothing; through the button a completion carries a non-empty name and goal with no edge whitespace |
| AuthForm.InitialIsLogin | src/pages/Auth.tsx:13 | sign-up mode exactly when the `mode` parameter is "signup" |
| AuthForm.Validate | src/pages/Auth.tsx:32-50 | the two form checks in order; `ValidateMeaning` and `PasswordLengthBounds` characterise it |
| AuthForm.ValidateMeaning | src/pages/Auth.tsx:32-50 | a form passes iff the email is non-empty and the password has at least 6 units; an empty field wins over a short password |
| AuthForm.PasswordLengthBounds | src/pages/Auth.tsx:42 | 6 characters always pass; 1 or 2 never do |
| AuthForm.SignupName | src/pages/Auth.tsx:62 | an empty name is not sent |
| AuthForm.SignupErrorClassified | src/pages/Auth.tsx:64-77 | "Account exists" iff the message contains "already registered"; otherwise "Signup failed" with the message |
| AuthForm.Submit | src/pages/Auth.tsx:28-94 | no call iff a check fails, with that check's toast; otherwise sign-in or sign-up with the optional name and the reply's toast |
| AuthForm.SubmitToasts | src/pages/Auth.tsx:52-90 | only a successful sign-in shows no toast; only a new account's toast is not destructive |
| AuthForm.AuthPage.constructor | src/pages/Auth.tsx:13-17 | the page opens in the query's mode with empty fields, not loading |
| AuthForm.AuthPage.ToggleMode | src/pages/Auth.tsx:186 | the link flips the mode and keeps the fields |
| AuthForm.AuthPage.EditEmail | src/pages/Auth.tsx:146-156 | typing in the email field sets only the email |
| AuthForm.AuthPage.EditPassword | src/pages/Auth.tsx:157-170 | typing in the password field sets only the password |
| AuthForm.AuthPage.EditDisplayName | src/pages/Auth.tsx:131-144 | the name field, shown only in sign-up mode, sets only the name |
| AuthForm.AuthPage.HandleSubmit | src/pages/Auth.tsx:28-94 | the handler's call and toast are `Submit`'s; loading ends false on every path; the fields are kept |
| CoFounderFunction.QuestsLine | supabase/functions/ai-cofounder/index.ts:28 | "None yet" without titles, the title itself for one; with more, the length of all titles and separators, starting with the first title and ending with the last (`QuestsLineUnfolds` gives what lies between) |
| CoFounderFunction.QuestsLineUnfolds | supabase/functions/ai-cofounder/index.ts:28 | with two or more titles, the first title, ", " and the line of the rest |
| CoFounderFunction.ContextLines | supabase/functions/ai-cofounder/index.ts:24-29 | five lines, the name first and the active-quests line fourth |
| CoFounderFunction.PromptText | supabase/functions/ai-cofounder/index.ts:22-39 | the system prompt: the fixed prose around the context lines; the prose is not characterised, `ChatPagePromptSaysUndefined` and `SheetPromptShowsNumbers` state what the context lines print |
| CoFounderFunction.ChatPagePromptSaysUndefined | supabase/functions/ai-cofounder/index.ts:26-27 | the chat page's prompt prints `undefined` for level, XP and streak |
| CoFounderFunction.SheetPromptShowsNumbers | supabase/functions/ai-cofounder/index.ts:26-27 | the sheet's prompt prints the profile's level, XP and streak or their defaults, never `undefined`; without a profile level 1, 0 XP and a 0-day streak |
| CoFounderFunction.IntTextNotUndefined | supabase/functions/ai-cofounder/index.ts:26-27 | an interpolated number never prints as `undefined` |
| CoFounderFunction.UpstreamMessages | supabase/functions/ai-cofounder/index.ts:42-46 | the system prompt, then the history in order, then the user message: length history + 2 |
| CoFounderFunction.PanelRequestShape | supabase/functions/ai-cofounder/index.ts:42-46 | a panel's request reaches the gateway with at most 22 messages, the latest transcript entry just before the new message |
| CoFounderFunction.ErrorReply | supabase/functions/ai-cofounder/index.ts:88-95 | anything caught gives 500 JSON with the error's message, or "Unknown error" |
| CoFounderFunction.KeyMissing | supabase/functions/ai-cofounder/index.ts:15-19 | an unset or empty key; `Handle` makes no gateway call exactly when it holds (or the request is a preflight or unreadable) |
| CoFounderFunction.GatewayReply | supabase/functions/ai-cofounder/index.ts:63-86 | ok streams the body as `text/event-stream` with 200; 429 and 402 are passed on with their error; other statuses and a thrown fetch become 500 |
| CoFounderFunction.Handle | supabase/functions/ai-cofounder/index.ts:8-96 | a preflight gets an empty 200 and nothing else; an unreadable body or a missing key gives 500 before any gateway call; otherwise exactly one call with key, model, messages and streaming on |
| CoFounderFunction.PanelSeesGatewayOutcome | supabase/functions/ai-cofounder/index.ts:63-86 | end to end: the panel answers with the decoded stream on success, and shows the rate-limit text iff 429, the credits text iff 402 and the generic failure otherwise |
| CoFounderFunction.PanelSeesEarlyFailure | supabase/functions/ai-cofounder/index.ts:13-19 | a request rejected before the gateway, or a thrown gateway fetch, shows the panel's generic failure |

## Left out

- JSON: `JSON.parse` of a payload together with `choices?.[0]?.delta?.content` is the `parse` parameter. A truthy content is a non-empty string; non-string content is not modelled.
- UTF-8: the reply's chunks are the strings `TextDecoder` produced, so a multi-byte sequence split across network reads is not modelled.
- I/O: `fetch`, `reader.read()`, the store calls and `useAuth` are parameters. The `loading` flags of the hooks are not modelled; each constructor gives the state once the initial load has settled.
- Asynchrony: each handler runs to completion. React's batching, interleaved sends and stale closures are not modelled, except that the history is the transcript as it was when the send began.
- The scroll effects, the Enter-key handler, the suggestion buttons that fill the input, and typing in the chat input are UI events; only `sendMessage` is modelled.
- Toasts of the chat panels do not exist. The sign-in page's toasts are values, and the navigation to the dashboard is routing.
- The browser's own `required` and `minLength` checks on the sign-in form are not modelled; only the checks in `handleSubmit` are.
- What `onComplete` does with the onboarding answers belongs to the dashboard, which is not part of this model.
- The progress percentages of the XP card and the heads-up bar are floating point.
- Edge function: CORS header values, logging and the upstream error text it reads are not modelled. The request body is the shape both panels send, so a body without `context` or `history` is not modelled. The fixed prose of the system prompt is rendered by `CoFounderFunction.PromptText`, but no property is proved about that text.
- How the edge function's JSON error body reads is not modelled. The panel never reads that body, because it handles a non-ok status first.
- ChatSession.DrainBuffer: specified only for a transcript whose last entry is the assistant placeholder, which is how `AwaitReply` calls it.
- ChatSession.DecodeReply: specified only for a transcript whose last entry is the assistant placeholder, which is how `AwaitReply` calls it.
- QuestLedger.MarkCompleted: gives every quest with the id the same completion time. The source reads the clock once per matching quest inside its `map`, so the times can differ only when several quests share an id.
- Numbers: XP totals, levels, streaks and counts are unbounded integers. JavaScript numbers are doubles, which lose precision past 2^53 and print in exponent form from 10^21, so `Levels.Level`, `CoFounderFunction.IntText` and `Text.NatToDecimal` differ from the source only at magnitudes that no XP value the app produces reaches.
- Transport: the end-to-end lemmas `CoFounderFunction.PanelSeesGatewayOutcome` and `PanelSeesEarlyFailure` take the chunks the panel reads to be exactly the chunks the gateway sent, as if the proxy and the network kept the chunk boundaries. A different split gives the same content only when `StreamDecoder.LinesSplit` applies: no `[DONE]` and no put-back line before the split.
