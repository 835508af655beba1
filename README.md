# JeffChat conversation core, in Dafny

This project models the conversation core of the JeffChat screen: the `JeffChat` component of
`src/App.tsx` together with the turn assembly and fallbacks of `services/geminiService.ts`, over the
records of `types.ts`.

The component holds the chat state:
- the messages and their reactions;
- the planner, expenses, wishlist, novel log and stories;
- the focus timer and the user profile;
- the persona, connectivity and the typing indicator;
- the current audio source and the inactivity clock.

The handlers that change this state are:
- the tool dispatcher `executeTool`;
- the send turn `handleSendMessage`, with `generateResponse` and its tool round trip;
- the proactive check-in interval;
- single-flight audio playback `playAudio`;
- reactions, deletes, story seen-marking, and the timer buttons and tick.

The model has four layers:
- **Records (`types.dfy`).** One datatype per record and enumeration of `types.ts`: Role, Persona, Attachment, Reaction, Story, Message, UserProfile, PlannerItem, Expense, WishlistItem, NovelLog and TimerState. An absent optional array is the empty sequence.
- **Pure updaters (`updaters.dfy`, `strings.dfy`, `seqs.dfy`).** The state-updater lambdas of `App.tsx`: reactions, novel upsert, delete filters, seen-marking, timer tick/toggle/reset and `formatTime`. Also the JavaScript string operations they rely on: `trim`, `toString`, `padStart` and `join`.
- **The generation service (`gemini.dfy`).** Every Gemini SDK call is a field of an `Oracle` datatype: a total function from what is sent to `Option` of what comes back, where `None` means the call threw. On top of that sit:
  - the context built for a turn;
  - the `userParts` loop and the `generateImage` loop, as methods;
  - reading text, calls, images and audio out of an answer;
  - the speech-text sanitiser and the sources suffix;
  - the fallbacks of `generateProactiveMessage`, `updateBestieBio` and `updateJeffStoryline`.
- **The component (`store.dfy`, `store_facts.dfy`, `persistence.dfy`, `chat.dfy`).**
  - `Store.State` is the component's state as one value. Store defines each handler as a function from the old state to the new one.
  - `StoreFacts` proves what those steps promise.
  - `Chat.JeffChat` is a class whose fields are the state hooks and refs. Each method updates them in place and is proved to perform exactly the corresponding Store step, so every StoreFacts lemma applies to it. Each method also keeps the class invariant `Valid()`:
    - at most one audio source is live, it is the last one started, its `onended` handler has not run, and `playingId`, when set, names it;
    - each role holds at most one reaction on every message.

Inputs the code takes from the browser become parameters:
- `Date.now()` becomes a `Clock` (`now` and `today`);
- `Math.random() > 0.7` becomes `rollsBio`;
- whether the reply's audio decodes becomes `decodes`;
- the interval's time becomes `now`.

## Model

| member | source | states |
|---|---|---|
| Updaters.WithReactionReplaces | src/App.tsx:1118 | after a role reacts, it holds exactly one reaction (the new one, last); the other role's reactions are all still there |
| Updaters.ReactToKeepsOneReactionPerRole | src/App.tsx:1118 | reacting keeps "at most one reaction per role per message", keeps the message count and every message body, leaves messages with another id unchanged, and gives the target exactly one reaction from the role, the new one |
| Updaters.LastUserId | src/App.tsx:1081 | the id found is that of the last user message; none is found only when there is no user message |
| Updaters.ModelReactsToLastUserMessage | src/App.tsx:1081 | without a message id the model reacts to the last user message, and with no user message the messages are unchanged |
| Updaters.FindByTitle | src/App.tsx:1080 | `findIndex`: the first position with the title, or none when no entry has it |
| Updaters.UpsertNovelEffect | src/App.tsx:1080 | an unknown title appends one log (notes = gossip or ""); a known title changes only its first entry (chapter replaced, notes replaced only by truthy gossip) and keeps the length |
| Updaters.FindByTitleFirst | src/App.tsx:1080 | the first entry with the title is the one `findIndex` answers |
| Updaters.UpsertNovelIdempotent | src/App.tsx:1080 | recording the same progress twice equals recording it once |
| Updaters.RemoveById | src/App.tsx:1120 | a delete keeps exactly the items whose id differs from the deleted one |
| Updaters.RemoveByIdElementwise | src/App.tsx:1120 | a delete keeps order and repetitions: deleting from a concatenation deletes from each part, and a single item stays exactly when its id differs |
| Updaters.NoNewStoryAfterViewing | src/App.tsx:1125 | after the viewer closes no story is new, the count is unchanged and only the seen flags changed |
| Updaters.TicksCountDown | src/App.tsx:839-840 | an active timer loses exactly one second per tick while seconds remain |
| Updaters.TimerRunsOut | src/App.tsx:839-844 | an active timer with n seconds left is inactive at zero after n + 1 ticks and stays so |
| Updaters.ToggleAndReset | src/App.tsx:861-864 | Start/Pause flips only the active flag and twice restores the timer; Reset stops it with the full duration left and keeps the label |
| Updaters.FormatTimeRoundTrip | src/App.tsx:848-852 | for any non-negative number of seconds the display is two or more minute digits, a colon and two second digits, and reads back as the seconds shown; it is exactly five characters below 100 minutes |
| Strings.TrimEmptyIffBlank | src/App.tsx:1087 | `trim()` gives "" exactly when the text is all white space |
| Strings.JoinEmptyIffNoPieces | services/geminiService.ts:286-287 | a join of non-empty pieces is empty exactly when there are no pieces |
| Gemini.BuildUserParts | services/geminiService.ts:208-220 | the `forEach` push loop builds the user turn: the input text, then the attachments with base64 data |
| Gemini.UserPartsShape | services/geminiService.ts:208-220 | the user turn starts with the input, has one inline part per attachment with base64 data and only those, and carries each such attachment's data |
| Gemini.ContextWindow | services/geminiService.ts:222-229 | the context is the preamble (bio, life story defaulting to "Just started journalling.", mode), then the last min(8, n) messages as text-only turns with their roles, then the user turn |
| Gemini.GenerateImage | services/geminiService.ts:149-166 | the loop returns the data of the first inline part, or nothing when the call fails or has no inline part |
| Gemini.ImageDataFirstInline | services/geminiService.ts:156-161 | an image comes back exactly when some part is inline, and it is the data of the first inline part |
| Gemini.StripLinksDeletesOnly | services/geminiService.ts:279 | removing links only deletes characters: the result is a subsequence of the input (`SubsequenceOf`: an increasing map from its positions into the input's, preserving characters), so every kept character comes from the input |
| Gemini.KeptPositions | services/geminiService.ts:279 | gives the increasing positions of the input that the link removal keeps |
| Gemini.StripLinksRemovesLink | services/geminiService.ts:279 | a link `[t](u)` at the front, with no `]` in `t`, no `)` in `u` and no line break in either, is removed whole and the rest is processed as it stands |
| Gemini.StripLinksNoBracket | services/geminiService.ts:279 | text without `[` has no link to remove |
| Gemini.SpeechTextClean | services/geminiService.ts:279 | the speech text holds no `*`, `_`, `~` or backtick and has no white space at either end |
| Gemini.SpeechTextOfPlainText | services/geminiService.ts:279 | plain trimmed text without marks or brackets is spoken exactly as written |
| Gemini.SourceEntries | services/geminiService.ts:283-285 | every formatted source `[title](uri)` is non-empty |
| Gemini.SourceEntriesEmptyIff | services/geminiService.ts:282-286 | there are no sources exactly when no grounding chunk has a web uri |
| Gemini.SourcesOnlyWithWebUri | services/geminiService.ts:282-288 | the "(Sources: …)" suffix appears exactly when some chunk has a web uri, and is the entries joined by ", " |
| Gemini.SummaryFallbacks | services/geminiService.ts:312-332 | a failing or empty bio or life-story summary keeps the current value, a summary is either the current value or the service's answer, and a failing check-in says "u there?" with no call |
| Store.Initial | src/App.tsx:982-1001 | the starting state satisfies the chat invariant |
| StoreFacts.DispatchFrame | src/App.tsx:1071-1084 | every tool keeps the invariant and every message body, adds at most one message, and leaves persona, connectivity, playback, the inactivity clock and the profile's name, bio and topics alone |
| StoreFacts.DoodleFrame | src/App.tsx:1074 | the doodle tool adds at most one message, without reactions, and keeps the invariant |
| StoreFacts.ReactFrame | src/App.tsx:1081 | the model's reaction keeps the invariant, the message count and every body |
| StoreFacts.DispatchMediaEffects | src/App.tsx:1074-1075 | the picture tools' whole new state and result string: generate_doodle appends the model message "Here's a doodle!" with the picture, stamped and identified by the tool's clock, and says "Sent doodle."; post_story puts the story first and rewrites the life story and says "Posted story!"; without a picture both say "Failed.", the doodle leaving only the indicator on and the story leaving the state untouched |
| StoreFacts.DispatchEffects | src/App.tsx:1071-1084 | each tool's exact effect and result string: set_timer sets active, duration = remaining = minutes·60 and the label or "Study"; the planner, expense and wishlist ("add") tools append exactly one item and change nothing else; other wishlist actions change nothing and say "Updated."; the novel tool upserts; post_story posts only with an image; generate_doodle adds a message exactly when an image comes back; start_game opens the canvas for the doodle challenge and otherwise changes nothing, saying "Started " and the game; react_to_message sets the messages to the model's reaction and says "Reacted."; an unknown name changes nothing and says "Tool not found." |
| StoreFacts.RunToolsResponses | services/geminiService.ts:248-257 | exactly one tool response per executed call, in call order, carrying the call's name (the result text itself is `Dispatch`'s, see `DispatchEffects`) |
| StoreFacts.ExecutedIsFilter | services/geminiService.ts:250-251 | the executed calls are exactly the calls with a name and arguments, in order |
| StoreFacts.RunToolsNothingExecutable | services/geminiService.ts:250-257 | when no call has a name and arguments, no tool runs and no response is recorded |
| StoreFacts.RunToolsFrame | services/geminiService.ts:248-257 | the tool loop keeps the invariant and every body, and adds at most one message per call |
| StoreFacts.RespondFrame | services/geminiService.ts:194-310 | `generateResponse` keeps the invariant and every body, and changes nothing offline or without an executor |
| StoreFacts.RespondOffline | services/geminiService.ts:204-206 | offline, the reply is "no signal rn. saved that tho." with no audio, whatever the service would answer |
| StoreFacts.RespondMainFailure | services/geminiService.ts:306-309 | a failing main call yields "brain freeze. try again?" with no audio and no state change |
| StoreFacts.FinishEndsWithSources | services/geminiService.ts:276-288 | the final text is non-empty before the sources suffix and ends with it |
| StoreFacts.ToolRoundText | services/geminiService.ts:258-288 | after a tool round the text is either the brain-freeze text or ends with the main answer's sources |
| StoreFacts.AnswerText | services/geminiService.ts:244-288 | the reply text is never empty, and unless it is the brain-freeze text it ends with the main answer's sources |
| StoreFacts.RespondReplyText | services/geminiService.ts:271-288 | the text `generateResponse` returns is never empty, and carries the sources suffix of the main answer unless it is a fallback |
| StoreFacts.RespondWithoutToolsIgnoresFollowUp | services/geminiService.ts:248-274 | without calls or without an executor no follow-up call is made (its answer cannot matter) and nothing changes |
| StoreFacts.RespondToolRound | services/geminiService.ts:248-271 | with calls, the state is the tool loop's state (kept even when the follow-up fails), one response per executed call, and a failing follow-up gives "brain freeze. try again?" |
| StoreFacts.PlayingIdNamesLiveClip | src/App.tsx:1006 | under the invariant, a set `playingId` names the source that is playing, so while no source is live `playingId` is empty |
| StoreFacts.PlayEffects | src/App.tsx:1099-1103 | playback changes only the sources and playingId; no audio changes nothing; replaying the current id or a failed decode leaves nothing playing; otherwise the previous source is stopped and the new clip is the one live source |
| StoreFacts.PlayTwiceStops | src/App.tsx:1100-1101 | playing a message and playing it again, with no handler running in between, leaves nothing playing |
| StoreFacts.SourceEndedEffects | src/App.tsx:1102 | a source's `onended` handler stops that source and marks its handler run, keeps every other source, clears `playingId`, keeps the invariant and changes nothing else |
| StoreFacts.ClipEndedSilences | src/App.tsx:1102 | when the newest source's handler runs, nothing is playing |
| StoreFacts.LateEndKeepsPlaying | src/App.tsx:1100-1102 | the late handler of a source stopped earlier clears `playingId` while the newest source goes on playing |
| StoreFacts.LateEndDefeatsToggle | src/App.tsx:1100-1102 | after a tap on `a`, a tap on `b` and `a`'s late handler, `b` plays with no `playingId`, and a second tap on `b` restarts it where, without the late handler, it would stop it |
| StoreFacts.ProactiveIdle | src/App.tsx:1038-1041 | offline, with no history, while its callback sees a reply being typed, or within 30000 ms of the last interaction the tick changes nothing |
| StoreFacts.ProactiveActs | src/App.tsx:1041-1066 | when the tick acts it keeps the invariant and the other collections; if it completes, it resets the inactivity clock and either prepends at most one story or appends exactly one model message |
| StoreFacts.ProactiveQuietAfterActing | src/App.tsx:1040-1054 | after a completed check-in the tick stays quiet for the next 30 seconds |
| StoreFacts.ProactiveRetriesAfterFailedCheckIn | src/App.tsx:1039-1068 | a check-in that fails leaves the indicator on and the inactivity clock unreset; as the interval keeps the indicator it captured (off), every later tick is due again and behaves as if the failed attempt had not happened |
| StoreFacts.SendIgnoredIsNoop | src/App.tsx:1087 | a blank send without audio or attachment changes nothing |
| StoreFacts.ConcludeFrame | src/App.tsx:1092-1096 | the reply is appended last, the indicator goes off, the bio changes only when online and rolled, and the invariant holds |
| StoreFacts.RespondIgnoresChatElsewhere | services/geminiService.ts:222-242 | `generateResponse` consults the main generation call only at the contents it builds; replacing that call elsewhere changes nothing |
| StoreFacts.SendAsksAboutEarlierChat | src/App.tsx:1086-1091 | a send depends on the main generation call only at `SendContext`, whose history turns are the last min(8, n) messages from before the send (so never the new message) and whose single final turn is the user's text and attachments |
| StoreFacts.ConcludeExchange | src/App.tsx:1092-1096 | the end of a send, on a chat holding the earlier bodies followed by the user message, completes the exchange (`Exchanged`) |
| StoreFacts.SendAppendsExchange | src/App.tsx:1086-1097 | a send completes the exchange: the invariant holds, earlier bodies are kept, the user message follows them, a non-empty model reply whose id is one past the reply time comes last, the indicator is off, the inactivity clock reads the send time, persona and connectivity are unchanged |
| StoreFacts.SendKeepsCoherent | src/App.tsx:1086-1097 | every send keeps the invariant |
| StoreFacts.SendUpdatesBio | src/App.tsx:1095 | the bio changes only online with a winning roll, to the summary of the history plus the user message and the reply |
| StoreFacts.SendOffline | src/App.tsx:1086-1094 | offline, a send appends the user message and the fixed offline reply and nothing else changes but the indicator and the clock |
| Persistence.LoadBlank | src/App.tsx:1019-1024 | with nothing stored, loading changes nothing |
| Persistence.SaveLoadRoundTrip | src/App.tsx:1019-1032 | saving what was loaded from a save gives the same save back (when the life story is non-empty); loading leaves the timer, persona, connectivity, playback and the user's name alone |
| Persistence.EmptyStorylineRestoredAsStart | src/App.tsx:1022 | an empty stored life story loads as "Just started journalling.", so that save does not round-trip |
| Persistence.LoadKeepsCoherent | src/App.tsx:1019-1024 | loading messages that satisfy the reaction rule keeps the invariant |
| Chat.JeffChat.constructor | src/App.tsx:981-1024 | mounting gives the starting state with every stored key loaded, the chat view, and the invariant when the stored messages satisfy it |
| Chat.JeffChat.LoadSaved | src/App.tsx:1019-1024 | each stored key replaces its part of the state in place |
| Chat.JeffChat.ExecuteTool | src/App.tsx:1071-1084 | performs the dispatcher step in place, returns its result string, and keeps the invariant |
| Chat.JeffChat.SetTimer | src/App.tsx:1073 | performs the set_timer step |
| Chat.JeffChat.SendDoodle | src/App.tsx:1074 | performs the generate_doodle step |
| Chat.JeffChat.PostToolStory | src/App.tsx:1075 | performs the post_story step |
| Chat.JeffChat.StartGame | src/App.tsx:1076 | performs the start_game step |
| Chat.JeffChat.AddPlannerItem | src/App.tsx:1077 | performs the add_planner_item step |
| Chat.JeffChat.AddExpense | src/App.tsx:1078 | performs the add_expense step |
| Chat.JeffChat.ManageWishlist | src/App.tsx:1079 | performs the manage_wishlist step |
| Chat.JeffChat.UpdateNovelProgress | src/App.tsx:1080 | performs the update_novel_progress step |
| Chat.JeffChat.ReactToMessage | src/App.tsx:1081 | performs the react_to_message step |
| Chat.JeffChat.GenerateResponse | services/geminiService.ts:194-310 | `generateResponse` with this chat's executor: the reply and the tool effects of the specified turn, keeping the invariant |
| Chat.JeffChat.HandleAnswer | services/geminiService.ts:244-304 | handles the main answer as specified: brain freeze, tool round, or the joined text |
| Chat.JeffChat.RunToolRound | services/geminiService.ts:248-271 | runs the calls, then the single follow-up call, as specified |
| Chat.JeffChat.RunCalls | services/geminiService.ts:249-257 | the sequential loop executes each call with a name and arguments in order and records its response |
| Chat.JeffChat.PlayAudio | src/App.tsx:1099-1103 | performs the playback step in place and keeps the single-flight invariant |
| Chat.JeffChat.EndSource | src/App.tsx:1102 | runs one source's `onended` handler, once: the state becomes `SourceEnded`, the invariant is kept, and after the newest source's handler nothing plays |
| Chat.JeffChat.SendMessage | src/App.tsx:1086-1097 | performs the send step in place and keeps the invariant |
| Chat.JeffChat.Exchange | src/App.tsx:1088-1097 | a send that is not ignored: shows the user message, generates from the earlier history, shows the reply |
| Chat.JeffChat.ShowUserMessage | src/App.tsx:1088-1090 | resets the inactivity clock, appends the user message and turns the indicator on |
| Chat.JeffChat.ShowReply | src/App.tsx:1092-1096 | appends the reply, maybe refreshes the bio, plays the reply's audio |
| Chat.JeffChat.ProactiveTick | src/App.tsx:1037-1068 | performs one tick of the proactive interval in place and keeps the invariant |
| Chat.JeffChat.ActOnCheckIn | src/App.tsx:1045-1065 | acts on the check-in: a story, or a message with an optional doodle |
| Chat.JeffChat.PostCheckInStory | src/App.tsx:1046-1053 | when an image comes back, prepends an unseen story and rewrites the life story from its caption; otherwise nothing changes |
| Chat.JeffChat.ReactAsUser | src/App.tsx:1118 | the user's reaction replaces their earlier one on that message and keeps the invariant |
| Chat.JeffChat.DeleteItem | src/App.tsx:1120 | removes the id from the collection of that kind only, and keeps the invariant |
| Chat.JeffChat.CloseStoryViewer | src/App.tsx:1125 | every story is marked seen and no new story is left |
| Chat.JeffChat.TimerTick | src/App.tsx:836-846 | one tick of the focus timer, which runs only while the study view is shown; nothing else changes |
| Chat.JeffChat.TimerToggle | src/App.tsx:861 | Start/Pause, a button of the study view, flips only the active flag; nothing else changes |
| Chat.JeffChat.TimerReset | src/App.tsx:864 | Reset, a button of the study view, stops the timer with its full duration left; nothing else changes |
| Chat.JeffChat.ShowView | src/App.tsx:1013-1016 | switching to study selects the tutor, to chat the friend; the life view keeps the persona |
| Chat.JeffChat.SetConnectivity | src/App.tsx:1025 | the online/offline events set the offline flag |

## Left out

- StoreFacts.PlayingIdNamesLiveClip: promises only that a set `playingId` names the playing source. The converse, that an empty `playingId` means nothing plays, does not hold: a late `onended` clears it while a newer source plays (`LateEndKeepsPlaying`).
- Rendering, modals, the doodle canvas, the music player, sounds (`playSound`), speech recognition and media recording are UI or browser I/O. So are the handlers that only forward to a send: the game buttons, the drawing canvas and the music player (src/App.tsx:1122-1126).
- The manual add form `onAdd` (src/App.tsx:1120) passes form data of unknown shape to `executeTool`. Only the tool calls that generation makes are modelled.
- The Gemini SDK calls are oracle results. The prompt and system-instruction wording, the tool declarations' descriptions, and the fixed wording of the context preamble are not modelled. The preamble keeps its three values: bio, life story and mode.
- Tool arguments are assumed to have the schema's shape for a known name (`Gemini.SchemaCall`). Values outside the schema cannot be represented, and numbers are integers.
- A speech call that succeeds without an audio part gives no audio, exactly like a failing one. The logged errors are dropped.
- localStorage is modelled as `Persistence.Storage`, one optional value per key. JSON encoding and parse failures are not modelled.
- Concurrency is not modelled: every handler runs to completion as one step.
  - `playAudio` reads the current `playingId`; the code reads the value captured by an older render.
  - The proactive tick takes the indicator its interval captured as the input `typingSeen`. The interval is re-created when messages, connectivity or the profile change, not when the indicator does, so its callback usually sees the indicator as it was when a message last arrived.
  - Every source's `onended` handler is its own step (`SourceEnded`), taken once per source at any point after the source stops, so a late handler can clear `playingId` while a newer source plays.
  - `executeTool`'s post_story reads the life story captured when the send began (`storySeen`), as the code does.
- `Math.random`, `Date.now` and the audio decoder are inputs: `rollsBio`, `Clock` and `decodes`. Ids come from the clock, so uniqueness is not claimed. A send reads `Clock` when it starts and each tool call of its round reads its own reading (`ToolClocks`), so a doodle's id need not equal the user message's.
- The code has no guard against overlapping sends and no validation of tool arguments, so the model has neither.
- The Spotify URL rewrite and the unused wallet types are not modelled.
- Chat.JeffChat.ProactiveTick: the interval is not installed when offline or with no history. The model makes the tick a no-op in that case instead.
