/** The state held by the `JeffChat` component (src/App.tsx) as one value,
    and the specification of every step that changes it: the tool dispatcher
    `executeTool`, the tool round trip of `generateResponse`, a user send, a
    proactive check-in, and single-flight audio playback. The class in
    chat.dfy performs these steps in place and is proved against them. */
module Store {
  import opened Types
  import opened Strings
  import opened Updaters
  import opened Gemini

  datatype View = ChatView | StudyView | LifeView

  /** An audio source node that `playAudio` started: `live` until it is stopped
      or plays out, `ended` once its `onended` handler has run. */
  datatype Clip = Clip(messageId: string, live: bool, ended: bool)

  datatype State = State(
    messages: seq<Message>,
    planner: seq<PlannerItem>,
    expenses: seq<Expense>,
    wishlist: seq<WishlistItem>,
    novels: seq<NovelLog>,
    stories: seq<Story>,
    timer: TimerState,
    profile: UserProfile,
    persona: Persona,
    isOffline: bool,
    isTyping: bool,
    doodleOpen: bool,          // the doodle canvas (start_game "doodle_challenge")
    playingId: Option<string>,
    clips: seq<Clip>,          // every source started; the last is `audioSourceRef`
    lastInteraction: int)      // `lastInteractionRef`, in milliseconds

  /** The readings of `Date.now()` and `new Date().toISOString()` a step uses. */
  datatype Clock = Clock(now: int, today: string)

  /** The clock each call of a tool round reads, by the call's position: every
      tool reads `Date.now()` afresh when it runs. */
  type ToolClocks = nat -> Clock

  /** Milliseconds of silence after which the proactive tick may act. */
  const InactivityMs := 30000

  /** At most one source plays and it is the last one started; a playing source
      has not run its handler; `playingId`, when set, names the playing source.
      It may be empty while the last source plays: the handler of a source
      stopped earlier runs late and clears it. */
  predicate SingleFlight(clips: seq<Clip>, playingId: Option<string>) {
    (forall i :: 0 <= i < |clips| - 1 ==> !clips[i].live)
    && (forall i :: 0 <= i < |clips| && clips[i].live ==> !clips[i].ended)
    && (playingId.Some? ==>
          clips != [] && clips[|clips| - 1].live && playingId.value == clips[|clips| - 1].messageId)
  }

  predicate AudioCoherent(st: State) {
    SingleFlight(st.clips, st.playingId)
  }

  /** The invariant of the chat state. */
  predicate Coherent(st: State) {
    AudioCoherent(st) && OneReactionPerRole(st.messages)
  }

  /** The life story the app starts from, and restores when none was saved. */
  const StartingStoryline := "Just started journalling."

  /** The state when the chat screen mounts (before anything is loaded). */
  function Initial(now: int, offline: bool): (st: State)
    ensures Coherent(st)
  {
    State([], [], [], [], [], [],
          TimerState(false, 0, 0, ""),
          UserProfile("Friend", "- Likes journalling", StartingStoryline, []),
          Friend, offline, false, false, None, [], now)
  }

  // ---------------------------------------------------------------- tools

  function Base64Image(data: string): string {
    "data:image/jpeg;base64," + data
  }

  function DoodleAttachment(data: string): Attachment {
    Attachment(Image, Base64Image(data), Some(data), "image/jpeg")
  }

  /** `executeTool(name, args)`: the new state and the result string.
      `storySeen` is the life story the executor closure captured. */
  function Dispatch(st: State, name: string, args: ToolArgs, o: Oracle, clock: Clock,
                    storySeen: string): (State, string)
    requires FitsSchema(name, args)
  {
    if name == "set_timer" then TimerTool(st, args)
    else if name == "generate_doodle" then DoodleTool(st, args, o, clock)
    else if name == "post_story" then StoryTool(st, args, o, clock, storySeen)
    else if name == "start_game" then GameTool(st, args)
    else if name == "add_planner_item" then PlannerTool(st, args, clock)
    else if name == "add_expense" then ExpenseTool(st, args, clock)
    else if name == "manage_wishlist" then WishlistTool(st, args, clock)
    else if name == "update_novel_progress" then NovelTool(st, args, clock)
    else if name == "react_to_message" then ReactTool(st, args)
    else (st, "Tool not found.")
  }

  /** `set_timer`: start a countdown of the given minutes; the label defaults to "Study". */
  function TimerTool(st: State, args: ToolArgs): (State, string)
    requires args.TimerArgs?
  {
    var secs := args.minutes * 60;
    var title := if Truthy(args.timerLabel) then args.timerLabel.value else "Study";
    (st.(timer := TimerState(true, secs, secs, title)),
     "Timer set for " + IntToString(args.minutes) + " minutes.")
  }

  /** `generate_doodle`: the typing indicator goes on, and the picture, when
      one comes back, is posted as a model message. */
  function DoodleTool(st: State, args: ToolArgs, o: Oracle, clock: Clock): (State, string)
    requires args.DoodleArgs?
  {
    var img := ImageData(o.image(args.prompt));
    if Truthy(img) then
      var doodle := Message(IntToString(clock.now), Model, "Here's a doodle!", clock.now, None, None,
                            [DoodleAttachment(img.value)], []);
      (st.(isTyping := true, messages := st.messages + [doodle]), "Sent doodle.")
    else (st.(isTyping := true), "Failed.")
  }

  /** `post_story`: the picture, when one comes back, becomes the newest story
      and the life story is rewritten from the one the executor captured. */
  function StoryTool(st: State, args: ToolArgs, o: Oracle, clock: Clock, storySeen: string): (State, string)
    requires args.StoryArgs?
  {
    var img := ImageData(o.image(args.doodlePrompt));
    if Truthy(img) then
      var story := Story(IntToString(clock.now), Base64Image(img.value), args.caption, clock.now, false);
      var line := UpdatedStoryline(o, args.caption, storySeen);
      (st.(stories := [story] + st.stories, profile := st.profile.(jeffStoryline := line)),
       "Posted story!")
    else (st, "Failed.")
  }

  /** `start_game`: only the doodle challenge opens anything. */
  function GameTool(st: State, args: ToolArgs): (State, string)
    requires args.GameArgs?
  {
    (if args.game == "doodle_challenge" then st.(doodleOpen := true) else st, "Started " + args.game)
  }

  /** `add_planner_item`: append an open item, dated today unless a date is given. */
  function PlannerTool(st: State, args: ToolArgs, clock: Clock): (State, string)
    requires args.PlannerArgs?
  {
    var date := if Truthy(args.date) then args.date.value else clock.today;
    (st.(planner := st.planner + [PlannerItem(IntToString(clock.now), args.title, date, args.plannerType, false, args.notes)]),
     "Added " + args.title)
  }

  /** `add_expense`: append an expense dated today. */
  function ExpenseTool(st: State, args: ToolArgs, clock: Clock): (State, string)
    requires args.ExpenseArgs?
  {
    (st.(expenses := st.expenses + [Expense(IntToString(clock.now), args.item, args.amount, args.category, clock.today)]),
     "Tracked expense.")
  }

  /** `manage_wishlist`: only the "add" action does anything. */
  function WishlistTool(st: State, args: ToolArgs, clock: Clock): (State, string)
    requires args.WishlistArgs?
  {
    if args.action == "add" then
      (st.(wishlist := st.wishlist + [WishlistItem(IntToString(clock.now), args.title, args.wishType, Want, args.details)]),
       "Added to wishlist.")
    else (st, "Updated.")
  }

  /** `update_novel_progress`: update the log with the same title, or add one. */
  function NovelTool(st: State, args: ToolArgs, clock: Clock): (State, string)
    requires args.NovelArgs?
  {
    (st.(novels := UpsertNovel(st.novels, IntToString(clock.now), args.title, args.chapter, args.gossip)),
     "Updated progress.")
  }

  /** `react_to_message`: the model reacts to the given message, or to the latest user message. */
  function ReactTool(st: State, args: ToolArgs): (State, string)
    requires args.ReactArgs?
  {
    (st.(messages := ReactAsModel(st.messages, args.messageId, args.emoji)), "Reacted.")
  }

  /** The tool loop of `generateResponse`: each executable call in order,
      recording one tool result per executed call. */
  function RunTools(st: State, calls: seq<SchemaCall>, o: Oracle, clocks: ToolClocks,
                    storySeen: string): (State, seq<Part>)
    decreases |calls|
  {
    if calls == [] then (st, [])
    else
      var before := RunTools(st, calls[..|calls| - 1], o, clocks, storySeen);
      var c := calls[|calls| - 1];
      if Executable(c) then
        var step := Dispatch(before.0, c.name, c.args.value, o, clocks(|calls| - 1), storySeen);
        (step.0, before.1 + [ToolResult(c.name, step.1)])
      else before
  }

  /** The calls the tool loop executes: those with a name and arguments, in order. */
  function Executed(calls: seq<SchemaCall>): seq<SchemaCall>
    decreases |calls|
  {
    if calls == [] then []
    else Executed(calls[..|calls| - 1]) + (if Executable(calls[|calls| - 1]) then [calls[|calls| - 1]] else [])
  }

  // ---------------------------------------------------------------- generateResponse

  /** The reply after the model's text is known: "..." for an empty text, the
      speech of the text without sources, then the sources suffix. */
  function Finish(o: Oracle, generated: string, grounding: seq<Chunk>): Reply {
    var text := if generated == "" then Ellipsis else generated;
    Reply(text + SourcesSuffix(grounding), SpeechAudio(o, SpeechText(text)))
  }

  /** `generateResponse`, with `executeTool` as executor when `withTools`. */
  function Respond(st: State, history: seq<Message>, input: string, persona: Persona,
                   profile: UserProfile, offline: bool, withTools: bool,
                   atts: seq<Attachment>, o: Oracle, clocks: ToolClocks,
                   storySeen: string): (State, Reply)
  {
    if offline then (st, Reply(OfflineReply, None))
    else
      var contents := BuildContext(history, UserParts(input, atts), profile, persona);
      Answer(st, contents, o.chat(contents), withTools, o, clocks, storySeen)
  }

  /** What `generateResponse` does with the main call's answer (`None`: it threw). */
  function Answer(st: State, contents: seq<Turn>, main: Option<Candidate>, withTools: bool,
                  o: Oracle, clocks: ToolClocks, storySeen: string): (State, Reply)
  {
    match main
    case None => (st, Reply(BrainFreeze, None))
    case Some(answer) =>
      if |FunctionCalls(answer.parts)| > 0 && withTools then ToolRound(st, contents, answer, o, clocks, storySeen)
      else (st, Finish(o, JoinText(answer.parts), answer.grounding))
  }

  /** Run the answer's tool calls, send their results back, and reply with the
      follow-up's text (or "Done!") and the main answer's sources. */
  function ToolRound(st: State, contents: seq<Turn>, answer: Candidate, o: Oracle, clocks: ToolClocks,
                     storySeen: string): (State, Reply)
  {
    var ran := RunTools(st, FunctionCalls(answer.parts), o, clocks, storySeen);
    match o.followUp(contents + [Turn(Model, answer.parts), Turn(User, ran.1)])
    case None => (ran.0, Reply(BrainFreeze, None))
    case Some(second) =>
      var text := JoinText(second.parts);
      (ran.0, Finish(o, if text == "" then DoneText else text, answer.grounding))
  }

  // ---------------------------------------------------------------- audio

  function StopLast(cs: seq<Clip>): seq<Clip>
    requires cs != []
  {
    cs[..|cs| - 1] + [cs[|cs| - 1].(live := false)]
  }

  /** `playAudio(msg)`: stop the current source, toggle off when `msg` was the one
      playing, otherwise start it if its audio decodes. */
  function Play(st: State, msg: Message, decodes: bool): State {
    if !Truthy(msg.audioData) then st
    else
      var stopped := if st.clips != [] then st.(clips := StopLast(st.clips), playingId := None) else st;
      if st.playingId == Some(msg.id) then stopped
      else if decodes then stopped.(clips := stopped.clips + [Clip(msg.id, true, false)], playingId := Some(msg.id))
      else stopped
  }

  /** The `onended` handler of the `i`-th source started. It runs once, when
      the source plays out or some time after `playAudio` stopped it, and
      clears `playingId` whichever source is playing by then. */
  function SourceEnded(st: State, i: nat): State
    requires i < |st.clips|
  {
    st.(clips := st.clips[i := st.clips[i].(live := false, ended := true)], playingId := None)
  }

  // ---------------------------------------------------------------- proactive tick

  /** Whether the proactive interval acts at time `now`. `typingSeen` is the
      typing indicator as the interval's callback captured it: the effect that
      installs the interval re-runs when the messages, connectivity or profile
      change, but not when the indicator does. */
  predicate ProactiveDue(st: State, now: int, typingSeen: bool) {
    !st.isOffline && st.messages != [] && now - st.lastInteraction > InactivityMs && !typingSeen
  }

  /** One run of the proactive interval's callback at time `now`: when due, the
      typing indicator goes on and the check-in is acted on. */
  function Proactive(st: State, o: Oracle, now: int, typingSeen: bool): State {
    if !ProactiveDue(st, now, typingSeen) then st
    else
      var checkIn := ProactiveMessage(o, st.profile);
      CheckIn(st.(isTyping := true), o, now, checkIn.0, checkIn.1)
  }

  /** Acting on a check-in's text and call: post a story, or send a message
      (with a doodle when asked for one). A call without arguments throws on
      the first read of them, and the state is left as it is. */
  function CheckIn(st: State, o: Oracle, now: int, text: string, call: Option<SchemaCall>): State {
    if call.Some? && call.value.name == "post_story" then
      match call.value.args
      case None => st
      case Some(args) =>
        PostStory(st, o, now, args.doodlePrompt, args.caption).(isTyping := false, lastInteraction := now)
    else if call.Some? && call.value.name == "generate_doodle" && call.value.args.None? then st
    else
      var atts :=
        if call.Some? && call.value.name == "generate_doodle" then
          var img := ImageData(o.image(call.value.args.value.prompt));
          if Truthy(img) then [DoodleAttachment(img.value)] else []
        else [];
      var note := Message(IntToString(now), Model, text, now, None, None, atts, []);
      st.(messages := st.messages + [note], isTyping := false, lastInteraction := now)
  }

  /** The check-in's story: prepended, with the life story updated from the
      one shown to the check-in, when the image comes back. */
  function PostStory(st: State, o: Oracle, now: int, prompt: string, caption: string): State {
    var img := ImageData(o.image(prompt));
    if Truthy(img) then
      st.(stories := [Story(IntToString(now), Base64Image(img.value), caption, now, false)] + st.stories,
          profile := st.profile.(jeffStoryline := UpdatedStoryline(o, caption, st.profile.jeffStoryline)))
    else st
  }

  // ---------------------------------------------------------------- sending

  function AsList(a: Option<Attachment>): seq<Attachment> {
    if a.Some? then [a.value] else []
  }

  /** The send guard: blank text with no audio and no attachment is ignored. */
  predicate Ignored(text: string, audio: Option<string>, attachment: Option<Attachment>) {
    Trim(text) == "" && !Truthy(audio) && attachment.None?
  }

  function UserMessage(text: string, mood: Option<string>, audio: Option<string>,
                       attachment: Option<Attachment>, clock: Clock): Message {
    Message(IntToString(clock.now), User, text, clock.now, audio, mood, AsList(attachment), [])
  }

  /** The reply message; its id is one more than the clock reading `at`. */
  function ReplyMessage(reply: Reply, at: int): Message {
    Message(IntToString(at + 1), Model, reply.text, at, reply.audioData, None, [], [])
  }

  /** The state while the reply is awaited: the user's message is shown and the
      typing indicator is on. */
  function Sending(st: State, userMsg: Message, clock: Clock): State {
    st.(lastInteraction := clock.now, messages := st.messages + [userMsg], isTyping := true)
  }

  /** `handleSendMessage`. `clock` is read when the send starts, `toolClocks`
      by the tools the reply calls, `repliedAt` is the clock when the reply arrives,
      `rollsBio` whether `Math.random() > 0.7`, `decodes` whether the reply's
      audio decodes. The reply is generated from the history, profile and
      persona as they were before the send. */
  function Send(st: State, text: string, mood: Option<string>, audio: Option<string>,
                attachment: Option<Attachment>, o: Oracle, clock: Clock, toolClocks: ToolClocks,
                repliedAt: int, rollsBio: bool, decodes: bool): State
  {
    if Ignored(text, audio, attachment) then st
    else
      var userMsg := UserMessage(text, mood, audio, attachment, clock);
      var answered := Respond(Sending(st, userMsg, clock), st.messages, text, st.persona, st.profile,
                              st.isOffline, true, AsList(attachment), o, toolClocks, st.profile.jeffStoryline);
      Conclude(st.isOffline, st.messages, st.profile.bio, userMsg, answered.0, answered.1, o, repliedAt, rollsBio, decodes)
  }

  /** The contents a send hands to the main generation call: the preamble and
      the recent history as they were before the send, then the user's turn. */
  function SendContext(st: State, text: string, attachment: Option<Attachment>): seq<Turn> {
    BuildContext(st.messages, UserParts(text, AsList(attachment)), st.profile, st.persona)
  }

  /** The end of a send, once the reply is known: show it, maybe refresh the
      bio from the chat before the send (`history`, `bio`) plus the exchange,
      and play its audio. */
  function Conclude(offline: bool, history: seq<Message>, bio: string, userMsg: Message,
                    answered: State, reply: Reply, o: Oracle,
                    repliedAt: int, rollsBio: bool, decodes: bool): State
  {
    var aiMsg := ReplyMessage(reply, repliedAt);
    var replied := answered.(isTyping := false, messages := answered.messages + [aiMsg]);
    var summarised :=
      if !offline && rollsBio then
        replied.(profile := replied.profile.(bio := UpdatedBio(o, history + [userMsg, aiMsg], bio)))
      else replied;
    if Truthy(reply.audioData) then Play(summarised, aiMsg, decodes) else summarised
  }
}
