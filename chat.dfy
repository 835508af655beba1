/** The `JeffChat` component (src/App.tsx) as an object: its state hooks and
    refs are fields, and every handler updates them in place. Each method is
    proved to perform exactly the step specified in store.dfy, so the lemmas of
    store_facts.dfy apply to it, and each keeps the chat coherent. */
module Chat {
  import opened Types
  import opened Strings
  import opened Updaters
  import opened Gemini
  import opened Store
  import opened StoreFacts
  import opened Persistence

  class JeffChat {
    var view: View
    var messages: seq<Message>
    var planner: seq<PlannerItem>
    var expenses: seq<Expense>
    var wishlist: seq<WishlistItem>
    var novels: seq<NovelLog>
    var stories: seq<Story>
    var timer: TimerState
    var profile: UserProfile
    var persona: Persona
    var isOffline: bool
    var isTyping: bool
    var doodleOpen: bool
    var playingId: Option<string>
    var clips: seq<Clip>
    var lastInteraction: int

    /** The chat state the fields hold. */
    function Snapshot(): State
      reads this
    {
      State(messages, planner, expenses, wishlist, novels, stories, timer, profile, persona,
            isOffline, isTyping, doodleOpen, playingId, clips, lastInteraction)
    }

    predicate Valid()
      reads this
    {
      Coherent(Snapshot())
    }

    /** Mounting the screen: the starting state, then every stored key loaded. */
    constructor(now: int, offline: bool, saved: Storage)
      ensures Snapshot() == Load(Initial(now, offline), saved) && view == ChatView
      ensures (saved.msgs.None? || OneReactionPerRole(saved.msgs.value)) ==> Valid()
    {
      view := ChatView;
      messages := [];
      planner := [];
      expenses := [];
      wishlist := [];
      novels := [];
      stories := [];
      timer := TimerState(false, 0, 0, "");
      profile := UserProfile("Friend", "- Likes journalling", StartingStoryline, []);
      persona := Friend;
      isOffline := offline;
      isTyping := false;
      doodleOpen := false;
      playingId := None;
      clips := [];
      lastInteraction := now;
      new;
      LoadSaved(saved);
      if saved.msgs.None? || OneReactionPerRole(saved.msgs.value) {
        LoadKeepsCoherent(Initial(now, offline), saved);
      }
    }

    /** The load effect on mount: every key present in storage replaces its part. */
    method LoadSaved(saved: Storage)
      modifies this
      ensures Snapshot() == Load(old(Snapshot()), saved) && view == old(view)
    {
      var s0 := Snapshot();
      var loaded := Load(s0, saved);
      messages, profile, planner, expenses := loaded.messages, loaded.profile, loaded.planner, loaded.expenses;
      wishlist, novels, stories := loaded.wishlist, loaded.novels, loaded.stories;
      assert Snapshot() == loaded;
    }

    /** `executeTool`: apply one tool call and return its result string.
        `storySeen` is the life story the executor's closure captured. */
    method ExecuteTool(name: string, args: ToolArgs, o: Oracle, clock: Clock, storySeen: string)
      returns (result: string)
      requires FitsSchema(name, args)
      modifies this
      ensures (Snapshot(), result) == Dispatch(old(Snapshot()), name, args, o, clock, storySeen)
      ensures view == old(view)
      ensures old(Valid()) ==> Valid()
    {
      if Valid() {
        DispatchFrame(Snapshot(), name, args, o, clock, storySeen);
      }
      if name == "set_timer" {
        result := SetTimer(args);
      } else if name == "generate_doodle" {
        result := SendDoodle(args, o, clock);
      } else if name == "post_story" {
        result := PostToolStory(args, o, clock, storySeen);
      } else if name == "start_game" {
        result := StartGame(args);
      } else if name == "add_planner_item" {
        result := AddPlannerItem(args, clock);
      } else if name == "add_expense" {
        result := AddExpense(args, clock);
      } else if name == "manage_wishlist" {
        result := ManageWishlist(args, clock);
      } else if name == "update_novel_progress" {
        result := UpdateNovelProgress(args, clock);
      } else if name == "react_to_message" {
        result := ReactToMessage(args);
      } else {
        result := "Tool not found.";
      }
    }

    method SetTimer(args: ToolArgs) returns (result: string)
      requires args.TimerArgs?
      modifies this
      ensures (Snapshot(), result) == TimerTool(old(Snapshot()), args)
      ensures view == old(view)
    {
      var title := if Truthy(args.timerLabel) then args.timerLabel.value else "Study";
      timer := TimerState(true, args.minutes * 60, args.minutes * 60, title);
      result := "Timer set for " + IntToString(args.minutes) + " minutes.";
    }

    method SendDoodle(args: ToolArgs, o: Oracle, clock: Clock) returns (result: string)
      requires args.DoodleArgs?
      modifies this
      ensures (Snapshot(), result) == DoodleTool(old(Snapshot()), args, o, clock)
      ensures view == old(view)
    {
      isTyping := true;
      var img := GenerateImage(o, args.prompt);
      if Truthy(img) {
        var doodle := Message(IntToString(clock.now), Model, "Here's a doodle!", clock.now, None, None,
                              [DoodleAttachment(img.value)], []);
        messages := messages + [doodle];
        result := "Sent doodle.";
      } else {
        result := "Failed.";
      }
    }

    method PostToolStory(args: ToolArgs, o: Oracle, clock: Clock, storySeen: string) returns (result: string)
      requires args.StoryArgs?
      modifies this
      ensures (Snapshot(), result) == StoryTool(old(Snapshot()), args, o, clock, storySeen)
      ensures view == old(view)
    {
      var img := GenerateImage(o, args.doodlePrompt);
      if Truthy(img) {
        stories := [Story(IntToString(clock.now), Base64Image(img.value), args.caption, clock.now, false)] + stories;
        var line := UpdatedStoryline(o, args.caption, storySeen);
        profile := profile.(jeffStoryline := line);
        result := "Posted story!";
      } else {
        result := "Failed.";
      }
    }

    method StartGame(args: ToolArgs) returns (result: string)
      requires args.GameArgs?
      modifies this
      ensures (Snapshot(), result) == GameTool(old(Snapshot()), args)
      ensures view == old(view)
    {
      if args.game == "doodle_challenge" {
        doodleOpen := true;
      }
      result := "Started " + args.game;
    }

    method AddPlannerItem(args: ToolArgs, clock: Clock) returns (result: string)
      requires args.PlannerArgs?
      modifies this
      ensures (Snapshot(), result) == PlannerTool(old(Snapshot()), args, clock)
      ensures view == old(view)
    {
      var date := if Truthy(args.date) then args.date.value else clock.today;
      planner := planner + [PlannerItem(IntToString(clock.now), args.title, date, args.plannerType, false, args.notes)];
      result := "Added " + args.title;
    }

    method AddExpense(args: ToolArgs, clock: Clock) returns (result: string)
      requires args.ExpenseArgs?
      modifies this
      ensures (Snapshot(), result) == ExpenseTool(old(Snapshot()), args, clock)
      ensures view == old(view)
    {
      expenses := expenses + [Expense(IntToString(clock.now), args.item, args.amount, args.category, clock.today)];
      result := "Tracked expense.";
    }

    method ManageWishlist(args: ToolArgs, clock: Clock) returns (result: string)
      requires args.WishlistArgs?
      modifies this
      ensures (Snapshot(), result) == WishlistTool(old(Snapshot()), args, clock)
      ensures view == old(view)
    {
      if args.action == "add" {
        wishlist := wishlist + [WishlistItem(IntToString(clock.now), args.title, args.wishType, Want, args.details)];
        result := "Added to wishlist.";
      } else {
        result := "Updated.";
      }
    }

    method UpdateNovelProgress(args: ToolArgs, clock: Clock) returns (result: string)
      requires args.NovelArgs?
      modifies this
      ensures (Snapshot(), result) == NovelTool(old(Snapshot()), args, clock)
      ensures view == old(view)
    {
      novels := UpsertNovel(novels, IntToString(clock.now), args.title, args.chapter, args.gossip);
      result := "Updated progress.";
    }

    method ReactToMessage(args: ToolArgs) returns (result: string)
      requires args.ReactArgs?
      modifies this
      ensures (Snapshot(), result) == ReactTool(old(Snapshot()), args)
      ensures view == old(view)
    {
      messages := ReactAsModel(messages, args.messageId, args.emoji);
      result := "Reacted.";
    }

    /** `generateResponse` with this chat's `executeTool` as executor (when
        `withTools`): build the context, ask, and act on the answer. */
    method GenerateResponse(history: seq<Message>, input: string, mode: Persona, known: UserProfile,
                            offline: bool, withTools: bool, atts: seq<Attachment>, o: Oracle,
                            clocks: ToolClocks, storySeen: string)
      returns (reply: Reply)
      modifies this
      ensures (Snapshot(), reply)
           == Respond(old(Snapshot()), history, input, mode, known, offline, withTools, atts, o, clocks, storySeen)
      ensures view == old(view)
      ensures old(Valid()) ==> Valid()
    {
      if Valid() {
        RespondFrame(Snapshot(), history, input, mode, known, offline, withTools, atts, o, clocks, storySeen);
      }
      if offline {
        return Reply(OfflineReply, None);
      }
      var userParts := BuildUserParts(input, atts);
      var contents := BuildContext(history, userParts, known, mode);
      reply := HandleAnswer(contents, o.chat(contents), withTools, o, clocks, storySeen);
    }

    /** The main call's answer: "brain freeze" when it threw, the tool round when
        it has calls and tools are on, otherwise its own text. */
    method HandleAnswer(contents: seq<Turn>, main: Option<Candidate>, withTools: bool, o: Oracle,
                        clocks: ToolClocks, storySeen: string)
      returns (reply: Reply)
      modifies this
      ensures (Snapshot(), reply) == Answer(old(Snapshot()), contents, main, withTools, o, clocks, storySeen)
      ensures view == old(view)
    {
      if main.None? {
        return Reply(BrainFreeze, None);
      }
      var answer := main.value;
      if |FunctionCalls(answer.parts)| > 0 && withTools {
        reply := RunToolRound(contents, answer, o, clocks, storySeen);
      } else {
        reply := Finish(o, JoinText(answer.parts), answer.grounding);
      }
    }

    /** Run the calls, send their results back once, reply with the follow-up's text. */
    method RunToolRound(contents: seq<Turn>, answer: Candidate, o: Oracle, clocks: ToolClocks, storySeen: string)
      returns (reply: Reply)
      modifies this
      ensures (Snapshot(), reply) == ToolRound(old(Snapshot()), contents, answer, o, clocks, storySeen)
      ensures view == old(view)
    {
      var responses := RunCalls(FunctionCalls(answer.parts), o, clocks, storySeen);
      var second := o.followUp(contents + [Turn(Model, answer.parts), Turn(User, responses)]);
      if second.None? {
        return Reply(BrainFreeze, None);
      }
      var text := JoinText(second.value.parts);
      if text == "" {
        text := DoneText;
      }
      reply := Finish(o, text, answer.grounding);
    }

    /** The sequential tool loop: execute each call that has a name and
        arguments, in order, each at its own clock reading, and record its result. */
    method RunCalls(calls: seq<SchemaCall>, o: Oracle, clocks: ToolClocks, storySeen: string)
      returns (responses: seq<Part>)
      modifies this
      ensures (Snapshot(), responses) == RunTools(old(Snapshot()), calls, o, clocks, storySeen)
      ensures view == old(view)
    {
      responses := [];
      var i := 0;
      while i < |calls|
        invariant 0 <= i <= |calls|
        invariant (Snapshot(), responses) == RunTools(old(Snapshot()), calls[..i], o, clocks, storySeen)
        invariant view == old(view)
      {
        var call := calls[i];
        assert calls[..i + 1][..i] == calls[..i];
        if Executable(call) {
          var result := ExecuteTool(call.name, call.args.value, o, clocks(i), storySeen);
          responses := responses + [ToolResult(call.name, result)];
        }
        i := i + 1;
      }
      assert calls[..i] == calls;
    }

    /** `playAudio`: stop the current source, toggle off when `msg` was the one
        playing, otherwise start it if its audio decodes. */
    method PlayAudio(msg: Message, decodes: bool)
      modifies this
      ensures Snapshot() == Play(old(Snapshot()), msg, decodes)
      ensures view == old(view)
      ensures old(Valid()) ==> Valid()
    {
      if old(Valid()) {
        PlayEffects(Snapshot(), msg, decodes);
      }
      if !Truthy(msg.audioData) {
        return;
      }
      var wasPlaying := playingId;
      if clips != [] {
        clips := StopLast(clips);
        playingId := None;
      }
      if wasPlaying == Some(msg.id) {
        return;
      }
      if decodes {
        clips := clips + [Clip(msg.id, true, false)];
        playingId := Some(msg.id);
      }
    }

    /** The `onended` handler of the `i`-th source started, which runs once. */
    method EndSource(i: nat)
      requires i < |clips| && !clips[i].ended
      modifies this
      ensures Snapshot() == SourceEnded(old(Snapshot()), i)
      ensures view == old(view)
      ensures old(Valid()) ==> Valid()
      ensures old(Valid()) && i == |old(clips)| - 1 ==> Silent(Snapshot())
    {
      if old(Valid()) {
        SourceEndedEffects(Snapshot(), i);
      }
      clips := clips[i := clips[i].(live := false, ended := true)];
      playingId := None;
    }

    /** `handleSendMessage`: ignore a blank send, otherwise run the exchange. */
    method SendMessage(text: string, mood: Option<string>, audio: Option<string>,
                       attachment: Option<Attachment>, o: Oracle, clock: Clock, toolClocks: ToolClocks, repliedAt: int,
                       rollsBio: bool, decodes: bool)
      modifies this
      ensures Snapshot() == Send(old(Snapshot()), text, mood, audio, attachment, o, clock, toolClocks, repliedAt, rollsBio, decodes)
      ensures view == old(view)
      ensures old(Valid()) ==> Valid()
    {
      if Trim(text) == "" && !Truthy(audio) && attachment.None? {
        return;
      }
      Exchange(text, mood, audio, attachment, o, clock, toolClocks, repliedAt, rollsBio, decodes);
      if old(Valid()) {
        SendKeepsCoherent(old(Snapshot()), text, mood, audio, attachment, o, clock, toolClocks, repliedAt, rollsBio, decodes);
      }
    }

    /** A send that is not ignored: show the user's message, generate the reply
        from the chat as it was, then show the reply. */
    method Exchange(text: string, mood: Option<string>, audio: Option<string>,
                    attachment: Option<Attachment>, o: Oracle, clock: Clock, toolClocks: ToolClocks, repliedAt: int,
                    rollsBio: bool, decodes: bool)
      requires !Ignored(text, audio, attachment)
      modifies this
      ensures Snapshot() == Send(old(Snapshot()), text, mood, audio, attachment, o, clock, toolClocks, repliedAt, rollsBio, decodes)
      ensures view == old(view)
    {
      ghost var before := Snapshot();
      var history, known, mode, offline := messages, profile, persona, isOffline;
      var userMsg := UserMessage(text, mood, audio, attachment, clock);
      ShowUserMessage(userMsg, clock);
      var reply := GenerateResponse(history, text, mode, known, offline, true, AsList(attachment),
                                    o, toolClocks, known.jeffStoryline);
      ghost var answered := Snapshot();
      ShowReply(offline, history, known.bio, userMsg, reply, o, repliedAt, rollsBio, decodes);
      SendStages(before, text, mood, audio, attachment, o, clock, toolClocks, repliedAt, rollsBio, decodes, answered, reply);
    }

    /** The first half of a send: show the user's message and the typing indicator. */
    method ShowUserMessage(userMsg: Message, clock: Clock)
      modifies this
      ensures Snapshot() == Sending(old(Snapshot()), userMsg, clock) && view == old(view)
    {
      lastInteraction := clock.now;
      messages := messages + [userMsg];
      isTyping := true;
    }

    /** The rest of a send: show the reply, maybe refresh the bio, play the reply. */
    method ShowReply(offline: bool, history: seq<Message>, bio: string, userMsg: Message, reply: Reply,
                     o: Oracle, repliedAt: int, rollsBio: bool, decodes: bool)
      modifies this
      ensures Snapshot() == Conclude(offline, history, bio, userMsg, old(Snapshot()), reply, o, repliedAt, rollsBio, decodes)
      ensures view == old(view)
    {
      isTyping := false;
      var aiMsg := ReplyMessage(reply, repliedAt);
      messages := messages + [aiMsg];
      if !offline && rollsBio {
        var newBio := UpdatedBio(o, history + [userMsg, aiMsg], bio);
        profile := profile.(bio := newBio);
      }
      if Truthy(reply.audioData) {
        PlayAudio(aiMsg, decodes);
      }
    }

    /** One run of the proactive interval's callback at time `now`, with the
        typing indicator as the callback captured it. */
    method ProactiveTick(o: Oracle, now: int, typingSeen: bool)
      modifies this
      ensures Snapshot() == Proactive(old(Snapshot()), o, now, typingSeen)
      ensures view == old(view)
      ensures old(Valid()) ==> Valid()
    {
      if old(Valid()) && ProactiveDue(Snapshot(), now, typingSeen) {
        ProactiveActs(Snapshot(), o, now, typingSeen);
      }
      if isOffline || messages == [] {
        return;
      }
      if !(now - lastInteraction > InactivityMs && !typingSeen) {
        return;
      }
      isTyping := true;
      var checkIn := ProactiveMessage(o, profile);
      ActOnCheckIn(o, now, checkIn.0, checkIn.1);
    }

    /** The check-in handling of the proactive callback. */
    method ActOnCheckIn(o: Oracle, now: int, text: string, call: Option<SchemaCall>)
      modifies this
      ensures Snapshot() == CheckIn(old(Snapshot()), o, now, text, call)
      ensures view == old(view)
    {
      if call.Some? && call.value.name == "post_story" {
        if call.value.args.None? {
          return;   // reading the arguments throws; the indicator stays on
        }
        PostCheckInStory(o, now, call.value.args.value.doodlePrompt, call.value.args.value.caption);
        isTyping := false;
        lastInteraction := now;
        return;
      }
      var atts: seq<Attachment> := [];
      if call.Some? && call.value.name == "generate_doodle" {
        if call.value.args.None? {
          return;   // reading the arguments throws; the indicator stays on
        }
        var img := GenerateImage(o, call.value.args.value.prompt);
        if Truthy(img) {
          atts := [DoodleAttachment(img.value)];
        }
      }
      messages := messages + [Message(IntToString(now), Model, text, now, None, None, atts, [])];
      isTyping := false;
      lastInteraction := now;
    }

    /** The story branch of the proactive callback. */
    method PostCheckInStory(o: Oracle, now: int, prompt: string, caption: string)
      modifies this
      ensures Snapshot() == PostStory(old(Snapshot()), o, now, prompt, caption)
      ensures view == old(view)
    {
      var img := GenerateImage(o, prompt);
      if Truthy(img) {
        stories := [Story(IntToString(now), Base64Image(img.value), caption, now, false)] + stories;
        var line := UpdatedStoryline(o, caption, profile.jeffStoryline);
        profile := profile.(jeffStoryline := line);
      }
    }

    /** The user taps an emoji on message `id`. */
    method ReactAsUser(id: string, emoji: string)
      modifies this
      ensures Snapshot() == old(Snapshot()).(messages := ReactTo(old(messages), id, emoji, User))
      ensures view == old(view)
      ensures old(Valid()) ==> Valid()
    {
      if old(Valid()) {
        ReactToKeepsOneReactionPerRole(messages, id, emoji, User);
      }
      messages := ReactTo(messages, id, emoji, User);
    }

    /** `onDelete(id, type)`: drop the entries with that id from the list the
        type names; any other type changes nothing. */
    method DeleteItem(id: string, kind: string)
      modifies this
      ensures Snapshot() == old(Snapshot()).(
        planner := if kind == "planner" then RemoveById(old(planner), PlannerId, id) else old(planner),
        expenses := if kind == "budget" then RemoveById(old(expenses), ExpenseId, id) else old(expenses),
        novels := if kind == "novels" then RemoveById(old(novels), NovelId, id) else old(novels),
        wishlist := if kind == "wishlist" then RemoveById(old(wishlist), WishlistId, id) else old(wishlist))
      ensures view == old(view)
      ensures old(Valid()) ==> Valid()
    {
      if kind == "planner" {
        planner := RemoveById(planner, PlannerId, id);
      }
      if kind == "budget" {
        expenses := RemoveById(expenses, ExpenseId, id);
      }
      if kind == "novels" {
        novels := RemoveById(novels, NovelId, id);
      }
      if kind == "wishlist" {
        wishlist := RemoveById(wishlist, WishlistId, id);
      }
    }

    /** Closing the story viewer marks every story seen. */
    method CloseStoryViewer()
      modifies this
      ensures Snapshot() == old(Snapshot()).(stories := MarkAllSeen(old(stories)))
      ensures !HasNewStory(stories)
      ensures view == old(view)
      ensures old(Valid()) ==> Valid()
    {
      stories := MarkAllSeen(stories);
      NoNewStoryAfterViewing(old(stories));
    }

    /** One run of the focus timer's effect, which exists only while the study
        view is shown. */
    method TimerTick()
      requires view == StudyView
      modifies this
      ensures Snapshot() == old(Snapshot()).(timer := Tick(old(timer)))
      ensures view == old(view)
      ensures old(Valid()) ==> Valid()
    {
      if timer.isActive && timer.remaining > 0 {
        timer := timer.(remaining := timer.remaining - 1);
      } else if timer.remaining == 0 && timer.isActive {
        timer := timer.(isActive := false);
      }
    }

    /** The Start/Pause button, shown only in the study view. */
    method TimerToggle()
      requires view == StudyView
      modifies this
      ensures Snapshot() == old(Snapshot()).(timer := Toggle(old(timer)))
      ensures view == old(view)
      ensures old(Valid()) ==> Valid()
    {
      timer := timer.(isActive := !timer.isActive);
    }

    /** The Reset button, shown only in the study view. */
    method TimerReset()
      requires view == StudyView
      modifies this
      ensures Snapshot() == old(Snapshot()).(timer := Reset(old(timer)))
      ensures view == old(view)
      ensures old(Valid()) ==> Valid()
    {
      timer := timer.(isActive := false, remaining := timer.duration);
    }

    /** Switching view: the study view makes the persona the tutor, the chat
        view makes it the friend, the life view keeps it. */
    method ShowView(v: View)
      modifies this
      ensures view == v
      ensures Snapshot() == old(Snapshot()).(persona :=
        if v == StudyView then Tutor else if v == ChatView then Friend else old(persona))
      ensures old(Valid()) ==> Valid()
    {
      view := v;
      if v == StudyView {
        persona := Tutor;
      }
      if v == ChatView {
        persona := Friend;
      }
    }

    /** The browser's `online` and `offline` events. */
    method SetConnectivity(online: bool)
      modifies this
      ensures Snapshot() == old(Snapshot()).(isOffline := !online)
      ensures view == old(view)
      ensures old(Valid()) ==> Valid()
    {
      isOffline := !online;
    }
  }
}
