/** What the chat steps of store.dfy guarantee: the tool dispatcher and the
    tool loop change only what their tool names, keep every message's body and
    the reaction invariant; the reply is never empty and falls back as the
    generation service promises; playback is single-flight and toggles; the
    proactive tick acts at most once per silence; a send appends exactly the
    user's message and the reply. */
module StoreFacts {
  import opened Types
  import opened Seqs
  import opened Strings
  import opened Updaters
  import opened Gemini
  import opened Store

  /** `after` starts with the messages of `before`, each with the same body
      (reactions may have been added). */
  predicate KeepsBodies(before: seq<Message>, after: seq<Message>) {
    |before| <= |after| && forall i :: 0 <= i < |before| ==> Body(after[i]) == Body(before[i])
  }

  /** The parts of the state no tool touches: persona, connectivity, playback,
      the inactivity clock and the profile's name, bio and topics. */
  predicate SessionKept(before: State, after: State) {
    after.persona == before.persona && after.isOffline == before.isOffline
    && after.playingId == before.playingId && after.clips == before.clips
    && after.lastInteraction == before.lastInteraction
    && after.profile.name == before.profile.name && after.profile.bio == before.profile.bio
    && after.profile.topics == before.profile.topics
  }

  /** No source is playing. */
  predicate Silent(st: State) {
    forall i :: 0 <= i < |st.clips| ==> !st.clips[i].live
  }

  /** Appending a message that has no reactions keeps the reaction invariant. */
  lemma AppendFresh(ms: seq<Message>, m: Message)
    requires OneReactionPerRole(ms) && m.reactions == []
    ensures OneReactionPerRole(ms + [m])
  {
    var r := ms + [m];
    forall i, role | 0 <= i < |r| ensures Count(r[i].reactions, GivenBy(role)) <= 1 {
      if i < |ms| {
        assert r[i] == ms[i];
      }
    }
  }

  // ---------------------------------------------------------------- executeTool

  /** What every tool step keeps: a coherent chat, the body of every message,
      the session, and at most one new message. */
  predicate ToolStep(st: State, r: State) {
    Coherent(r) && KeepsBodies(st.messages, r.messages) && SessionKept(st, r)
    && |r.messages| <= |st.messages| + 1
  }

  /** Every tool keeps the chat coherent, keeps the body of every message,
      adds at most one message and leaves the session untouched. */
  lemma DispatchFrame(st: State, name: string, args: ToolArgs, o: Oracle, clock: Clock, seen: string)
    requires FitsSchema(name, args) && Coherent(st)
    ensures ToolStep(st, Dispatch(st, name, args, o, clock, seen).0)
  {
    if name == "set_timer" {
      KeptMessagesFrame(st, TimerTool(st, args).0);
    } else if name == "generate_doodle" {
      DoodleFrame(st, args, o, clock);
    } else if name == "post_story" {
      KeptMessagesFrame(st, StoryTool(st, args, o, clock, seen).0);
    } else if name == "start_game" {
      KeptMessagesFrame(st, GameTool(st, args).0);
    } else if name == "add_planner_item" {
      KeptMessagesFrame(st, PlannerTool(st, args, clock).0);
    } else if name == "add_expense" {
      KeptMessagesFrame(st, ExpenseTool(st, args, clock).0);
    } else if name == "manage_wishlist" {
      KeptMessagesFrame(st, WishlistTool(st, args, clock).0);
    } else if name == "update_novel_progress" {
      KeptMessagesFrame(st, NovelTool(st, args, clock).0);
    } else if name == "react_to_message" {
      ReactFrame(st, args);
    } else {
      KeptMessagesFrame(st, st);
    }
  }

  /** The doodle tool adds at most one message, with no reactions. */
  lemma DoodleFrame(st: State, args: ToolArgs, o: Oracle, clock: Clock)
    requires args.DoodleArgs? && Coherent(st)
    ensures ToolStep(st, DoodleTool(st, args, o, clock).0)
  {
    var r := DoodleTool(st, args, o, clock).0;
    if r.messages != st.messages {
      AppendFresh(st.messages, r.messages[|st.messages|]);
      assert r.messages == st.messages + [r.messages[|st.messages|]];
    }
  }

  /** The model's reaction changes reactions only, one per role, and keeps the
      number of messages and everything outside them. */
  lemma ReactFrame(st: State, args: ToolArgs)
    requires args.ReactArgs? && Coherent(st)
    ensures ToolStep(st, ReactTool(st, args).0)
    ensures var r := ReactTool(st, args).0;
      |r.messages| == |st.messages| && r == st.(messages := r.messages)
  {
    var target := ModelTarget(st.messages, args.messageId);
    if target != "" {
      ReactToKeepsOneReactionPerRole(st.messages, target, args.emoji, Model);
    }
  }

  /** A step that leaves the messages and the session alone keeps the chat coherent. */
  lemma KeptMessagesFrame(st: State, r: State)
    requires Coherent(st) && r.messages == st.messages && SessionKept(st, r)
    ensures ToolStep(st, r)
  {
  }


  /** What each tool does, in the words of its result string. */
  lemma DispatchEffects(st: State, name: string, args: ToolArgs, o: Oracle, clock: Clock, seen: string)
    requires FitsSchema(name, args)
    ensures var (r, result) := Dispatch(st, name, args, o, clock, seen);
      var id := IntToString(clock.now);
      (name == "set_timer" ==>
         r == st.(timer := TimerState(true, args.minutes * 60, args.minutes * 60,
                                      if Truthy(args.timerLabel) then args.timerLabel.value else "Study"))
         && result == "Timer set for " + IntToString(args.minutes) + " minutes.")
      && (name == "add_planner_item" ==>
         r == st.(planner := st.planner + [PlannerItem(id, args.title,
                    if Truthy(args.date) then args.date.value else clock.today, args.plannerType, false, args.notes)])
         && result == "Added " + args.title)
      && (name == "add_expense" ==>
         r == st.(expenses := st.expenses + [Expense(id, args.item, args.amount, args.category, clock.today)])
         && result == "Tracked expense.")
      && (name == "manage_wishlist" ==>
         (args.action == "add" ==>
            r == st.(wishlist := st.wishlist + [WishlistItem(id, args.title, args.wishType, Want, args.details)])
            && result == "Added to wishlist.")
         && (args.action != "add" ==> r == st && result == "Updated."))
      && (name == "update_novel_progress" ==>
         r == st.(novels := UpsertNovel(st.novels, id, args.title, args.chapter, args.gossip))
         && result == "Updated progress.")
      && (name == "post_story" ==>
         r.messages == st.messages
         && (result == "Posted story!" <==> Truthy(ImageData(o.image(args.doodlePrompt))))
         && (result == "Posted story!" ==>
               |r.stories| == |st.stories| + 1 && r.stories[1..] == st.stories
               && r.profile.jeffStoryline == UpdatedStoryline(o, args.caption, seen))
         && (result != "Posted story!" ==> r == st))
      && (name == "generate_doodle" ==>
         r.isTyping
         && (Truthy(ImageData(o.image(args.prompt))) <==> |r.messages| == |st.messages| + 1)
         && (|r.messages| == |st.messages| + 1 ==>
               r.messages[|st.messages|].role == Model
               && r.messages[|st.messages|].attachments[0].base64 == ImageData(o.image(args.prompt))))
      && (name == "start_game" ==>
         result == "Started " + args.game
         && (r.doodleOpen <==> st.doodleOpen || args.game == "doodle_challenge")
         && r == (if args.game == "doodle_challenge" then st.(doodleOpen := true) else st))
      && (name == "react_to_message" ==>
         r == st.(messages := ReactAsModel(st.messages, args.messageId, args.emoji))
         && result == "Reacted.")
      && (name !in ToolNames ==> r == st && result == "Tool not found.")
  {
  }

  /** The two picture tools in full: a doodle is a model message whose id and
      time are the tool's clock reading and whose text is fixed; a story goes in
      front with the life story rewritten; nothing else in the state moves, and
      a missing picture gives "Failed." (leaving the indicator on after a
      doodle, the state untouched after a story). */
  lemma DispatchMediaEffects(st: State, name: string, args: ToolArgs, o: Oracle, clock: Clock, seen: string)
    requires FitsSchema(name, args) && (name == "generate_doodle" || name == "post_story")
    ensures var (r, result) := Dispatch(st, name, args, o, clock, seen);
      var id := IntToString(clock.now);
      (name == "generate_doodle" ==>
         var img := ImageData(o.image(args.prompt));
         (Truthy(img) ==>
            r == st.(isTyping := true, messages := st.messages
                       + [Message(id, Model, "Here's a doodle!", clock.now, None, None, [DoodleAttachment(img.value)], [])])
            && result == "Sent doodle.")
         && (!Truthy(img) ==> r == st.(isTyping := true) && result == "Failed."))
      && (name == "post_story" ==>
         var img := ImageData(o.image(args.doodlePrompt));
         (Truthy(img) ==>
            r == st.(stories := [Story(id, Base64Image(img.value), args.caption, clock.now, false)] + st.stories,
                     profile := st.profile.(jeffStoryline := UpdatedStoryline(o, args.caption, seen)))
            && result == "Posted story!")
         && (!Truthy(img) ==> r == st && result == "Failed."))
  {
  }

  /** The names `executeTool` knows. */
  const ToolNames: set<string> := {"set_timer", "generate_doodle", "post_story", "start_game",
    "add_planner_item", "add_expense", "manage_wishlist", "update_novel_progress", "react_to_message"}

  /** Keeping bodies composes. */
  lemma KeepsBodiesTrans(a: seq<Message>, b: seq<Message>, c: seq<Message>)
    requires KeepsBodies(a, b) && KeepsBodies(b, c)
    ensures KeepsBodies(a, c)
  {
    forall i | 0 <= i < |a| ensures Body(c[i]) == Body(a[i]) {
      assert Body(c[i]) == Body(b[i]);
    }
  }

  /** What a completed send leaves behind: the chat is coherent, every earlier
      body is kept, the user's message follows them, the model's reply (a
      non-empty text, with the id one past the reply time) comes last, the typing
      indicator is off, the inactivity clock reads `now`, and persona and
      connectivity are as they were. */
  predicate Exchanged(st: State, userMsg: Message, r: State, now: int, repliedAt: int) {
    var n := |st.messages|;
    Coherent(r) && |r.messages| >= n + 2
    && KeepsBodies(st.messages, r.messages)
    && Body(r.messages[n]) == Body(userMsg)
    && r.messages[|r.messages| - 1].role == Model && r.messages[|r.messages| - 1].text != ""
    && r.messages[|r.messages| - 1].id == IntToString(repliedAt + 1)
    && !r.isTyping && r.lastInteraction == now
    && r.persona == st.persona && r.isOffline == st.isOffline
  }

  // ---------------------------------------------------------------- the tool loop

  /** One tool result per executed call, in the order of the calls and under
      the call's name. */
  lemma {:induction false} RunToolsResponses(st: State, calls: seq<SchemaCall>, o: Oracle, clocks: ToolClocks, seen: string)
    ensures var rs := RunTools(st, calls, o, clocks, seen).1;
      var ex := Executed(calls);
      |rs| == |ex| && forall i :: 0 <= i < |ex| ==> rs[i].ToolResult? && rs[i].name == ex[i].name
    decreases |calls|
  {
    if calls != [] {
      RunToolsResponses(st, calls[..|calls| - 1], o, clocks, seen);
    }
  }

  /** The executed calls are exactly the calls that have a name and arguments. */
  lemma {:induction false} ExecutedIsFilter(calls: seq<SchemaCall>)
    ensures Executed(calls) == Filter(calls, Executable)
    decreases |calls|
  {
    if calls != [] {
      var init, c := calls[..|calls| - 1], calls[|calls| - 1];
      ExecutedIsFilter(init);
      assert calls == init + [c];
      FilterAppend(init, [c], Executable);
      assert Filter([c], Executable) == if Executable(c) then [c] else [] by {
        assert [c][1..] == [];
      }
    }
  }

  /** A reply without an executable call runs no tool. */
  lemma {:induction false} RunToolsNothingExecutable(st: State, calls: seq<SchemaCall>, o: Oracle, clocks: ToolClocks, seen: string)
    requires forall i :: 0 <= i < |calls| ==> !Executable(calls[i])
    ensures RunTools(st, calls, o, clocks, seen) == (st, [])
    decreases |calls|
  {
    if calls != [] {
      RunToolsNothingExecutable(st, calls[..|calls| - 1], o, clocks, seen);
    }
  }

  /** The tool loop keeps the chat coherent and every message's body, and adds
      at most one message per call. */
  lemma {:induction false} RunToolsFrame(st: State, calls: seq<SchemaCall>, o: Oracle, clocks: ToolClocks, seen: string)
    requires Coherent(st)
    ensures var r := RunTools(st, calls, o, clocks, seen).0;
      Coherent(r) && KeepsBodies(st.messages, r.messages) && SessionKept(st, r)
      && |r.messages| <= |st.messages| + |calls|
    decreases |calls|
  {
    if calls != [] {
      var init, c := calls[..|calls| - 1], calls[|calls| - 1];
      RunToolsFrame(st, init, o, clocks, seen);
      var before := RunTools(st, init, o, clocks, seen).0;
      if Executable(c) {
        var at := clocks(|calls| - 1);
        var r := Dispatch(before, c.name, c.args.value, o, at, seen).0;
        DispatchFrame(before, c.name, c.args.value, o, at, seen);
        assert RunTools(st, calls, o, clocks, seen).0 == r;
        KeepsBodiesTrans(st.messages, before.messages, r.messages);
      } else {
        assert RunTools(st, calls, o, clocks, seen).0 == before;
      }
    }
  }

  // ---------------------------------------------------------------- generateResponse

  /** `text` ends with the sources of `grounding` and has something before them. */
  predicate EndsWithSources(text: string, grounding: seq<Chunk>) {
    var suffix := SourcesSuffix(grounding);
    |suffix| < |text| && text[|text| - |suffix|..] == suffix
  }

  /** The state after `generateResponse`: unchanged offline, on a failed main call
      or without tool calls; otherwise the tool loop's state, kept even when the
      follow-up call fails. */
  lemma RespondFrame(st: State, history: seq<Message>, input: string, persona: Persona,
                     profile: UserProfile, offline: bool, withTools: bool,
                     atts: seq<Attachment>, o: Oracle, clocks: ToolClocks, seen: string)
    requires Coherent(st)
    ensures var r := Respond(st, history, input, persona, profile, offline, withTools, atts, o, clocks, seen).0;
      Coherent(r) && KeepsBodies(st.messages, r.messages) && SessionKept(st, r)
      && ((offline || !withTools) ==> r == st)
  {
    if !offline {
      var contents := BuildContext(history, UserParts(input, atts), profile, persona);
      var main := o.chat(contents);
      if main.Some? && |FunctionCalls(main.value.parts)| > 0 && withTools {
        RunToolsFrame(st, FunctionCalls(main.value.parts), o, clocks, seen);
      }
    }
  }

  /** Offline the reply is the fixed offline text, whatever the service would say. */
  lemma RespondOffline(st: State, history: seq<Message>, input: string, persona: Persona,
                       profile: UserProfile, withTools: bool, atts: seq<Attachment>, clocks: ToolClocks, seen: string)
    ensures forall o: Oracle :: Respond(st, history, input, persona, profile, true, withTools, atts, o, clocks, seen)
                                == (st, Reply(OfflineReply, None))
  {
  }

  /** A failed main call gives "brain freeze" and runs no tool. */
  lemma RespondMainFailure(st: State, history: seq<Message>, input: string, persona: Persona,
                           profile: UserProfile, withTools: bool, atts: seq<Attachment>, o: Oracle,
                           clocks: ToolClocks, seen: string)
    requires o.chat(BuildContext(history, UserParts(input, atts), profile, persona)).None?
    ensures Respond(st, history, input, persona, profile, false, withTools, atts, o, clocks, seen)
         == (st, Reply(BrainFreeze, None))
  {
  }

  /** A finished reply has a non-empty body followed by the sources. */
  lemma FinishEndsWithSources(o: Oracle, generated: string, grounding: seq<Chunk>)
    ensures EndsWithSources(Finish(o, generated, grounding).text, grounding)
  {
    if generated == "" {
      assert Finish(o, generated, grounding).text == Ellipsis + SourcesSuffix(grounding);
      EndsWithSourcesAppended(Ellipsis, grounding);
    } else {
      assert Finish(o, generated, grounding).text == generated + SourcesSuffix(grounding);
      EndsWithSourcesAppended(generated, grounding);
    }
  }

  /** Appending the sources to a non-empty body ends the text with them. */
  lemma EndsWithSourcesAppended(body: string, grounding: seq<Chunk>)
    requires body != []
    ensures EndsWithSources(body + SourcesSuffix(grounding), grounding)
  {
    var suffix := SourcesSuffix(grounding);
    var t := body + suffix;
    assert t[|t| - |suffix|..] == suffix;
  }

  /** The tool round's reply is "brain freeze" or ends with the main answer's sources. */
  lemma ToolRoundText(st: State, contents: seq<Turn>, answer: Candidate, o: Oracle, clocks: ToolClocks, seen: string)
    ensures var reply := ToolRound(st, contents, answer, o, clocks, seen).1;
      reply.text == BrainFreeze || EndsWithSources(reply.text, answer.grounding)
  {
    var ran := RunTools(st, FunctionCalls(answer.parts), o, clocks, seen);
    var second := o.followUp(contents + [Turn(Model, answer.parts), Turn(User, ran.1)]);
    if second.Some? {
      var text := JoinText(second.value.parts);
      FinishEndsWithSources(o, if text == "" then DoneText else text, answer.grounding);
    }
  }

  /** The reply to a main answer is never empty; unless it is "brain freeze" it
      ends with that answer's sources. */
  lemma AnswerText(st: State, contents: seq<Turn>, main: Option<Candidate>, withTools: bool,
                   o: Oracle, clocks: ToolClocks, seen: string)
    ensures var reply := Answer(st, contents, main, withTools, o, clocks, seen).1;
      reply.text != ""
      && (main.Some? && reply.text != BrainFreeze ==> EndsWithSources(reply.text, main.value.grounding))
  {
    if main.Some? {
      if |FunctionCalls(main.value.parts)| > 0 && withTools {
        ToolRoundText(st, contents, main.value, o, clocks, seen);
      } else {
        FinishEndsWithSources(o, JoinText(main.value.parts), main.value.grounding);
      }
    }
  }

  /** The reply text is never empty, and every generated reply ends with the
      sources of the main answer's grounding (not the follow-up's). */
  lemma RespondReplyText(st: State, history: seq<Message>, input: string, persona: Persona,
                         profile: UserProfile, offline: bool, withTools: bool,
                         atts: seq<Attachment>, o: Oracle, clocks: ToolClocks, seen: string)
    ensures var reply := Respond(st, history, input, persona, profile, offline, withTools, atts, o, clocks, seen).1;
      var main := o.chat(BuildContext(history, UserParts(input, atts), profile, persona));
      reply.text != ""
      && (!offline && main.Some? && reply.text != BrainFreeze ==> EndsWithSources(reply.text, main.value.grounding))
  {
    if !offline {
      var contents := BuildContext(history, UserParts(input, atts), profile, persona);
      AnswerText(st, contents, o.chat(contents), withTools, o, clocks, seen);
    }
  }

  /** Without tool calls (or with tools off) there is exactly one generation
      call: the follow-up is never consulted, and nothing else changes. */
  lemma RespondWithoutToolsIgnoresFollowUp(st: State, history: seq<Message>, input: string, persona: Persona,
                     profile: UserProfile, offline: bool, withTools: bool,
                     atts: seq<Attachment>, o: Oracle, clocks: ToolClocks, seen: string,
                     other: seq<Turn> -> Option<Candidate>)
    requires var contents := BuildContext(history, UserParts(input, atts), profile, persona);
      !withTools || o.chat(contents).None? || FunctionCalls(o.chat(contents).value.parts) == []
    ensures Respond(st, history, input, persona, profile, offline, withTools, atts, o.(followUp := other), clocks, seen)
         == Respond(st, history, input, persona, profile, offline, withTools, atts, o, clocks, seen)
    ensures Respond(st, history, input, persona, profile, offline, withTools, atts, o, clocks, seen).0 == st
  {
  }

  /** With tool calls the follow-up sees one result per executable call, and
      the tools' effects stay even when the follow-up fails. */
  lemma RespondToolRound(st: State, history: seq<Message>, input: string, persona: Persona,
                         profile: UserProfile, atts: seq<Attachment>, o: Oracle, clocks: ToolClocks, seen: string)
    requires var main := o.chat(BuildContext(history, UserParts(input, atts), profile, persona));
      main.Some? && FunctionCalls(main.value.parts) != []
    ensures var contents := BuildContext(history, UserParts(input, atts), profile, persona);
      var answer := o.chat(contents).value;
      var ran := RunTools(st, FunctionCalls(answer.parts), o, clocks, seen);
      var r := Respond(st, history, input, persona, profile, false, true, atts, o, clocks, seen);
      r.0 == ran.0
      && |ran.1| == |Executed(FunctionCalls(answer.parts))|
      && (o.followUp(contents + [Turn(Model, answer.parts), Turn(User, ran.1)]).None? ==> r.1 == Reply(BrainFreeze, None))
  {
    var answer := o.chat(BuildContext(history, UserParts(input, atts), profile, persona)).value;
    RunToolsResponses(st, FunctionCalls(answer.parts), o, clocks, seen);
  }

  // ---------------------------------------------------------------- playAudio

  /** With a coherent player, a set `playingId` names the source that plays, so
      while nothing plays `playingId` is empty. */
  lemma PlayingIdNamesLiveClip(st: State)
    requires AudioCoherent(st)
    ensures st.playingId.Some? ==>
      !Silent(st) && st.clips[|st.clips| - 1] == Clip(st.playingId.value, true, false)
    ensures Silent(st) ==> st.playingId.None?
  {
    if st.playingId.Some? {
      assert st.clips[|st.clips| - 1].live;
    }
  }

  /** `playAudio` changes only playback, keeps it single-flight, never forgets
      a source it started, and either stops everything (a tap on the playing
      message, or audio that fails to decode) or plays exactly the tapped message. */
  lemma PlayEffects(st: State, msg: Message, decodes: bool)
    requires AudioCoherent(st)
    ensures var r := Play(st, msg, decodes);
      AudioCoherent(r) && r == st.(clips := r.clips, playingId := r.playingId)
      && |st.clips| <= |r.clips| <= |st.clips| + 1
      && (forall i :: 0 <= i < |st.clips| ==> r.clips[i].messageId == st.clips[i].messageId)
      && (!Truthy(msg.audioData) ==> r == st)
      && (Truthy(msg.audioData) && (st.playingId == Some(msg.id) || !decodes) ==> Silent(r) && r.playingId.None?)
      && (Truthy(msg.audioData) && st.playingId != Some(msg.id) && decodes ==>
            r.playingId == Some(msg.id) && |r.clips| == |st.clips| + 1
            && r.clips[|st.clips|] == Clip(msg.id, true, false))
  {
    var r := Play(st, msg, decodes);
    if Truthy(msg.audioData) {
      if st.clips != [] {
        var s := StopLast(st.clips);
        forall i | 0 <= i < |s| ensures !s[i].live {
          if i < |s| - 1 {
            assert s[i] == st.clips[i];
          }
        }
      }
    }
  }

  /** Tapping a message that is not playing and then tapping it again, with no
      handler running in between, leaves nothing playing. */
  lemma PlayTwiceStops(st: State, msg: Message, decodes: bool)
    requires AudioCoherent(st) && Truthy(msg.audioData) && st.playingId != Some(msg.id)
    ensures var r := Play(Play(st, msg, true), msg, decodes);
      AudioCoherent(r) && Silent(r) && r.playingId.None?
  {
    PlayEffects(st, msg, true);
    PlayEffects(Play(st, msg, true), msg, decodes);
  }

  /** A source's handler changes only playback: that source is stopped with its
      handler run, every other source is as it was, `playingId` is cleared, and
      the player stays coherent. */
  lemma SourceEndedEffects(st: State, i: nat)
    requires AudioCoherent(st) && i < |st.clips|
    ensures var r := SourceEnded(st, i);
      AudioCoherent(r) && r == st.(clips := r.clips, playingId := None)
      && |r.clips| == |st.clips| && r.clips[i] == st.clips[i].(live := false, ended := true)
      && (forall j :: 0 <= j < |st.clips| && j != i ==> r.clips[j] == st.clips[j])
  {
  }

  /** When the playing source plays out, nothing plays. */
  lemma ClipEndedSilences(st: State)
    requires AudioCoherent(st) && st.clips != []
    ensures var r := SourceEnded(st, |st.clips| - 1);
      AudioCoherent(r) && Silent(r) && r.playingId.None?
  {
    var r := SourceEnded(st, |st.clips| - 1);
    forall j | 0 <= j < |r.clips| ensures !r.clips[j].live {
      if j < |r.clips| - 1 {
        assert r.clips[j] == st.clips[j];
      }
    }
  }

  /** The late handler of a source stopped earlier clears `playingId` while the
      newest source goes on playing. */
  lemma LateEndKeepsPlaying(st: State, i: nat)
    requires AudioCoherent(st) && i < |st.clips| - 1 && st.clips[|st.clips| - 1].live
    ensures var r := SourceEnded(st, i);
      r.playingId.None? && !Silent(r) && r.clips[|r.clips| - 1] == st.clips[|st.clips| - 1]
  {
    var r := SourceEnded(st, i);
    assert r.clips[|r.clips| - 1].live;
  }

  /** Tap `a`, tap `b`, and let `a`'s stopped source run its handler: `b` still
      plays but nothing is named as playing, so a second tap on `b` restarts it
      instead of turning it off (which it does without the late handler). */
  lemma LateEndDefeatsToggle(st: State, a: Message, b: Message)
    requires AudioCoherent(st) && Truthy(a.audioData) && Truthy(b.audioData)
    requires a.id != b.id && st.playingId != Some(a.id)
    ensures var s1 := Play(st, a, true);
      var s2 := Play(s1, b, true);
      var s3 := SourceEnded(s2, |s1.clips| - 1);
      var s4 := Play(s3, b, true);
      s3.playingId.None? && !Silent(s3)
      && s4.playingId == Some(b.id) && |s4.clips| == |s2.clips| + 1
      && s4.clips[|s4.clips| - 1] == Clip(b.id, true, false)
      && Silent(Play(s2, b, true)) && Play(s2, b, true).playingId.None?
  {
    var s1 := Play(st, a, true);
    PlayEffects(st, a, true);
    var s2 := Play(s1, b, true);
    PlayEffects(s1, b, true);
    PlayEffects(s2, b, true);
    LateEndKeepsPlaying(s2, |s1.clips| - 1);
    var s3 := SourceEnded(s2, |s1.clips| - 1);
    SourceEndedEffects(s2, |s1.clips| - 1);
    PlayEffects(s3, b, true);
  }

  // ---------------------------------------------------------------- proactive tick

  /** The tick does nothing offline, with an empty chat, while its callback
      sees a reply being typed, or within 30 seconds of the last interaction. */
  lemma ProactiveIdle(st: State, o: Oracle, now: int, typingSeen: bool)
    requires st.isOffline || st.messages == [] || typingSeen || now - st.lastInteraction <= InactivityMs
    ensures Proactive(st, o, now, typingSeen) == st
  {
  }

  /** When the tick acts it either posts at most one story or appends exactly
      one message from the model, then clears the typing indicator and restarts
      the inactivity clock; the only exception is a call without arguments,
      which throws and leaves the indicator on and the inactivity clock as it was. */
  lemma ProactiveActs(st: State, o: Oracle, now: int, typingSeen: bool)
    requires ProactiveDue(st, now, typingSeen) && Coherent(st)
    ensures var r := Proactive(st, o, now, typingSeen);
      Coherent(r)
      && r.planner == st.planner && r.expenses == st.expenses && r.wishlist == st.wishlist
      && r.novels == st.novels && r.timer == st.timer && r.clips == st.clips
      && (r.isTyping ==> r == st.(isTyping := true))
      && (!r.isTyping ==>
           r.lastInteraction == now
           && ((r.messages == st.messages
                && (r.stories == st.stories || (|r.stories| == |st.stories| + 1 && r.stories[1..] == st.stories)))
               || (r.stories == st.stories && |r.messages| == |st.messages| + 1
                   && r.messages[..|st.messages|] == st.messages && r.messages[|st.messages|].role == Model)))
  {
    var r := Proactive(st, o, now, typingSeen);
    if |r.messages| == |st.messages| + 1 {
      AppendFresh(st.messages, r.messages[|st.messages|]);
      assert r.messages == st.messages + [r.messages[|st.messages|]];
    }
  }

  /** After the tick has acted it stays quiet for the next 30 seconds. */
  lemma ProactiveQuietAfterActing(st: State, o: Oracle, now: int, typingSeen: bool,
                                  o2: Oracle, later: int, typingSeenLater: bool)
    requires ProactiveDue(st, now, typingSeen) && !Proactive(st, o, now, typingSeen).isTyping
    requires later - now <= InactivityMs
    ensures Proactive(Proactive(st, o, now, typingSeen), o2, later, typingSeenLater)
         == Proactive(st, o, now, typingSeen)
  {
  }

  /** A check-in whose call has no arguments throws: the indicator stays on and
      the inactivity clock is not restarted. The callback's captured indicator
      is still off (the indicator is not among the effect's dependencies), so
      every later tick tries the check-in again, exactly as if the failed one
      had never happened. */
  lemma ProactiveRetriesAfterFailedCheckIn(st: State, o: Oracle, now: int, typingSeen: bool,
                                           o2: Oracle, later: int)
    requires ProactiveDue(st, now, typingSeen) && Proactive(st, o, now, typingSeen).isTyping
    requires later >= now
    ensures Proactive(st, o, now, typingSeen) == st.(isTyping := true)
    ensures var r := Proactive(st, o, now, typingSeen);
      ProactiveDue(r, later, false) && Proactive(r, o2, later, false) == Proactive(st, o2, later, false)
  {
  }

  // ---------------------------------------------------------------- handleSendMessage

  /** A blank send without audio or attachment changes nothing. */
  lemma SendIgnoredIsNoop(st: State, text: string, mood: Option<string>, audio: Option<string>,
                          attachment: Option<Attachment>, o: Oracle, clock: Clock, toolClocks: ToolClocks, repliedAt: int,
                          rollsBio: bool, decodes: bool)
    requires forall i :: 0 <= i < |text| ==> IsJsSpace(text[i])
    requires !Truthy(audio) && attachment.None?
    ensures Send(st, text, mood, audio, attachment, o, clock, toolClocks, repliedAt, rollsBio, decodes) == st
  {
    TrimEmptyIffBlank(text);
  }

  /** The end of a send appends exactly the reply, clears the typing
      indicator, and keeps the chat coherent. */
  lemma ConcludeFrame(offline: bool, history: seq<Message>, bio: string, userMsg: Message,
                      answered: State, reply: Reply, o: Oracle, repliedAt: int, rollsBio: bool, decodes: bool)
    requires Coherent(answered)
    ensures var r := Conclude(offline, history, bio, userMsg, answered, reply, o, repliedAt, rollsBio, decodes);
      Coherent(r) && r.messages == answered.messages + [ReplyMessage(reply, repliedAt)]
      && !r.isTyping && r.lastInteraction == answered.lastInteraction
      && r.persona == answered.persona && r.isOffline == answered.isOffline
      && ((offline || !rollsBio) ==> r.profile == answered.profile)
      && (!offline && rollsBio ==>
            r.profile == answered.profile.(bio := UpdatedBio(o, history + [userMsg, ReplyMessage(reply, repliedAt)], bio)))
  {
    var aiMsg := ReplyMessage(reply, repliedAt);
    AppendFresh(answered.messages, aiMsg);
    var replied := answered.(isTyping := false, messages := answered.messages + [aiMsg]);
    var summarised :=
      if !offline && rollsBio then
        replied.(profile := replied.profile.(bio := UpdatedBio(o, history + [userMsg, aiMsg], bio)))
      else replied;
    if Truthy(reply.audioData) {
      PlayEffects(summarised, aiMsg, decodes);
    }
  }

  /** A send that is not ignored is the reply to the chat as it was, concluded. */
  lemma SendStages(st: State, text: string, mood: Option<string>, audio: Option<string>,
                   attachment: Option<Attachment>, o: Oracle, clock: Clock, toolClocks: ToolClocks, repliedAt: int,
                   rollsBio: bool, decodes: bool, answered: State, reply: Reply)
    requires !Ignored(text, audio, attachment)
    requires (answered, reply)
          == Respond(Sending(st, UserMessage(text, mood, audio, attachment, clock), clock), st.messages, text,
                     st.persona, st.profile, st.isOffline, true, AsList(attachment), o, toolClocks, st.profile.jeffStoryline)
    ensures Send(st, text, mood, audio, attachment, o, clock, toolClocks, repliedAt, rollsBio, decodes)
         == Conclude(st.isOffline, st.messages, st.profile.bio, UserMessage(text, mood, audio, attachment, clock),
                     answered, reply, o, repliedAt, rollsBio, decodes)
  {
  }

  /** No tool reads the main generation call. */
  lemma DispatchIgnoresChat(st: State, name: string, args: ToolArgs, o: Oracle, f: seq<Turn> -> Option<Candidate>,
                            clock: Clock, seen: string)
    requires FitsSchema(name, args)
    ensures Dispatch(st, name, args, o, clock, seen) == Dispatch(st, name, args, o.(chat := f), clock, seen)
  {
  }

  /** The tool loop does not read the main generation call. */
  lemma {:induction false} RunToolsIgnoresChat(st: State, calls: seq<SchemaCall>, o: Oracle,
                                               f: seq<Turn> -> Option<Candidate>, clocks: ToolClocks, seen: string)
    ensures RunTools(st, calls, o, clocks, seen) == RunTools(st, calls, o.(chat := f), clocks, seen)
    decreases |calls|
  {
    if calls != [] {
      var init, c := calls[..|calls| - 1], calls[|calls| - 1];
      RunToolsIgnoresChat(st, init, o, f, clocks, seen);
      if Executable(c) {
        var before := RunTools(st, init, o, clocks, seen).0;
        DispatchIgnoresChat(before, c.name, c.args.value, o, f, clocks(|calls| - 1), seen);
      }
    }
  }

  /** Once the main answer is in, nothing reads the main generation call again. */
  lemma AnswerIgnoresChat(st: State, contents: seq<Turn>, main: Option<Candidate>, withTools: bool, o: Oracle,
                          f: seq<Turn> -> Option<Candidate>, clocks: ToolClocks, seen: string)
    ensures Answer(st, contents, main, withTools, o, clocks, seen)
         == Answer(st, contents, main, withTools, o.(chat := f), clocks, seen)
  {
    if main.Some? && |FunctionCalls(main.value.parts)| > 0 && withTools {
      RunToolsIgnoresChat(st, FunctionCalls(main.value.parts), o, f, clocks, seen);
    }
  }

  /** `generateResponse` reads the main generation call only at the contents it
      builds from its history, input, attachments, profile and persona. */
  lemma RespondIgnoresChatElsewhere(st: State, history: seq<Message>, input: string, persona: Persona,
                                    profile: UserProfile, offline: bool, withTools: bool, atts: seq<Attachment>,
                                    o: Oracle, f: seq<Turn> -> Option<Candidate>, clocks: ToolClocks, seen: string)
    requires var contents := BuildContext(history, UserParts(input, atts), profile, persona);
      f(contents) == o.chat(contents)
    ensures Respond(st, history, input, persona, profile, offline, withTools, atts, o, clocks, seen)
         == Respond(st, history, input, persona, profile, offline, withTools, atts, o.(chat := f), clocks, seen)
  {
    var contents := BuildContext(history, UserParts(input, atts), profile, persona);
    AnswerIgnoresChat(st, contents, o.chat(contents), withTools, o, f, clocks, seen);
  }

  /** The end of a send does not read the main generation call. */
  lemma ConcludeIgnoresChat(offline: bool, history: seq<Message>, bio: string, userMsg: Message,
                            answered: State, reply: Reply, o: Oracle, f: seq<Turn> -> Option<Candidate>,
                            repliedAt: int, rollsBio: bool, decodes: bool)
    ensures Conclude(offline, history, bio, userMsg, answered, reply, o, repliedAt, rollsBio, decodes)
         == Conclude(offline, history, bio, userMsg, answered, reply, o.(chat := f), repliedAt, rollsBio, decodes)
  {
  }

  /** A send generates its reply from the chat as it was before the send: the
      outcome depends on the main generation call only at `SendContext`, whose
      history turns are the last min(8, |st.messages|) earlier messages (the new
      message is not among them) and whose one final turn is the user's text and
      attachments. */
  lemma SendAsksAboutEarlierChat(st: State, text: string, mood: Option<string>, audio: Option<string>,
                                 attachment: Option<Attachment>, o: Oracle, f: seq<Turn> -> Option<Candidate>,
                                 clock: Clock, toolClocks: ToolClocks, repliedAt: int, rollsBio: bool, decodes: bool)
    requires f(SendContext(st, text, attachment)) == o.chat(SendContext(st, text, attachment))
    ensures Send(st, text, mood, audio, attachment, o, clock, toolClocks, repliedAt, rollsBio, decodes)
         == Send(st, text, mood, audio, attachment, o.(chat := f), clock, toolClocks, repliedAt, rollsBio, decodes)
    ensures var c, n := SendContext(st, text, attachment), if |st.messages| < 8 then |st.messages| else 8;
      |c| == n + 2
      && (forall j :: 1 <= j <= n ==>
            c[j] == Turn(st.messages[|st.messages| - n + j - 1].role, [Text(st.messages[|st.messages| - n + j - 1].text)]))
      && c[n + 1] == Turn(User, UserParts(text, AsList(attachment)))
  {
    ContextWindow(st.messages, UserParts(text, AsList(attachment)), st.profile, st.persona);
    if !Ignored(text, audio, attachment) {
      var o2 := o.(chat := f);
      var userMsg := UserMessage(text, mood, audio, attachment, clock);
      var sending := Sending(st, userMsg, clock);
      var seen := st.profile.jeffStoryline;
      RespondIgnoresChatElsewhere(sending, st.messages, text, st.persona, st.profile, st.isOffline, true,
                                  AsList(attachment), o, f, toolClocks, seen);
      var answered := Respond(sending, st.messages, text, st.persona, st.profile, st.isOffline, true,
                              AsList(attachment), o, toolClocks, seen);
      ConcludeIgnoresChat(st.isOffline, st.messages, st.profile.bio, userMsg, answered.0, answered.1, o, f,
                          repliedAt, rollsBio, decodes);
      SendStages(st, text, mood, audio, attachment, o, clock, toolClocks, repliedAt, rollsBio, decodes,
                 answered.0, answered.1);
      SendStages(st, text, mood, audio, attachment, o2, clock, toolClocks, repliedAt, rollsBio, decodes,
                 answered.0, answered.1);
    }
  }

  /** The end of a send, on a chat that still holds the earlier bodies and the
      user's message after them, completes the exchange. */
  lemma ConcludeExchange(st: State, userMsg: Message, answered: State, reply: Reply, o: Oracle,
                         repliedAt: int, rollsBio: bool, decodes: bool)
    requires Coherent(answered) && KeepsBodies(st.messages + [userMsg], answered.messages)
    requires answered.persona == st.persona && answered.isOffline == st.isOffline && reply.text != ""
    ensures Exchanged(st, userMsg, Conclude(st.isOffline, st.messages, st.profile.bio, userMsg, answered, reply, o,
                                            repliedAt, rollsBio, decodes),
                      answered.lastInteraction, repliedAt)
  {
    ConcludeFrame(st.isOffline, st.messages, st.profile.bio, userMsg, answered, reply, o, repliedAt, rollsBio, decodes);
    var r := Conclude(st.isOffline, st.messages, st.profile.bio, userMsg, answered, reply, o, repliedAt, rollsBio, decodes);
    var sent := st.messages + [userMsg];
    assert KeepsBodies(answered.messages, r.messages);
    KeepsBodiesTrans(sent, answered.messages, r.messages);
    assert KeepsBodies(st.messages, sent);
    KeepsBodiesTrans(st.messages, sent, r.messages);
    assert Body(r.messages[|st.messages|]) == Body(sent[|st.messages|]);
  }

  /** A send that is not ignored completes the exchange: the user's message
      is appended, the model's reply ends the chat, and the inactivity clock
      restarts at the send time. */
  lemma SendAppendsExchange(st: State, text: string, mood: Option<string>, audio: Option<string>,
                            attachment: Option<Attachment>, o: Oracle, clock: Clock, toolClocks: ToolClocks, repliedAt: int,
                            rollsBio: bool, decodes: bool)
    requires Coherent(st) && !Ignored(text, audio, attachment)
    ensures Exchanged(st, UserMessage(text, mood, audio, attachment, clock),
                      Send(st, text, mood, audio, attachment, o, clock, toolClocks, repliedAt, rollsBio, decodes),
                      clock.now, repliedAt)
  {
    var userMsg := UserMessage(text, mood, audio, attachment, clock);
    var sending := Sending(st, userMsg, clock);
    AppendFresh(st.messages, userMsg);
    var seen := st.profile.jeffStoryline;
    var atts := AsList(attachment);
    RespondFrame(sending, st.messages, text, st.persona, st.profile, st.isOffline, true, atts, o, toolClocks, seen);
    RespondReplyText(sending, st.messages, text, st.persona, st.profile, st.isOffline, true, atts, o, toolClocks, seen);
    var answered := Respond(sending, st.messages, text, st.persona, st.profile, st.isOffline, true, atts, o, toolClocks, seen);
    SendStages(st, text, mood, audio, attachment, o, clock, toolClocks, repliedAt, rollsBio, decodes, answered.0, answered.1);
    ConcludeExchange(st, userMsg, answered.0, answered.1, o, repliedAt, rollsBio, decodes);
  }

  /** Every send keeps the chat coherent. */
  lemma SendKeepsCoherent(st: State, text: string, mood: Option<string>, audio: Option<string>,
                          attachment: Option<Attachment>, o: Oracle, clock: Clock, toolClocks: ToolClocks, repliedAt: int,
                          rollsBio: bool, decodes: bool)
    requires Coherent(st)
    ensures Coherent(Send(st, text, mood, audio, attachment, o, clock, toolClocks, repliedAt, rollsBio, decodes))
  {
    if !Ignored(text, audio, attachment) {
      SendAppendsExchange(st, text, mood, audio, attachment, o, clock, toolClocks, repliedAt, rollsBio, decodes);
    }
  }

  /** The stored bio changes only online and only when the roll comes up
      (`Math.random() > 0.7`); then it is the summary of the chat including
      the new exchange. */
  lemma SendUpdatesBio(st: State, text: string, mood: Option<string>, audio: Option<string>,
                       attachment: Option<Attachment>, o: Oracle, clock: Clock, toolClocks: ToolClocks, repliedAt: int,
                       rollsBio: bool, decodes: bool)
    requires Coherent(st) && !Ignored(text, audio, attachment)
    ensures var r := Send(st, text, mood, audio, attachment, o, clock, toolClocks, repliedAt, rollsBio, decodes);
      var userMsg := UserMessage(text, mood, audio, attachment, clock);
      var reply := Respond(Sending(st, userMsg, clock), st.messages, text, st.persona, st.profile, st.isOffline, true,
                           AsList(attachment), o, toolClocks, st.profile.jeffStoryline).1;
      ((st.isOffline || !rollsBio) ==> r.profile.bio == st.profile.bio)
      && (!st.isOffline && rollsBio ==>
            r.profile.bio == UpdatedBio(o, st.messages + [userMsg, ReplyMessage(reply, repliedAt)], st.profile.bio))
  {
    var userMsg := UserMessage(text, mood, audio, attachment, clock);
    var sending := Sending(st, userMsg, clock);
    AppendFresh(st.messages, userMsg);
    var atts := AsList(attachment);
    RespondFrame(sending, st.messages, text, st.persona, st.profile, st.isOffline, true, atts, o, toolClocks, st.profile.jeffStoryline);
    var answered := Respond(sending, st.messages, text, st.persona, st.profile, st.isOffline, true, atts, o, toolClocks, st.profile.jeffStoryline);
    SendStages(st, text, mood, audio, attachment, o, clock, toolClocks, repliedAt, rollsBio, decodes, answered.0, answered.1);
    ConcludeFrame(st.isOffline, st.messages, st.profile.bio, userMsg, answered.0, answered.1, o, repliedAt, rollsBio, decodes);
  }

  /** Offline, a send appends the user's message and the fixed offline reply,
      with no audio, and touches nothing else. */
  lemma SendOffline(st: State, text: string, mood: Option<string>, audio: Option<string>,
                    attachment: Option<Attachment>, o: Oracle, clock: Clock, toolClocks: ToolClocks, repliedAt: int,
                    rollsBio: bool, decodes: bool)
    requires st.isOffline && !Ignored(text, audio, attachment)
    ensures Send(st, text, mood, audio, attachment, o, clock, toolClocks, repliedAt, rollsBio, decodes)
         == st.(lastInteraction := clock.now, isTyping := false,
                messages := st.messages + [UserMessage(text, mood, audio, attachment, clock),
                                           ReplyMessage(Reply(OfflineReply, None), repliedAt)])
  {
  }
}
