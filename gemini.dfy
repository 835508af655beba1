/** The generation side of the chat (services/geminiService.ts): the tool
    schema's argument shapes, the turns sent to the model, and the pure
    post-processing of its answers. The Gemini SDK itself is an `Oracle`:
    a bundle of total functions from request to answer, `None` standing for
    a call that threw. */
module Gemini {
  import opened Types
  import opened Seqs
  import opened Strings

  // ---------------------------------------------------------------- tool schema

  /** Arguments of a function call, one shape per declared tool (`toolsDef`):
      fields the schema lists as required are plain values, the others optional. */
  datatype ToolArgs =
    | TimerArgs(minutes: int, timerLabel: Option<string>)
    | PlannerArgs(title: string, date: Option<string>, plannerType: PlannerType, notes: Option<string>)
    | ExpenseArgs(item: string, amount: int, category: Option<ExpenseCategory>)
    | WishlistArgs(title: string, wishType: WishlistType, action: string, details: Option<string>)
    | NovelArgs(title: string, author: Option<string>, chapter: Option<int>,
                totalChapters: Option<int>, gossip: Option<string>)
    | ReactArgs(emoji: string, messageId: Option<string>)
    | DoodleArgs(prompt: string)
    | StoryArgs(doodlePrompt: string, caption: string)
    | GameArgs(game: string)

  /** Arguments of the shape the schema declares for a known tool name; an
      unknown name may come with anything. */
  predicate FitsSchema(name: string, args: ToolArgs) {
    (name == "set_timer" ==> args.TimerArgs?)
    && (name == "add_planner_item" ==> args.PlannerArgs?)
    && (name == "add_expense" ==> args.ExpenseArgs?)
    && (name == "manage_wishlist" ==> args.WishlistArgs?)
    && (name == "update_novel_progress" ==> args.NovelArgs?)
    && (name == "react_to_message" ==> args.ReactArgs?)
    && (name == "generate_doodle" ==> args.DoodleArgs?)
    && (name == "post_story" ==> args.StoryArgs?)
    && (name == "start_game" ==> args.GameArgs?)
  }

  /** A function call as the SDK reports it; a missing name is "". */
  datatype FunctionCall = FunctionCall(name: string, args: Option<ToolArgs>)

  /** A function call from a model that answers within the schema it was sent. */
  type SchemaCall = c: FunctionCall | c.args.None? || FitsSchema(c.name, c.args.value)
    witness FunctionCall("", None)

  /** One part of a turn. `Preamble` is the context's first user part
      (memory, life story and mode); its fixed wording is not modelled. */
  datatype Part =
    | Text(text: string)
    | Inline(mimeType: string, data: string)
    | Call(call: SchemaCall)
    | ToolResult(name: string, result: string)
    | Preamble(bio: string, storyline: string, mode: string)

  datatype Turn = Turn(role: Role, parts: seq<Part>)

  datatype Web = Web(uri: Option<string>, title: Option<string>)

  /** A grounding chunk of a search-grounded answer. */
  datatype Chunk = Chunk(web: Option<Web>)

  /** The first candidate of an answer: its parts and grounding chunks
      (absent lists are empty). */
  datatype Candidate = Candidate(parts: seq<Part>, grounding: seq<Chunk>)

  /** What `generateResponse` resolves to. */
  datatype Reply = Reply(text: string, audioData: Option<string>)

  /** The Gemini SDK calls, as total functions of what is sent. */
  datatype Oracle = Oracle(
    chat: seq<Turn> -> Option<Candidate>,          // main call of generateResponse, tools on
    followUp: seq<Turn> -> Option<Candidate>,      // its follow-up call
    speech: string -> Option<seq<Part>>,           // text-to-speech
    image: string -> Option<seq<Part>>,            // doodle image model
    proactive: (string, string) -> Option<seq<Part>>, // check-in call: bio, life story shown
    bio: (seq<string>, string) -> Option<string>,  // bio summary: recent texts, current bio
    storyline: (string, string) -> Option<string>) // life-story summary: caption, current story

  const OfflineReply := "no signal rn. saved that tho."
  const BrainFreeze := "brain freeze. try again?"
  const DoneText := "Done!"
  const Ellipsis := "..."
  const ProactiveFallback := "u there?"
  const ContextStorylineDefault := "Just started journalling."
  const ProactiveStorylineDefault := "Just moved into a new sketch apartment."

  // ---------------------------------------------------------------- the user turn

  /** The inline parts for the attachments that carry base64 data, in order. */
  function InlineParts(atts: seq<Attachment>): seq<Part>
    decreases |atts|
  {
    if atts == [] then []
    else
      var a := atts[|atts| - 1];
      InlineParts(atts[..|atts| - 1])
        + (if Truthy(a.base64) then [Inline(a.mimeType, a.base64.value)] else [])
  }

  /** The new user turn's parts: the input text, then the usable attachments. */
  function UserParts(input: string, atts: seq<Attachment>): seq<Part> {
    [Text(input)] + InlineParts(atts)
  }

  /** The `userParts` loop: push one inline part per attachment that has base64. */
  method BuildUserParts(input: string, atts: seq<Attachment>) returns (parts: seq<Part>)
    ensures parts == UserParts(input, atts)
  {
    parts := [Text(input)];
    var i := 0;
    while i < |atts|
      invariant 0 <= i <= |atts|
      invariant parts == [Text(input)] + InlineParts(atts[..i])
    {
      var a := atts[i];
      assert atts[..i + 1][..i] == atts[..i];
      if Truthy(a.base64) {
        parts := parts + [Inline(a.mimeType, a.base64.value)];
      }
      i := i + 1;
    }
    assert atts[..i] == atts;
  }

  predicate HasBase64(a: Attachment) {
    Truthy(a.base64)
  }

  /** The user turn holds the input text first and then exactly one inline part
      per attachment with base64 data, carrying that data, in attachment order. */
  lemma {:induction false} UserPartsShape(input: string, atts: seq<Attachment>)
    ensures var ps := UserParts(input, atts);
      ps[0] == Text(input) && |ps| == 1 + Count(atts, HasBase64)
      && (forall i :: 1 <= i < |ps| ==> ps[i].Inline?)
      && (forall a :: a in atts && HasBase64(a) ==> Inline(a.mimeType, a.base64.value) in ps)
    decreases |atts|
  {
    if atts != [] {
      var init, a := atts[..|atts| - 1], atts[|atts| - 1];
      UserPartsShape(input, init);
      assert atts == init + [a];
      CountAppend(init, [a], HasBase64);
      var extra := if Truthy(a.base64) then [Inline(a.mimeType, a.base64.value)] else [];
      assert UserParts(input, atts) == UserParts(input, init) + extra;
      assert Count([a], HasBase64) == if HasBase64(a) then 1 else 0 by {
        assert [a][1..] == [];
      }
      forall b | b in atts && HasBase64(b)
        ensures Inline(b.mimeType, b.base64.value) in UserParts(input, atts)
      {
        if b != a {
          assert b in init;
        }
      }
    }
  }

  // ---------------------------------------------------------------- the context window

  function ModeName(p: Persona): string {
    if p == Tutor then "TUTOR" else "FRIEND"
  }

  /** One earlier message as a text-only turn. */
  function TextTurn(m: Message): Turn {
    Turn(m.role, [Text(m.text)])
  }

  function PreambleTurn(profile: UserProfile, persona: Persona): Turn {
    var story := if profile.jeffStoryline == "" then ContextStorylineDefault else profile.jeffStoryline;
    Turn(User, [Preamble(profile.bio, story, ModeName(persona))])
  }

  /** `chatContents`: the preamble, the last eight messages as text-only turns,
      then the new user turn. */
  function BuildContext(history: seq<Message>, userParts: seq<Part>,
                        profile: UserProfile, persona: Persona): (r: seq<Turn>)
  {
    var recent := LastN(history, 8);
    [PreambleTurn(profile, persona)]
      + seq(|recent|, i requires 0 <= i < |recent| => TextTurn(recent[i]))
      + [Turn(User, userParts)]
  }

  /** The context holds one preamble turn (bio, life story defaulting to
      "Just started journalling.", mode), then the last min(8, |history|)
      messages in order with their roles and texts only, then the user turn. */
  lemma ContextWindow(history: seq<Message>, userParts: seq<Part>, profile: UserProfile, persona: Persona)
    ensures var r, n := BuildContext(history, userParts, profile, persona),
                        if |history| < 8 then |history| else 8;
      |r| == n + 2
      && r[0] == Turn(User, [Preamble(profile.bio,
                   if profile.jeffStoryline == "" then "Just started journalling." else profile.jeffStoryline,
                   if persona == Tutor then "TUTOR" else "FRIEND")])
      && (forall j :: 1 <= j <= n ==>
            r[j] == Turn(history[|history| - n + j - 1].role, [Text(history[|history| - n + j - 1].text)]))
      && r[n + 1] == Turn(User, userParts)
  {
  }

  // ---------------------------------------------------------------- reading answers

  /** `parts.filter(p => p.functionCall).map(p => p.functionCall)`. */
  function FunctionCalls(parts: seq<Part>): (r: seq<SchemaCall>)
    decreases |parts|
  {
    if parts == [] then []
    else (if parts[0].Call? then [parts[0].call] else []) + FunctionCalls(parts[1..])
  }

  /** The tool loop runs only calls with a truthy name and arguments. */
  predicate Executable(c: SchemaCall) {
    c.name != "" && c.args.Some?
  }

  /** `parts.map(p => p.text).join('')`: parts without text contribute nothing. */
  function JoinText(parts: seq<Part>): string
    decreases |parts|
  {
    if parts == [] then "" else (if parts[0].Text? then parts[0].text else "") + JoinText(parts[1..])
  }

  /** `parts.find(p => p.text)?.text || ""`. */
  function FirstText(parts: seq<Part>): string
    decreases |parts|
  {
    if parts == [] then ""
    else if parts[0].Text? && parts[0].text != "" then parts[0].text
    else FirstText(parts[1..])
  }

  /** `parts.find(p => p.functionCall)?.functionCall`. */
  function FirstCall(parts: seq<Part>): Option<SchemaCall>
    decreases |parts|
  {
    if parts == [] then None
    else if parts[0].Call? then Some(parts[0].call)
    else FirstCall(parts[1..])
  }

  /** The data of the first inline part, if any. */
  function FirstInline(parts: seq<Part>): Option<string>
    decreases |parts|
  {
    if parts == [] then None
    else if parts[0].Inline? then Some(parts[0].data)
    else FirstInline(parts[1..])
  }

  /** What `generateImage` resolves to for an answer: undefined on failure. */
  function ImageData(answer: Option<seq<Part>>): Option<string> {
    if answer.None? then None else FirstInline(answer.value)
  }

  /** `generateImage`: the loop over the answer's parts returns the first inline data. */
  method GenerateImage(o: Oracle, prompt: string) returns (img: Option<string>)
    ensures img == ImageData(o.image(prompt))
  {
    var answer := o.image(prompt);
    if answer.None? {
      return None;
    }
    var parts := answer.value;
    var i := 0;
    while i < |parts|
      invariant 0 <= i <= |parts|
      invariant FirstInline(parts[i..]) == FirstInline(parts)
    {
      if parts[i].Inline? {
        return Some(parts[i].data);
      }
      assert parts[i..][1..] == parts[i + 1..];
      i := i + 1;
    }
    return None;
  }

  /** `generateImage` yields data exactly when the call succeeded with an inline
      part, and then the data of the first one. */
  lemma {:induction false} ImageDataFirstInline(parts: seq<Part>)
    ensures ImageData(None) == None
    ensures ImageData(Some(parts)).Some? <==> exists i :: 0 <= i < |parts| && parts[i].Inline?
    ensures ImageData(Some(parts)).Some? ==>
      exists i :: 0 <= i < |parts| && parts[i].Inline? && ImageData(Some(parts)).value == parts[i].data
                  && forall j :: 0 <= j < i ==> !parts[j].Inline?
    decreases |parts|
  {
    if parts != [] && !parts[0].Inline? {
      ImageDataFirstInline(parts[1..]);
      if ImageData(Some(parts)).Some? {
        var i :| 0 <= i < |parts[1..]| && parts[1..][i].Inline?
                 && ImageData(Some(parts[1..])).value == parts[1..][i].data
                 && forall j :: 0 <= j < i ==> !parts[1..][j].Inline?;
        assert parts[i + 1] == parts[1..][i];
        assert forall j :: 0 <= j < i + 1 ==> !parts[j].Inline? by {
          forall j | 0 < j < i + 1 ensures !parts[j].Inline? {
            assert parts[j] == parts[1..][j - 1];
          }
        }
      } else {
        forall i | 0 <= i < |parts| ensures !parts[i].Inline? {
          if i > 0 {
            assert parts[i] == parts[1..][i - 1];
          }
        }
      }
    }
  }

  /** The speech answer's audio: the first inline part whose MIME type starts with "audio". */
  function AudioData(parts: seq<Part>): Option<string>
    decreases |parts|
  {
    if parts == [] then None
    else if parts[0].Inline? && StartsWith(parts[0].mimeType, "audio") then Some(parts[0].data)
    else AudioData(parts[1..])
  }

  /** The reply's audio; a failed speech call leaves it absent. */
  function SpeechAudio(o: Oracle, speechText: string): Option<string> {
    match o.speech(speechText)
    case None => None
    case Some(parts) => AudioData(parts)
  }

  // ---------------------------------------------------------------- speech text

  /** The characters `/[*_~`]/g` removes. */
  predicate IsMark(c: char) {
    c == '*' || c == '_' || c == '~' || c == '`'
  }

  function NotMark(): char -> bool {
    (c: char) => !IsMark(c)
  }

  /** The least `p >= j` with `s[p] == ')'` reached without crossing a line terminator. */
  function CloseParen(s: string, j: nat): (r: Option<nat>)
    ensures r.Some? ==> j <= r.value < |s| && s[r.value] == ')'
    decreases |s| - j
  {
    if j >= |s| || IsLineTerminator(s[j]) then None
    else if s[j] == ')' then Some(j)
    else CloseParen(s, j + 1)
  }

  /** Lazy search for `\](.*?\)` with the first `.*?` ending at `k` or later;
      answers the end of the match. */
  function LinkFrom(s: string, k: nat): (r: Option<nat>)
    ensures r.Some? ==> k + 3 <= r.value <= |s|
    decreases |s| - k
  {
    if k + 1 >= |s| then None
    else if s[k] == ']' && s[k + 1] == '(' && CloseParen(s, k + 2).Some? then
      Some(CloseParen(s, k + 2).value + 1)
    else if IsLineTerminator(s[k]) then None
    else LinkFrom(s, k + 1)
  }

  /** The length of a match of `/\[.*?\]\(.*?\)/` at the start of `s`, if any. */
  function LinkAt(s: string): (r: Option<nat>)
    ensures r.Some? ==> 4 <= r.value <= |s|
  {
    if s != [] && s[0] == '[' then LinkFrom(s, 1) else None
  }

  /** `s.replace(/\[.*?\]\(.*?\)/g, '')`: scan left to right, dropping each match. */
  function StripLinks(s: string): (r: string)
    decreases |s|
  {
    if s == [] then []
    else match LinkAt(s)
      case Some(n) => StripLinks(s[n..])
      case None => [s[0]] + StripLinks(s[1..])
  }

  /** `textForSpeech`: markdown marks removed, links removed, then trimmed. */
  function SpeechText(reply: string): string {
    Trim(StripLinks(Filter(reply, NotMark())))
  }

  /** `p` lists, in increasing order, positions of `s` that spell out `t`. */
  predicate Embeds(p: seq<int>, t: string, s: string) {
    |p| == |t|
    && (forall i :: 0 <= i < |p| ==> 0 <= p[i] < |s| && s[p[i]] == t[i])
    && (forall i, j :: 0 <= i < j < |p| ==> p[i] < p[j])
  }

  /** `t` is `s` with some characters deleted. */
  ghost predicate SubsequenceOf(t: string, s: string) {
    exists p :: Embeds(p, t, s)
  }

  function Shift(p: seq<int>, k: int): (r: seq<int>)
    ensures |r| == |p| && forall i :: 0 <= i < |p| ==> r[i] == p[i] + k
  {
    seq(|p|, i requires 0 <= i < |p| => p[i] + k)
  }

  /** The positions of `s` that `StripLinks` keeps, in order. */
  lemma {:induction false} KeptPositions(s: string) returns (p: seq<int>)
    ensures Embeds(p, StripLinks(s), s)
    decreases |s|
  {
    var t := StripLinks(s);
    if s == [] {
      p := [];
    } else {
      match LinkAt(s)
      case Some(n) =>
        var q := KeptPositions(s[n..]);
        p := Shift(q, n);
        forall i | 0 <= i < |p| ensures 0 <= p[i] < |s| && s[p[i]] == t[i] {
          assert s[n..][q[i]] == s[q[i] + n];
        }
      case None =>
        var q := KeptPositions(s[1..]);
        p := [0] + Shift(q, 1);
        forall i | 0 <= i < |p| ensures 0 <= p[i] < |s| && s[p[i]] == t[i] {
          if i > 0 {
            assert p[i] == q[i - 1] + 1;
            assert s[1..][q[i - 1]] == s[q[i - 1] + 1];
            assert t[i] == StripLinks(s[1..])[i - 1];
          }
        }
    }
  }

  /** Removing links only deletes characters: the result is a subsequence of
      the input, so every character it keeps comes from the input, in order. */
  lemma StripLinksDeletesOnly(s: string)
    ensures SubsequenceOf(StripLinks(s), s)
    ensures forall i :: 0 <= i < |StripLinks(s)| ==> StripLinks(s)[i] in s
  {
    var t := StripLinks(s);
    var p := KeptPositions(s);
    forall i | 0 <= i < |t| ensures t[i] in s {
      assert s[p[i]] == t[i];
    }
  }

  /** The first ')' from `j` on, when nothing before it ends the line. */
  lemma {:induction false} CloseParenAt(s: string, j: nat, m: nat)
    requires j <= m < |s| && s[m] == ')'
    requires forall k :: j <= k < m ==> s[k] != ')' && !IsLineTerminator(s[k])
    ensures CloseParen(s, j) == Some(m)
    decreases m - j
  {
    if j < m {
      CloseParenAt(s, j + 1, m);
    }
  }

  /** The lazy search stops at the first "](" that is followed by a ')'. */
  lemma {:induction false} LinkFromAt(s: string, k: nat, m: nat)
    requires k <= m && m + 1 < |s| && s[m] == ']' && s[m + 1] == '(' && CloseParen(s, m + 2).Some?
    requires forall x :: k <= x < m ==> s[x] != ']' && !IsLineTerminator(s[x])
    ensures LinkFrom(s, k) == Some(CloseParen(s, m + 2).value + 1)
    decreases m - k
  {
    if k < m {
      LinkFromAt(s, k + 1, m);
    }
  }

  /** A link `[t](u)` (with no ']' in `t`, no ')' in `u`, on one line) is
      removed whole, and the rest of the text is processed as it stands. */
  lemma StripLinksRemovesLink(t: string, u: string, rest: string)
    requires forall i :: 0 <= i < |t| ==> t[i] != ']' && !IsLineTerminator(t[i])
    requires forall i :: 0 <= i < |u| ==> u[i] != ')' && !IsLineTerminator(u[i])
    ensures StripLinks("[" + t + "](" + u + ")" + rest) == StripLinks(rest)
  {
    var link := "[" + t + "](" + u + ")";
    var s := link + rest;
    var m := |t| + 1;
    assert s[0] == '[' && s[m] == ']' && s[m + 1] == '(' && s[m + 2 + |u|] == ')';
    forall x | 1 <= x < m ensures s[x] != ']' && !IsLineTerminator(s[x]) {
      assert s[x] == t[x - 1];
    }
    forall x | m + 2 <= x < m + 2 + |u| ensures s[x] != ')' && !IsLineTerminator(s[x]) {
      assert s[x] == u[x - m - 2];
    }
    CloseParenAt(s, m + 2, m + 2 + |u|);
    LinkFromAt(s, 1, m);
    assert LinkAt(s) == Some(|link|);
    assert s[|link|..] == rest;
  }

  /** Without a '[' there is no link to remove. */
  lemma {:induction false} StripLinksNoBracket(s: string)
    requires forall i :: 0 <= i < |s| ==> s[i] != '['
    ensures StripLinks(s) == s
    decreases |s|
  {
    if s != [] {
      StripLinksNoBracket(s[1..]);
    }
  }

  /** The speech text contains no `*`, `_`, `~` or backtick and has no white
      space at either end. */
  lemma SpeechTextClean(reply: string)
    ensures var t := SpeechText(reply);
      (forall i :: 0 <= i < |t| ==> !IsMark(t[i]))
      && (t == [] || (!IsJsSpace(t[0]) && !IsJsSpace(t[|t| - 1])))
  {
    var unmarked := Filter(reply, NotMark());
    forall i | 0 <= i < |unmarked| ensures !IsMark(unmarked[i]) {
      assert NotMark()(unmarked[i]);
    }
    var stripped := StripLinks(unmarked);
    StripLinksKeepsNoMarks(unmarked);
    TrimProperties(stripped);
    var t := SpeechText(reply);
    var k := |stripped| - |TrimStart(stripped)|;
    forall i | 0 <= i < |t| ensures !IsMark(t[i]) {
      assert t[i] == stripped[k + i];
    }
  }

  /** Removing links from text without marks leaves text without marks. */
  lemma StripLinksKeepsNoMarks(s: string)
    requires forall i :: 0 <= i < |s| ==> !IsMark(s[i])
    ensures forall i :: 0 <= i < |StripLinks(s)| ==> !IsMark(StripLinks(s)[i])
  {
    StripLinksDeletesOnly(s);
    forall i | 0 <= i < |StripLinks(s)| ensures !IsMark(StripLinks(s)[i]) {
      var j :| 0 <= j < |s| && s[j] == StripLinks(s)[i];
    }
  }

  /** Plain text (no marks, no '[', no surrounding white space) is spoken as written. */
  lemma SpeechTextOfPlainText(reply: string)
    requires forall i :: 0 <= i < |reply| ==> !IsMark(reply[i]) && reply[i] != '['
    requires reply == [] || (!IsJsSpace(reply[0]) && !IsJsSpace(reply[|reply| - 1]))
    ensures SpeechText(reply) == reply
  {
    FilterKeepsAll(reply, NotMark());
    StripLinksNoBracket(reply);
    TrimOfTrimmed(reply);
  }

  // ---------------------------------------------------------------- sources

  predicate HasWebUri(c: Chunk) {
    c.web.Some? && Truthy(c.web.value.uri)
  }

  /** A template literal renders a missing value as "undefined". */
  function Shown(s: Option<string>): string {
    if s.Some? then s.value else "undefined"
  }

  /** `[title](uri)` for each chunk with a web uri, in order. */
  function SourceEntries(chunks: seq<Chunk>): (r: seq<string>)
    ensures forall i :: 0 <= i < |r| ==> r[i] != ""
    decreases |chunks|
  {
    if chunks == [] then []
    else
      (if HasWebUri(chunks[0])
       then ["[" + Shown(chunks[0].web.value.title) + "](" + chunks[0].web.value.uri.value + ")"]
       else [])
      + SourceEntries(chunks[1..])
  }

  /** The text appended to the reply for the main answer's grounding chunks. */
  function SourcesSuffix(chunks: seq<Chunk>): string {
    var joined := JoinWith(SourceEntries(chunks), ", ");
    if joined == "" then "" else "\n\n(Sources: " + joined + ")"
  }

  lemma {:induction false} SourceEntriesEmptyIff(chunks: seq<Chunk>)
    ensures SourceEntries(chunks) == [] <==> forall i :: 0 <= i < |chunks| ==> !HasWebUri(chunks[i])
    decreases |chunks|
  {
    if chunks != [] {
      SourceEntriesEmptyIff(chunks[1..]);
      assert forall i :: 1 <= i < |chunks| ==> chunks[i] == chunks[1..][i - 1];
    }
  }

  /** A sources suffix is appended exactly when some chunk has a web uri, and then
      it is "(Sources: ...)" over the `[title](uri)` entries joined by ", ". */
  lemma SourcesOnlyWithWebUri(chunks: seq<Chunk>)
    ensures SourcesSuffix(chunks) != "" <==> exists i :: 0 <= i < |chunks| && HasWebUri(chunks[i])
    ensures SourcesSuffix(chunks) != "" ==>
      SourcesSuffix(chunks) == "\n\n(Sources: " + JoinWith(SourceEntries(chunks), ", ") + ")"
  {
    SourceEntriesEmptyIff(chunks);
    JoinEmptyIffNoPieces(SourceEntries(chunks), ", ");
  }

  // ---------------------------------------------------------------- summaries and check-ins

  /** `generateProactiveMessage`: the first non-empty text and the first function call
      of the answer; "u there?" and no call when the call fails. */
  function ProactiveMessage(o: Oracle, profile: UserProfile): (string, Option<SchemaCall>) {
    var story := if profile.jeffStoryline == "" then ProactiveStorylineDefault else profile.jeffStoryline;
    match o.proactive(profile.bio, story)
    case None => (ProactiveFallback, None)
    case Some(parts) => (FirstText(parts), FirstCall(parts))
  }

  /** `updateBestieBio`: the summary of the last ten texts, or the current bio when
      the call fails or answers nothing. */
  function UpdatedBio(o: Oracle, history: seq<Message>, current: string): string {
    var recent := LastN(history, 10);
    var answer := o.bio(seq(|recent|, i requires 0 <= i < |recent| => recent[i].text), current);
    if Truthy(answer) then answer.value else current
  }

  /** `updateJeffStoryline`: the new life story, or the current one when the call
      fails or answers nothing. */
  function UpdatedStoryline(o: Oracle, caption: string, current: string): string {
    var answer := o.storyline(caption, current);
    if Truthy(answer) then answer.value else current
  }

  /** The summary and check-in calls never fail outward: a failing or empty
      summary keeps the current value, a failing check-in says "u there?" with no call. */
  lemma SummaryFallbacks(o: Oracle, history: seq<Message>, profile: UserProfile, caption: string)
    ensures var recent := LastN(history, 10);
      var answer := o.bio(seq(|recent|, i requires 0 <= i < |recent| => recent[i].text), profile.bio);
      (answer.None? || answer == Some("")) ==> UpdatedBio(o, history, profile.bio) == profile.bio
    ensures o.storyline(caption, profile.jeffStoryline) in {None, Some("")} ==>
      UpdatedStoryline(o, caption, profile.jeffStoryline) == profile.jeffStoryline
    ensures UpdatedStoryline(o, caption, profile.jeffStoryline) == profile.jeffStoryline
      || Some(UpdatedStoryline(o, caption, profile.jeffStoryline)) == o.storyline(caption, profile.jeffStoryline)
    ensures (o.proactive(profile.bio,
              if profile.jeffStoryline == "" then "Just moved into a new sketch apartment." else profile.jeffStoryline)
             .None?) ==> ProactiveMessage(o, profile) == ("u there?", None)
  {
  }
}
