/** The pure state updaters of the chat screen (src/App.tsx): the functions
    passed to `setMessages`, `setNovels`, `setStories`, `setTimer` and the
    delete filters, plus the focus timer's `formatTime`. */
module Updaters {
  import opened Types
  import opened Seqs
  import opened Strings

  // ---------------------------------------------------------------- reactions

  /** The predicate "this reaction was given by `role`". */
  function GivenBy(role: Role): Reaction -> bool {
    (x: Reaction) => x.from == role
  }

  /** The predicate "this reaction was not given by `role`". */
  function NotGivenBy(role: Role): Reaction -> bool {
    (x: Reaction) => x.from != role
  }

  /** A message's reactions after `from` reacts with `emoji`: that role's
      earlier reactions are dropped and the new one goes last. */
  function WithReaction(rs: seq<Reaction>, emoji: string, from: Role): (r: seq<Reaction>)
  {
    Filter(rs, NotGivenBy(from)) + [Reaction(emoji, from)]
  }

  /** Every message whose id is `target` gets `from`'s reaction; the others are untouched. */
  function ReactTo(ms: seq<Message>, target: string, emoji: string, from: Role): (r: seq<Message>)
  {
    seq(|ms|, i requires 0 <= i < |ms| =>
      if ms[i].id == target then ms[i].(reactions := WithReaction(ms[i].reactions, emoji, from))
      else ms[i])
  }

  /** The id of the last message the user wrote, if any. */
  function LastUserId(ms: seq<Message>): (r: Option<string>)
    ensures r.None? ==> forall i :: 0 <= i < |ms| ==> ms[i].role != User
    ensures r.Some? ==> exists i :: 0 <= i < |ms| && ms[i].role == User && ms[i].id == r.value
                          && forall j :: i < j < |ms| ==> ms[j].role != User
    decreases |ms|
  {
    if ms == [] then None
    else if ms[|ms| - 1].role == User then Some(ms[|ms| - 1].id)
    else LastUserId(ms[..|ms| - 1])
  }

  /** The message the model reacts to: the explicit `messageId` when truthy,
      otherwise the last user message; "" (falsy) when there is none. */
  function ModelTarget(ms: seq<Message>, messageId: Option<string>): string {
    if Truthy(messageId) then messageId.value
    else match LastUserId(ms)
      case Some(id) => id
      case None => ""
  }

  /** The react_to_message updater: no target leaves the messages as they were. */
  function ReactAsModel(ms: seq<Message>, messageId: Option<string>, emoji: string): seq<Message> {
    var target := ModelTarget(ms, messageId);
    if target == "" then ms else ReactTo(ms, target, emoji, Model)
  }

  /** Each role holds at most one reaction on every message. */
  predicate OneReactionPerRole(ms: seq<Message>) {
    forall i, role :: 0 <= i < |ms| ==> Count(ms[i].reactions, GivenBy(role)) <= 1
  }

  /** A message with its reactions cleared: the part the code never changes after insertion. */
  function Body(m: Message): Message {
    m.(reactions := [])
  }

  // ---------------------------------------------------------------- novels

  /** `findIndex(n => n.title === title)`. */
  function FindByTitle(ns: seq<NovelLog>, title: string): (r: Option<nat>)
    ensures r.Some? ==> r.value < |ns| && ns[r.value].title == title
                        && forall j :: 0 <= j < r.value ==> ns[j].title != title
    ensures r.None? ==> forall j :: 0 <= j < |ns| ==> ns[j].title != title
    decreases |ns|
  {
    if ns == [] then None
    else if ns[0].title == title then Some(0)
    else match FindByTitle(ns[1..], title)
      case Some(k) => Some(k + 1)
      case None => None
  }

  /** The update_novel_progress updater: update the first entry with this title
      (chapter, and notes when the gossip is truthy) or append a new entry. */
  function UpsertNovel(ns: seq<NovelLog>, id: string, title: string,
                       chapter: Option<int>, gossip: Option<string>): seq<NovelLog>
  {
    match FindByTitle(ns, title)
    case Some(k) =>
      ns[k := ns[k].(currentChapter := chapter,
                     notes := if Truthy(gossip) then gossip.value else ns[k].notes)]
    case None =>
      ns + [NovelLog(id, title, None, chapter, None, if Truthy(gossip) then gossip.value else "")]
  }

  // ---------------------------------------------------------------- deletes and stories

  /** The predicate "this element's id is not `id`". */
  function OtherId<T>(idOf: T -> string, id: string): T -> bool {
    (x: T) => idOf(x) != id
  }

  /** The `onDelete` filter: drop every element whose id is `id`. */
  function RemoveById<T>(xs: seq<T>, idOf: T -> string, id: string): (r: seq<T>)
    ensures forall i :: 0 <= i < |r| ==> idOf(r[i]) != id && r[i] in xs
    ensures forall i :: 0 <= i < |xs| && idOf(xs[i]) != id ==> xs[i] in r
  {
    Filter(xs, OtherId(idOf, id))
  }

  /** A delete works element by element and keeps order and repetitions: a
      concatenation is deleted from part by part, and a single element stays
      exactly when its id differs. */
  lemma RemoveByIdElementwise<T>(a: seq<T>, b: seq<T>, x: T, idOf: T -> string, id: string)
    ensures RemoveById(a + b, idOf, id) == RemoveById(a, idOf, id) + RemoveById(b, idOf, id)
    ensures RemoveById([x], idOf, id) == if idOf(x) != id then [x] else []
  {
    FilterAppend(a, b, OtherId(idOf, id));
    assert [x][1..] == [];
  }

  function PlannerId(p: PlannerItem): string { p.id }
  function ExpenseId(e: Expense): string { e.id }
  function NovelId(n: NovelLog): string { n.id }
  function WishlistId(w: WishlistItem): string { w.id }

  /** Closing the story viewer marks every story seen. */
  function MarkAllSeen(ss: seq<Story>): (r: seq<Story>)
  {
    seq(|ss|, i requires 0 <= i < |ss| => ss[i].(seen := true))
  }

  /** The header's "new story" dot: some story is unseen. */
  predicate HasNewStory(ss: seq<Story>) {
    exists i :: 0 <= i < |ss| && !ss[i].seen
  }

  // ---------------------------------------------------------------- focus timer

  /** One step of the StudyView effect: count down while active and above zero;
      an active timer at zero stops (and rings). */
  function Tick(t: TimerState): TimerState {
    if t.isActive && t.remaining > 0 then t.(remaining := t.remaining - 1)
    else if t.remaining == 0 && t.isActive then t.(isActive := false)
    else t
  }

  /** `k` consecutive ticks. */
  function Ticks(t: TimerState, k: nat): TimerState
    decreases k
  {
    if k == 0 then t else Ticks(Tick(t), k - 1)
  }

  /** The Start/Pause button. */
  function Toggle(t: TimerState): TimerState {
    t.(isActive := !t.isActive)
  }

  /** The Reset button. */
  function Reset(t: TimerState): TimerState {
    t.(isActive := false, remaining := t.duration)
  }

  /** JavaScript's `%`: the remainder takes the sign of the dividend. */
  function JsRem(a: int, n: int): (r: int)
    requires n > 0
  {
    if a >= 0 then a % n else -((-a) % n)
  }

  /** `formatTime`: minutes (`Math.floor(s / 60)`) and seconds (`s % 60`),
      each padded to two digits, joined by a colon. */
  function FormatTime(s: int): string {
    Pad2(IntToString(s / 60)) + ":" + Pad2(IntToString(JsRem(s, 60)))
  }

  /** A clock display: two or more minute digits, a colon, two second digits. */
  predicate ClockShaped(t: string) {
    |t| >= 5 && t[|t| - 3] == ':'
    && (forall i :: 0 <= i < |t| && i != |t| - 3 ==> IsDigit(t[i]))
  }

  /** Reads an "mm:ss" display (minutes may run to more digits) back as seconds,
      the reference reading of `FormatTime`. */
  function ParseClock(t: string): int
    requires ClockShaped(t)
  {
    ParseDigits(t[..|t| - 3]) * 60 + 10 * DigitValue(t[|t| - 2]) + DigitValue(t[|t| - 1])
  }

  // ---------------------------------------------------------------- properties

  /** After `from` reacts, it holds exactly one reaction (the new one, last),
      and the other role's reactions are all still there. */
  lemma WithReactionReplaces(rs: seq<Reaction>, emoji: string, from: Role, other: Role)
    requires other != from
    ensures var r := WithReaction(rs, emoji, from);
      Count(r, GivenBy(from)) == 1 && r[|r| - 1] == Reaction(emoji, from)
      && Count(r, GivenBy(other)) == Count(rs, GivenBy(other))
      && forall i :: 0 <= i < |rs| && rs[i].from == other ==> rs[i] in r
  {
    var kept := Filter(rs, NotGivenBy(from));
    var added := [Reaction(emoji, from)];
    CountAppend(kept, added, GivenBy(from));
    CountAppend(kept, added, GivenBy(other));
    CountFilteredOut(rs, GivenBy(from), NotGivenBy(from));
    CountFilterKept(rs, GivenBy(other), NotGivenBy(from));
    assert Count(added, GivenBy(from)) == 1 by {
      assert added[1..] == [];
    }
    assert Count(added, GivenBy(other)) == 0 by {
      assert added[1..] == [];
    }
  }

  /** Reacting keeps "each role holds at most one reaction per message", leaves
      the number of messages and every other message as they were, and changes
      nothing but the reactions of the target messages, which end up holding
      exactly one reaction from the reacting role. */
  lemma ReactToKeepsOneReactionPerRole(ms: seq<Message>, target: string, emoji: string, from: Role)
    requires OneReactionPerRole(ms)
    ensures var r := ReactTo(ms, target, emoji, from);
      OneReactionPerRole(r) && |r| == |ms|
      && (forall i :: 0 <= i < |ms| ==> Body(r[i]) == Body(ms[i]))
      && (forall i :: 0 <= i < |ms| && ms[i].id != target ==> r[i] == ms[i])
      && (forall i :: 0 <= i < |ms| && ms[i].id == target ==>
            Count(r[i].reactions, GivenBy(from)) == 1
            && r[i].reactions[|r[i].reactions| - 1] == Reaction(emoji, from))
  {
    var r := ReactTo(ms, target, emoji, from);
    var other := if from == User then Model else User;
    forall i, role | 0 <= i < |ms| ensures Count(r[i].reactions, GivenBy(role)) <= 1 {
      if ms[i].id == target {
        WithReactionReplaces(ms[i].reactions, emoji, from, other);
        assert role == from || role == other;
      }
    }
    forall i | 0 <= i < |ms| && ms[i].id == target
      ensures Count(r[i].reactions, GivenBy(from)) == 1
      ensures r[i].reactions[|r[i].reactions| - 1] == Reaction(emoji, from)
    {
      WithReactionReplaces(ms[i].reactions, emoji, from, other);
    }
  }

  /** react_to_message without an explicit id targets the last user message;
      with no user message at all the messages are left as they were. */
  lemma ModelReactsToLastUserMessage(ms: seq<Message>, emoji: string)
    ensures (forall i :: 0 <= i < |ms| ==> ms[i].role != User) ==> ReactAsModel(ms, None, emoji) == ms
    ensures forall i :: (0 <= i < |ms| && ms[i].role == User
              && (forall j :: i < j < |ms| ==> ms[j].role != User) && ms[i].id != "") ==>
              ReactAsModel(ms, None, emoji)[i]
                == ms[i].(reactions := WithReaction(ms[i].reactions, emoji, Model))
  {
    forall i | 0 <= i < |ms| && ms[i].role == User
      && (forall j :: i < j < |ms| ==> ms[j].role != User) && ms[i].id != ""
      ensures ReactAsModel(ms, None, emoji)[i]
                == ms[i].(reactions := WithReaction(ms[i].reactions, emoji, Model))
    {
      var found := LastUserId(ms);
      assert found.Some?;
      var k :| 0 <= k < |ms| && ms[k].role == User && ms[k].id == found.value
               && forall j :: k < j < |ms| ==> ms[j].role != User;
      assert k == i;
    }
  }

  /** update_novel_progress on a known title changes only the first entry with
      that title (chapter, and notes when gossip is truthy); on a new title it
      appends one entry. */
  lemma UpsertNovelEffect(ns: seq<NovelLog>, id: string, title: string,
                          chapter: Option<int>, gossip: Option<string>)
    ensures var r := UpsertNovel(ns, id, title, chapter, gossip);
      var notes := if Truthy(gossip) then gossip.value else "";
      ((forall j :: 0 <= j < |ns| ==> ns[j].title != title) ==>
         r == ns + [NovelLog(id, title, None, chapter, None, notes)])
      && (forall k :: (0 <= k < |ns| && ns[k].title == title
            && (forall j :: 0 <= j < k ==> ns[j].title != title)) ==>
            |r| == |ns|
            && r[k] == ns[k].(currentChapter := chapter,
                              notes := if Truthy(gossip) then gossip.value else ns[k].notes)
            && forall j :: 0 <= j < |ns| && j != k ==> r[j] == ns[j])
  {
    match FindByTitle(ns, title)
    case Some(k) =>
    case None =>
  }

  /** Recording the same progress twice is the same as recording it once. */
  lemma UpsertNovelIdempotent(ns: seq<NovelLog>, id: string, id2: string, title: string,
                              chapter: Option<int>, gossip: Option<string>)
    ensures UpsertNovel(UpsertNovel(ns, id, title, chapter, gossip), id2, title, chapter, gossip)
            == UpsertNovel(ns, id, title, chapter, gossip)
  {
    var once := UpsertNovel(ns, id, title, chapter, gossip);
    match FindByTitle(ns, title)
    case Some(k) =>
      FindByTitleFirst(once, title, k);
    case None =>
      FindByTitleFirst(once, title, |ns|);
  }

  /** `findIndex` answers the first matching position. */
  lemma {:induction false} FindByTitleFirst(ns: seq<NovelLog>, title: string, k: nat)
    requires k < |ns| && ns[k].title == title
    requires forall j :: 0 <= j < k ==> ns[j].title != title
    ensures FindByTitle(ns, title) == Some(k)
    decreases k
  {
    if k > 0 {
      FindByTitleFirst(ns[1..], title, k - 1);
    }
  }

  /** After the story viewer closes, no story is new. */
  lemma NoNewStoryAfterViewing(ss: seq<Story>)
    ensures var r := MarkAllSeen(ss);
      !HasNewStory(r) && |r| == |ss|
      && forall i :: 0 <= i < |ss| ==> r[i] == ss[i].(seen := true)
  {
  }

  /** An active timer counts down by exactly one per tick until it reaches zero. */
  lemma {:induction false} TicksCountDown(t: TimerState, k: nat)
    requires t.isActive && k <= t.remaining
    ensures Ticks(t, k) == t.(remaining := t.remaining - k)
    decreases k
  {
    if k > 0 {
      TicksCountDown(Tick(t), k - 1);
    }
  }

  /** An active timer with `n >= 0` seconds left is inactive at zero after
      `n + 1` ticks and stays so. */
  lemma TimerRunsOut(t: TimerState)
    requires t.isActive && t.remaining >= 0
    ensures var done := Ticks(t, t.remaining + 1);
      done == t.(remaining := 0, isActive := false) && Tick(done) == done
  {
    TicksCountDown(t, t.remaining);
    assert Ticks(t, t.remaining + 1) == Ticks(Ticks(t, t.remaining), 1) by {
      TicksCompose(t, t.remaining, 1);
    }
  }

  lemma {:induction false} TicksCompose(t: TimerState, a: nat, b: nat)
    ensures Ticks(t, a + b) == Ticks(Ticks(t, a), b)
    decreases a
  {
    if a > 0 {
      TicksCompose(Tick(t), a - 1, b);
    }
  }

  /** Start/Pause flips only the active flag, and pressing it twice restores the timer;
      Reset stops the timer with its full duration left. */
  lemma ToggleAndReset(t: TimerState)
    ensures Toggle(t).isActive == !t.isActive && Toggle(t).(isActive := t.isActive) == t
    ensures Toggle(Toggle(t)) == t
    ensures !Reset(t).isActive && Reset(t).remaining == Reset(t).duration == t.duration
    ensures Reset(t).title == t.title
  {
  }

  /** The display of any non-negative number of seconds is clock-shaped, reads
      back as the seconds shown, and is exactly "mm:ss" below 100 minutes. */
  lemma FormatTimeRoundTrip(s: int)
    requires 0 <= s
    ensures var t := FormatTime(s);
      ClockShaped(t) && ParseClock(t) == s
      && (s < 6000 <==> |t| == 5)
  {
    var m, sec := s / 60, s % 60;
    assert JsRem(s, 60) == sec;
    var mm, ss := Pad2(IntToString(m)), Pad2(IntToString(sec));
    PaddedRoundTrip(m);
    TwoDigits(sec);
    DigitCharValue(sec / 10);
    DigitCharValue(sec % 10);
    var t := FormatTime(s);
    assert t == mm + ":" + ss;
    assert t[..|t| - 3] == mm;
    if m >= 100 {
      NatToStringAtLeast(m);
    } else {
      TwoDigits(m);
    }
  }

  /** A non-negative number padded to two places is at least two digits that
      read back as the number. */
  lemma PaddedRoundTrip(n: nat)
    ensures var p := Pad2(IntToString(n));
      |p| >= 2 && (forall i :: 0 <= i < |p| ==> IsDigit(p[i])) && ParseDigits(p) == n
  {
    var d := NatToString(n);
    NatToStringRoundTrip(n);
    if |d| < 2 {
      var p := Pad2(IntToString(n));
      assert p == ['0'] + d;
      assert p[..1] == ['0'];
      assert ParseDigits(p[..1]) == 0 by {
        assert p[..1][..0] == [];
      }
      assert d == [d[0]];
      assert ParseDigits(d[..0]) == 0;
    }
  }
}
