/** The chat screen's load and save effects (src/App.tsx): every change is
    written to browser storage under one key per collection, and on mount each
    key that is present replaces the corresponding starting value. JSON
    encoding is taken to be faithful and is not modelled. */
module Persistence {
  import opened Types
  import opened Updaters
  import opened Store

  /** The stored keys; `None` is a missing key. `bio` holds `jeff_bio`: the
      bio and the life story. */
  datatype Storage = Storage(
    msgs: Option<seq<Message>>,
    bio: Option<(string, string)>,
    planner: Option<seq<PlannerItem>>,
    expenses: Option<seq<Expense>>,
    wishlist: Option<seq<WishlistItem>>,
    novels: Option<seq<NovelLog>>,
    stories: Option<seq<Story>>)

  const Blank := Storage(None, None, None, None, None, None, None)

  /** The save effect: every key written from the current state. */
  function Save(st: State): (s: Storage)
  {
    Storage(Some(st.messages), Some((st.profile.bio, st.profile.jeffStoryline)), Some(st.planner),
            Some(st.expenses), Some(st.wishlist), Some(st.novels), Some(st.stories))
  }

  /** The load effect: each present key replaces its part of `st`; an empty
      stored life story reads back as the starting one. */
  function Load(st: State, s: Storage): State {
    st.(messages := s.msgs.GetOr(st.messages),
        profile := if s.bio.None? then st.profile
                   else st.profile.(bio := s.bio.value.0,
                                    jeffStoryline := if s.bio.value.1 == "" then StartingStoryline else s.bio.value.1),
        planner := s.planner.GetOr(st.planner),
        expenses := s.expenses.GetOr(st.expenses),
        wishlist := s.wishlist.GetOr(st.wishlist),
        novels := s.novels.GetOr(st.novels),
        stories := s.stories.GetOr(st.stories))
  }

  /** With nothing stored, loading changes nothing. */
  lemma LoadBlank(st: State)
    ensures Load(st, Blank) == st
  {
  }

  /** Saving what was loaded from a save gives the same save back, as long as
      the life story was not empty; the session (persona, connectivity,
      playback, timer) is never stored. */
  lemma SaveLoadRoundTrip(st: State, saved: State)
    requires saved.profile.jeffStoryline != ""
    ensures Save(Load(st, Save(saved))) == Save(saved)
    ensures var r := Load(st, Save(saved));
      r.timer == st.timer && r.persona == st.persona && r.isOffline == st.isOffline
      && r.clips == st.clips && r.playingId == st.playingId && r.profile.name == st.profile.name
  {
  }

  /** An empty life story does not survive a reload: it comes back as the starting one. */
  lemma EmptyStorylineRestoredAsStart(st: State, saved: State)
    requires saved.profile.jeffStoryline == ""
    ensures Load(st, Save(saved)).profile.jeffStoryline == StartingStoryline
    ensures Save(Load(st, Save(saved))) != Save(saved)
  {
  }

  /** Loading keeps the chat coherent when the stored messages hold at most one
      reaction per role. */
  lemma LoadKeepsCoherent(st: State, s: Storage)
    requires Coherent(st)
    requires s.msgs.Some? ==> OneReactionPerRole(s.msgs.value)
    ensures Coherent(Load(st, s))
  {
  }
}
