// Which LLM streams an interrupt can reach, and exactly when one is lost.  Two
// sections write the active LLM stream without looking at it: publishing a new
// one, and recording a DONE, whichever chat it belongs to.
module BargeInChats {
  import opened Common
  import opened BargeIn
  import opened BargeInTurns
  import opened BargeInHistory

  predicate ChatUnpublished(s: Session, c: nat)
    requires c < |s.chats|
  {
    s.chats[c].opener < |s.forwarders| && s.forwarders[s.chats[c].opener].at == Publishing(c)
  }

  predicate ChatInHand(s: Session, c: nat) {
    s.reader.Swapped? && s.reader.llm == Some(c)
  }

  /** Closed or over, or within the reach of somebody who can close it. */
  predicate ChatTracked(s: Session, c: nat)
    requires c < |s.chats|
  {
    || s.chats[c].closed || s.chats[c].ended
    || ChatUnpublished(s, c) || s.sh.activeLlm == Some(c) || ChatInHand(s, c)
  }

  ghost predicate ChatsTracked(s: Session) {
    forall c | 0 <= c < |s.chats| :: ChatTracked(s, c)
  }

  /** Open, and reachable through the active LLM stream alone. */
  predicate OnlyActive(s: Session, c: nat) {
    && c < |s.chats| && s.sh.activeLlm == Some(c)
    && !s.chats[c].closed && !s.chats[c].ended && !ChatUnpublished(s, c) && !ChatInHand(s, c)
  }

  /** The active stream is replaced by another, or cleared by another's DONE. */
  predicate LosesChat(s: Session, step: Step) {
    s.sh.activeLlm.Some? && OnlyActive(s, s.sh.activeLlm.value) &&
    match step
    case ByForwarder(i, Publish) =>
      i < |s.forwarders| && s.forwarders[i].at.Publishing? && s.forwarders[i].at.chat != s.sh.activeLlm.value
    case ByChat(c, Handle(_)) =>
      && c < |s.chats| && c != s.sh.activeLlm.value
      && 0 < s.chats[c].pos <= |s.chats[c].script| && s.chats[c].script[s.chats[c].pos - 1].Done?
    case _ => false
  }

  // ---- One step -----------------------------------------------------------------------

  lemma ReaderKeepsChatsTracked(env: Env, s: Session, r: ReaderStep)
    requires IdsInRange(s) && ChatsTracked(s) && ReaderEnabled(s, r)
    ensures ChatsTracked(ReaderApply(env, s, r))
  {
    var s' := ReaderApply(env, s, r);
    forall c | 0 <= c < |s'.chats| ensures ChatTracked(s', c) {
      assert ChatTracked(s, c);
    }
  }

  lemma ForwarderTracksExactly(s: Session, i: nat, f: ForwarderStep)
    requires IdsInRange(s) && ChatsTracked(s) && ForwarderEnabled(s, i, f)
    ensures ChatsTracked(ForwarderApply(s, i, f)) <==> !LosesChat(s, ByForwarder(i, f))
  {
    var s' := ForwarderApply(s, i, f);
    if LosesChat(s, ByForwarder(i, f)) {
      assert !ChatTracked(s', s.sh.activeLlm.value);
    } else {
      forall c | 0 <= c < |s'.chats| ensures ChatTracked(s', c) {
        assert c < |s.chats| ==> ChatTracked(s, c);
      }
    }
  }

  lemma ChatTracksExactly(s: Session, k: nat, e: ChatStep)
    requires IdsInRange(s) && ChatsTracked(s) && ChatEnabled(s, k, e)
    ensures ChatsTracked(ChatApply(s, k, e)) <==> !LosesChat(s, ByChat(k, e))
  {
    var s' := ChatApply(s, k, e);
    if LosesChat(s, ByChat(k, e)) {
      assert !ChatTracked(s', s.sh.activeLlm.value);
    } else {
      forall c | 0 <= c < |s'.chats| ensures ChatTracked(s', c) {
        assert ChatTracked(s, c);
      }
    }
  }

  /** Exactly these two kinds of step lose track of a chat. */
  lemma ChatsTrackedExactly(env: Env, s: Session, step: Step)
    requires IdsInRange(s) && ChatsTracked(s) && Enabled(env, s, step)
    ensures ChatsTracked(Apply(env, s, step)) <==> !LosesChat(s, step)
  {
    match step
    case ByReader(r) => ReaderKeepsChatsTracked(env, s, r);
    case ByForwarder(i, f) => ForwarderTracksExactly(s, i, f);
    case ByChat(c, e) => ChatTracksExactly(s, c, e);
    case _ =>
      forall c | 0 <= c < |s.chats| ensures ChatTracked(Apply(env, s, step), c) {
        assert ChatTracked(s, c);
      }
  }

  // ---- Whole runs -----------------------------------------------------------------------

  ghost predicate NeverLosesChat(env: Env, s: Session, steps: seq<Step>)
    requires Legal(env, s, steps)
    decreases |steps|
  {
    steps == [] || (!LosesChat(s, steps[0]) && NeverLosesChat(env, Apply(env, s, steps[0]), steps[1..]))
  }

  lemma {:induction false} ChatsStayTracked(env: Env, s: Session, steps: seq<Step>)
    requires IdsInRange(s) && ChatsTracked(s) && Legal(env, s, steps) && NeverLosesChat(env, s, steps)
    ensures ChatsTracked(Run(env, s, steps))
    decreases |steps|
  {
    if steps != [] {
      StepKeepsIds(env, s, steps[0]);
      ChatsTrackedExactly(env, s, steps[0]);
      ChatsStayTracked(env, Apply(env, s, steps[0]), steps[1..]);
    }
  }

  /** Unless a chat was lost, once the reader has closed what it swapped out
      every chat is closed, over, unpublished, or the active one. */
  lemma NoChatEscapes(env: Env, steps: seq<Step>, c: nat)
    requires Legal(env, FRESH, steps) && NeverLosesChat(env, FRESH, steps)
    requires c < |Run(env, FRESH, steps).chats| && !Run(env, FRESH, steps).reader.Swapped?
    ensures var s := Run(env, FRESH, steps);
            s.chats[c].closed || s.chats[c].ended || ChatUnpublished(s, c) || s.sh.activeLlm == Some(c)
  {
    ChatsStayTracked(env, FRESH, steps);
    assert ChatTracked(Run(env, FRESH, steps), c);
  }

  /** A chat nobody can reach any more. */
  predicate ChatLost(s: Session, c: nat) {
    && c < |s.chats| && !s.chats[c].closed
    && !ChatUnpublished(s, c) && s.sh.activeLlm != Some(c) && !ChatInHand(s, c)
  }

  lemma LosingIsLost(env: Env, s: Session, step: Step)
    requires Enabled(env, s, step) && LosesChat(s, step)
    ensures ChatLost(Apply(env, s, step), s.sh.activeLlm.value)
  {
  }

  lemma StepKeepsChatLost(env: Env, s: Session, step: Step, c: nat)
    requires SpawnedOnce(s) && ChatLost(s, c) && Enabled(env, s, step)
    ensures ChatLost(Apply(env, s, step), c)
  {
    match step
    case ByReader(r) => ReaderKeepsChatLost(env, s, r, c);
    case ByForwarder(i, f) => ForwarderKeepsChatLost(s, i, f, c);
    case _ =>
  }

  lemma ReaderKeepsChatLost(env: Env, s: Session, r: ReaderStep, c: nat)
    requires ChatLost(s, c) && ReaderEnabled(s, r)
    ensures ChatLost(ReaderApply(env, s, r), c)
  {
  }

  lemma ForwarderKeepsChatLost(s: Session, i: nat, f: ForwarderStep, c: nat)
    requires SpawnedOnce(s) && ChatLost(s, c) && ForwarderEnabled(s, i, f)
    ensures ChatLost(ForwarderApply(s, i, f), c)
  {
  }

  /** No later interrupt closes a lost chat. */
  lemma {:induction false} LostChatIsNeverClosed(env: Env, s: Session, steps: seq<Step>, c: nat)
    requires SpawnedOnce(s) && ChatLost(s, c) && Legal(env, s, steps)
    ensures ChatLost(Run(env, s, steps), c)
    decreases |steps|
  {
    if steps != [] {
      StepKeepsChatLost(env, s, steps[0], c);
      StepKeepsSpawnedOnce(env, s, steps[0]);
      LostChatIsNeverClosed(env, Apply(env, s, steps[0]), steps[1..], c);
    }
  }

  /** Losing a chat once is enough: it stays lost to the end of the run. */
  lemma {:induction false} LosingChats(env: Env, s: Session, steps: seq<Step>) returns (c: nat)
    requires SpawnedOnce(s) && Legal(env, s, steps) && !NeverLosesChat(env, s, steps)
    ensures ChatLost(Run(env, s, steps), c)
    decreases |steps|
  {
    var s' := Apply(env, s, steps[0]);
    StepKeepsSpawnedOnce(env, s, steps[0]);
    if LosesChat(s, steps[0]) {
      c := s.sh.activeLlm.value;
      LosingIsLost(env, s, steps[0]);
      LostChatIsNeverClosed(env, s', steps[1..], c);
    } else {
      c := LosingChats(env, s', steps[1..]);
    }
  }

  ghost predicate AlwaysTracked(env: Env, s: Session, steps: seq<Step>)
    requires Legal(env, s, steps)
    decreases |steps|
  {
    ChatsTracked(s) && (steps == [] || AlwaysTracked(env, Apply(env, s, steps[0]), steps[1..]))
  }

  /** Over whole runs: every LLM stream is within reach at every moment if and
      only if neither kind of step ever happens; and if one does, some stream is
      still out of everybody's reach at the end. */
  lemma {:induction false} AlwaysTrackedExactly(env: Env, s: Session, steps: seq<Step>)
    requires IdsInRange(s) && ChatsTracked(s) && Legal(env, s, steps)
    ensures AlwaysTracked(env, s, steps) <==> NeverLosesChat(env, s, steps)
    ensures SpawnedOnce(s) && !NeverLosesChat(env, s, steps) ==> exists c :: ChatLost(Run(env, s, steps), c)
    decreases |steps|
  {
    if steps != [] {
      var s' := Apply(env, s, steps[0]);
      StepKeepsIds(env, s, steps[0]);
      ChatsTrackedExactly(env, s, steps[0]);
      if !LosesChat(s, steps[0]) { AlwaysTrackedExactly(env, s', steps[1..]); }
      if SpawnedOnce(s) && !NeverLosesChat(env, s, steps) {
        var c := LosingChats(env, s, steps);
      }
    }
  }
}
