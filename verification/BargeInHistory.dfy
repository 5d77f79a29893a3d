// What the conversation history of a session contains, end to end.
module BargeInHistory {
  import opened Common
  import opened SentenceChunker
  import opened ChatReply
  import opened BargeIn
  import opened BargeInTurns
  import opened BargeInOrigins

  /** Position of the first DONE. */
  function DoneAt(script: seq<ChatEvent>): (d: nat)
    requires ChatEvent.Done in script
    ensures d < |script| && script[d].Done? && forall i | 0 <= i < d :: !script[i].Done?
  {
    if script[0].Done? then 0 else 1 + DoneAt(script[1..])
  }

  /** The user and assistant messages one credited chat stands for. */
  function PairOf(c: Chat): seq<ChatMessage>
    requires ChatEvent.Done in c.script
  {
    [UserMessage(c.prompt), AssistantMessage(TextOf(c.script[..DoneAt(c.script)]))]
  }

  ghost predicate AllDone(credited: seq<nat>, chats: seq<Chat>) {
    forall k | 0 <= k < |credited| :: credited[k] < |chats| && ChatEvent.Done in chats[credited[k]].script
  }

  function PairsOf(credited: seq<nat>, chats: seq<Chat>): seq<ChatMessage>
    requires AllDone(credited, chats)
  {
    if credited == [] then []
    else
      var k := |credited| - 1;
      PairsOf(credited[..k], chats) + PairOf(chats[credited[k]])
  }

  /** How many of its events a chat forwarder has dealt with. */
  function DealtWith(c: Chat): nat {
    if (c.at.Weighing? || c.at.Handling?) && c.pos > 0 then c.pos - 1 else c.pos
  }

  ghost predicate ChatInv(c: Chat) {
    && c.pos <= |c.script|
    && (c.at.Weighing? || c.at.Handling? ==> c.pos > 0)
    && (!c.at.Over? ==> c.text == TextOf(c.script[..DealtWith(c)]))
  }

  ghost predicate ChatsInv(chats: seq<Chat>) {
    forall c | 0 <= c < |chats| :: ChatInv(chats[c])
  }

  ghost predicate IsSnapshot(snapshot: seq<ChatMessage>, history: seq<ChatMessage>) {
    snapshot <= history && |snapshot| % 2 == 0
  }

  /** Every chat's events come from some run of the chat service. */
  ghost predicate Truthful(settings: Settings, chats: seq<Chat>) {
    forall c | 0 <= c < |chats| :: Deliverable(chats[c].script, chats[c].origin, settings)
  }

  ghost predicate ChatSnapshots(chats: seq<Chat>, history: seq<ChatMessage>) {
    forall c | 0 <= c < |chats| :: IsSnapshot(chats[c].snapshot, history)
  }

  ghost predicate ForwarderSnapshots(forwarders: seq<Forwarder>, history: seq<ChatMessage>) {
    forall i | 0 <= i < |forwarders| && forwarders[i].at.Starting? :: IsSnapshot(forwarders[i].at.snapshot, history)
  }

  /** A recorded chat is past its DONE. */
  ghost predicate RecordedAreDone(credited: seq<nat>, chats: seq<Chat>) {
    AllDone(credited, chats) && forall k | 0 <= k < |credited| :: PastDone(chats[credited[k]])
  }

  predicate PastDone(c: Chat)
    requires ChatEvent.Done in c.script
  {
    c.at.Over? || DoneAt(c.script) < DealtWith(c)
  }

  ghost predicate CreditsInv(credited: seq<nat>, chats: seq<Chat>, history: seq<ChatMessage>) {
    && NoDup(credited)
    && RecordedAreDone(credited, chats)
    && history == PairsOf(credited, chats)
    && |history| == 2 * |credited|
  }

  ghost predicate HistoryInv(s: Session) {
    && ChatsInv(s.chats)
    && ChatSnapshots(s.chats, s.sh.history)
    && ForwarderSnapshots(s.forwarders, s.sh.history)
    && CreditsInv(s.credited, s.chats, s.sh.history)
  }

  // ---- Chats keep their script and prompt ------------------------------------------

  ghost predicate SameReplies(chats: seq<Chat>, chats': seq<Chat>) {
    && |chats| <= |chats'|
    && (forall c | 0 <= c < |chats| ::
          chats'[c].script == chats[c].script && chats'[c].prompt == chats[c].prompt)
  }

  lemma StillDone(credited: seq<nat>, chats: seq<Chat>, chats': seq<Chat>)
    requires AllDone(credited, chats) && SameReplies(chats, chats')
    ensures AllDone(credited, chats')
  {
    forall k | 0 <= k < |credited| ensures credited[k] < |chats'| && ChatEvent.Done in chats'[credited[k]].script {
      assert chats'[credited[k]].script == chats[credited[k]].script;
    }
  }

  lemma {:induction false} PairsStable(credited: seq<nat>, chats: seq<Chat>, chats': seq<Chat>)
    requires AllDone(credited, chats) && SameReplies(chats, chats')
    ensures AllDone(credited, chats') && PairsOf(credited, chats') == PairsOf(credited, chats)
    ensures |PairsOf(credited, chats)| == 2 * |credited|
  {
    StillDone(credited, chats, chats');
    if credited != [] {
      var k := |credited| - 1;
      PairsStable(credited[..k], chats, chats');
      assert PairOf(chats'[credited[k]]) == PairOf(chats[credited[k]]);
    }
  }

  lemma TextGrows(script: seq<ChatEvent>, n: nat)
    requires n < |script|
    ensures TextOf(script[..n + 1]) == TextOf(script[..n]) + (if script[n].Chunk? then script[n].text else "")
  {
    assert script[..n + 1][..n] == script[..n];
  }

  // ---- Preservation -----------------------------------------------------------------

  /** Later states of a chat: never dealt with less, unless it is over. */
  predicate GoesOn(c: Chat, c': Chat) {
    && c'.script == c.script && c'.prompt == c.prompt
    && (c'.at.Over? || (!c.at.Over? && DealtWith(c') >= DealtWith(c)))
  }

  ghost predicate AllGoOn(chats: seq<Chat>, chats': seq<Chat>) {
    |chats| <= |chats'| && forall c | 0 <= c < |chats| :: GoesOn(chats[c], chats'[c])
  }

  lemma GoingOnKeepsReplies(chats: seq<Chat>, chats': seq<Chat>)
    requires AllGoOn(chats, chats')
    ensures SameReplies(chats, chats')
  {
    forall c | 0 <= c < |chats|
      ensures chats'[c].script == chats[c].script && chats'[c].prompt == chats[c].prompt
    {
      assert GoesOn(chats[c], chats'[c]);
    }
  }

  lemma RecordedStay(credited: seq<nat>, chats: seq<Chat>, chats': seq<Chat>)
    requires RecordedAreDone(credited, chats) && AllGoOn(chats, chats') && AllDone(credited, chats')
    ensures RecordedAreDone(credited, chats')
  {
    forall k | 0 <= k < |credited| ensures PastDone(chats'[credited[k]]) {
      assert GoesOn(chats[credited[k]], chats'[credited[k]]) && PastDone(chats[credited[k]]);
    }
  }

  lemma CreditsStable(credited: seq<nat>, chats: seq<Chat>, chats': seq<Chat>, history: seq<ChatMessage>)
    requires CreditsInv(credited, chats, history) && AllGoOn(chats, chats')
    ensures CreditsInv(credited, chats', history)
  {
    GoingOnKeepsReplies(chats, chats');
    PairsStable(credited, chats, chats');
    RecordedStay(credited, chats, chats');
  }

  lemma ReaderKeepsChats(env: Env, s: Session, r: ReaderStep)
    requires ChatsInv(s.chats) && ReaderEnabled(s, r)
    ensures var s' := ReaderApply(env, s, r);
            && ChatsInv(s'.chats) && AllGoOn(s.chats, s'.chats)
            && s'.credited == s.credited && s'.sh.history == s.sh.history
  {
  }

  lemma ReaderKeepsSnapshots(env: Env, s: Session, r: ReaderStep)
    requires ChatSnapshots(s.chats, s.sh.history) && ForwarderSnapshots(s.forwarders, s.sh.history)
    requires ReaderEnabled(s, r)
    ensures var s' := ReaderApply(env, s, r);
            ChatSnapshots(s'.chats, s.sh.history) && ForwarderSnapshots(s'.forwarders, s.sh.history)
  {
  }

  lemma ReaderKeepsHistory(env: Env, s: Session, r: ReaderStep)
    requires HistoryInv(s) && ReaderEnabled(s, r)
    ensures HistoryInv(ReaderApply(env, s, r))
  {
    ReaderKeepsChats(env, s, r);
    ReaderKeepsSnapshots(env, s, r);
    CreditsStable(s.credited, s.chats, ReaderApply(env, s, r).chats, s.sh.history);
  }

  /** Only the forwarder that opened a chat starts its event loop, once. */
  ghost predicate SpawnedOnce(s: Session) {
    forall i | 0 <= i < |s.forwarders| :: SpawnsOwn(s.forwarders[i].at, s.chats, i)
  }

  predicate SpawnsOwn(at: ForwarderAt, chats: seq<Chat>, i: nat) {
    at.Publishing? || at.Spawning? ==>
      at.chat < |chats| && chats[at.chat].opener == i && chats[at.chat].at.Unspawned? && chats[at.chat].pos == 0
  }

  lemma ReaderKeepsSpawnedOnce(env: Env, s: Session, r: ReaderStep)
    requires SpawnedOnce(s) && ReaderEnabled(s, r)
    ensures SpawnedOnce(ReaderApply(env, s, r))
  {
  }

  lemma ForwarderKeepsSpawnedOnce(s: Session, i: nat, f: ForwarderStep)
    requires SpawnedOnce(s) && ForwarderEnabled(s, i, f)
    ensures SpawnedOnce(ForwarderApply(s, i, f))
  {
    var s' := ForwarderApply(s, i, f);
    assert SpawnsOwn(s.forwarders[i].at, s.chats, i);
    forall k | 0 <= k < |s'.forwarders| ensures SpawnsOwn(s'.forwarders[k].at, s'.chats, k) {
      assert k != i ==> s'.forwarders[k] == s.forwarders[k] && SpawnsOwn(s.forwarders[k].at, s.chats, k);
    }
  }

  lemma ChatKeepsSpawnedOnce(s: Session, c: nat, e: ChatStep)
    requires SpawnedOnce(s) && ChatEnabled(s, c, e)
    ensures SpawnedOnce(ChatApply(s, c, e))
  {
  }

  lemma StepKeepsSpawnedOnce(env: Env, s: Session, step: Step)
    requires SpawnedOnce(s) && Enabled(env, s, step)
    ensures SpawnedOnce(Apply(env, s, step))
  {
    match step
    case ByReader(r) => ReaderKeepsSpawnedOnce(env, s, r);
    case ByForwarder(i, f) => ForwarderKeepsSpawnedOnce(s, i, f);
    case ByChat(c, e) => ChatKeepsSpawnedOnce(s, c, e);
    case ByWorker(_) =>
    case ByWriter(_) =>
    case ByMicrophone(_) =>
  }

  lemma ForwarderKeepsChats(env: Env, s: Session, i: nat, f: ForwarderStep)
    requires ChatsInv(s.chats) && SpawnedOnce(s) && ForwarderEnabled(s, i, f)
    ensures ChatsInv(ForwarderApply(s, i, f).chats)
  {
  }

  lemma ForwarderLetsChatsGoOn(env: Env, s: Session, i: nat, f: ForwarderStep)
    requires SpawnedOnce(s) && ForwarderEnabled(s, i, f)
    ensures AllGoOn(s.chats, ForwarderApply(s, i, f).chats)
    ensures ForwarderApply(s, i, f).credited == s.credited
  {
  }

  lemma ForwarderKeepsSnapshots(env: Env, s: Session, i: nat, f: ForwarderStep)
    requires ChatSnapshots(s.chats, s.sh.history) && ForwarderSnapshots(s.forwarders, s.sh.history)
    requires |s.sh.history| % 2 == 0 && ForwarderEnabled(s, i, f)
    ensures var s' := ForwarderApply(s, i, f);
            ChatSnapshots(s'.chats, s'.sh.history) && ForwarderSnapshots(s'.forwarders, s'.sh.history)
  {
  }

  lemma ForwarderKeepsCredits(env: Env, s: Session, i: nat, f: ForwarderStep)
    requires CreditsInv(s.credited, s.chats, s.sh.history) && SpawnedOnce(s) && ForwarderEnabled(s, i, f)
    ensures var s' := ForwarderApply(s, i, f); CreditsInv(s'.credited, s'.chats, s'.sh.history)
  {
    ForwarderLetsChatsGoOn(env, s, i, f);
    CreditsStable(s.credited, s.chats, ForwarderApply(s, i, f).chats, s.sh.history);
  }

  lemma ForwarderKeepsHistory(env: Env, s: Session, i: nat, f: ForwarderStep)
    requires HistoryInv(s) && SpawnedOnce(s) && ForwarderEnabled(s, i, f)
    ensures HistoryInv(ForwarderApply(s, i, f))
  {
    assert |s.sh.history| == 2 * |s.credited|;
    ForwarderKeepsChats(env, s, i, f);
    ForwarderKeepsSnapshots(env, s, i, f);
    ForwarderKeepsCredits(env, s, i, f);
  }

  lemma ChatAfterKeeps(chat: Chat, turn: Turn, e: ChatStep)
    requires ChatInv(chat) && ChatReady(chat, e)
    ensures ChatInv(ChatAfter(chat, turn, e)) && GoesOn(chat, ChatAfter(chat, turn, e))
  {
    if e.Handle? {
      TextGrows(chat.script, chat.pos - 1);
      assert DealtWith(ChatAfter(chat, turn, e)) == chat.pos;
    } else if !ChatAfter(chat, turn, e).at.Over? {
      assert DealtWith(ChatAfter(chat, turn, e)) == DealtWith(chat);
    }
  }

  lemma ChatKeepsChats(env: Env, s: Session, c: nat, e: ChatStep)
    requires ChatsInv(s.chats) && ChatEnabled(s, c, e)
    ensures ChatsInv(ChatApply(s, c, e).chats)
    ensures AllGoOn(s.chats, ChatApply(s, c, e).chats)
  {
    assert ChatInv(s.chats[c]);
    ChatAfterKeeps(s.chats[c], s.sh.turn, e);
    forall k | 0 <= k < |s.chats| ensures GoesOn(s.chats[k], ChatApply(s, c, e).chats[k]) {
      assert ChatInv(s.chats[k]);
    }
  }

  lemma ChatGrowsHistory(s: Session, c: nat, e: ChatStep)
    requires ChatEnabled(s, c, e)
    ensures s.sh.history <= ChatApply(s, c, e).sh.history
  {
  }

  lemma ChatKeepsSnapshots(s: Session, c: nat, e: ChatStep)
    requires ChatSnapshots(s.chats, s.sh.history) && ForwarderSnapshots(s.forwarders, s.sh.history)
    requires ChatEnabled(s, c, e)
    ensures var s' := ChatApply(s, c, e);
            ChatSnapshots(s'.chats, s'.sh.history) && ForwarderSnapshots(s'.forwarders, s'.sh.history)
  {
    var s' := ChatApply(s, c, e);
    ChatGrowsHistory(s, c, e);
    forall k | 0 <= k < |s'.chats| ensures IsSnapshot(s'.chats[k].snapshot, s'.sh.history) {
      assert IsSnapshot(s.chats[k].snapshot, s.sh.history);
    }
  }

  /** One more pair at the end of the history. */
  lemma PairsGrow(credited: seq<nat>, chats: seq<Chat>, chats': seq<Chat>, c: nat)
    requires AllDone(credited, chats) && SameReplies(chats, chats')
    requires c < |chats| && ChatEvent.Done in chats[c].script
    ensures AllDone(credited + [c], chats')
    ensures PairsOf(credited + [c], chats') == PairsOf(credited, chats) + PairOf(chats[c])
  {
    PairsStable(credited, chats, chats');
    assert (credited + [c])[..|credited|] == credited;
    forall k | 0 <= k < |credited + [c]|
      ensures (credited + [c])[k] < |chats'| && ChatEvent.Done in chats'[(credited + [c])[k]].script
    {
    }
  }

  /** A chat about to handle a DONE is not past it, and its text is that of
      everything in front of it. */
  lemma FirstRecord(settings: Settings, chat: Chat)
    requires Deliverable(chat.script, chat.origin, settings) && ChatInv(chat)
    requires chat.at.Handling? && chat.script[chat.pos - 1].Done?
    ensures ChatEvent.Done in chat.script && DoneAt(chat.script) == chat.pos - 1
    ensures PairOf(chat) == [UserMessage(chat.prompt), AssistantMessage(chat.text)]
    ensures !PastDone(chat)
  {
    DoneMeansWhole(chat.script, chat.origin, settings, chat.pos - 1);
    assert chat.script[chat.pos - 1] in chat.script;
  }

  /** What handling an event does to the histories. */
  lemma HandleRecords(s: Session, c: nat, e: ChatStep)
    requires ChatEnabled(s, c, e)
    ensures var chat := s.chats[c];
            var s' := ChatApply(s, c, e);
            if e.Handle? && chat.script[chat.pos - 1].Done? then
              && s'.sh.history == s.sh.history + [UserMessage(chat.prompt), AssistantMessage(chat.text)]
              && s'.credited == s.credited + [c] && s'.chats[c].pos == chat.pos && s'.chats[c].at.Pending?
            else
              s'.sh.history == s.sh.history && s'.credited == s.credited
  {
  }

  lemma RecordKeepsCredits(credited: seq<nat>, chats: seq<Chat>, chats': seq<Chat>, history: seq<ChatMessage>, c: nat)
    requires CreditsInv(credited, chats, history) && AllGoOn(chats, chats')
    requires c < |chats| && ChatEvent.Done in chats[c].script && c !in credited && PastDone(chats'[c])
    ensures CreditsInv(credited + [c], chats', history + PairOf(chats[c]))
  {
    GoingOnKeepsReplies(chats, chats');
    PairsStable(credited, chats, chats');
    PairsGrow(credited, chats, chats', c);
    NoDupSnoc(credited, c);
    RecordedStay(credited, chats, chats');
    forall k | 0 <= k < |credited + [c]| ensures PastDone(chats'[(credited + [c])[k]]) {
      assert k < |credited| ==> PastDone(chats'[credited[k]]);
    }
  }

  lemma NotRecordedYet(credited: seq<nat>, chats: seq<Chat>, c: nat)
    requires RecordedAreDone(credited, chats) && c < |chats| && ChatEvent.Done in chats[c].script && !PastDone(chats[c])
    ensures c !in credited
  {
  }

  lemma DoneKeepsCredits(settings: Settings, s: Session, c: nat, chats': seq<Chat>)
    requires c < |s.chats| && Deliverable(s.chats[c].script, s.chats[c].origin, settings) && ChatInv(s.chats[c])
    requires CreditsInv(s.credited, s.chats, s.sh.history)
    requires s.chats[c].at.Handling? && s.chats[c].script[s.chats[c].pos - 1].Done?
    requires AllGoOn(s.chats, chats') && chats'[c].pos == s.chats[c].pos && chats'[c].at.Pending?
    ensures CreditsInv(s.credited + [c], chats',
                       s.sh.history + [UserMessage(s.chats[c].prompt), AssistantMessage(s.chats[c].text)])
  {
    FirstRecord(settings, s.chats[c]);
    NotRecordedYet(s.credited, s.chats, c);
    assert GoesOn(s.chats[c], chats'[c]);
    RecordKeepsCredits(s.credited, s.chats, chats', s.sh.history, c);
  }

  lemma ChatKeepsCredits(settings: Settings, s: Session, c: nat, e: ChatStep)
    requires HistoryInv(s) && Truthful(settings, s.chats) && ChatEnabled(s, c, e)
    requires AllGoOn(s.chats, ChatApply(s, c, e).chats)
    ensures var s' := ChatApply(s, c, e); CreditsInv(s'.credited, s'.chats, s'.sh.history)
  {
    HandleRecords(s, c, e);
    assert ChatInv(s.chats[c]);
    if e.Handle? && s.chats[c].script[s.chats[c].pos - 1].Done? {
      DoneKeepsCredits(settings, s, c, ChatApply(s, c, e).chats);
    } else {
      CreditsStable(s.credited, s.chats, ChatApply(s, c, e).chats, s.sh.history);
    }
  }

  lemma ChatKeepsHistory(env: Env, s: Session, c: nat, e: ChatStep)
    requires HistoryInv(s) && Truthful(env.settings, s.chats) && ChatEnabled(s, c, e)
    ensures HistoryInv(ChatApply(s, c, e))
  {
    ChatKeepsChats(env, s, c, e);
    ChatKeepsSnapshots(s, c, e);
    ChatKeepsCredits(env.settings, s, c, e);
  }

  lemma SameRepliesStayTruthful(settings: Settings, chats: seq<Chat>, chats': seq<Chat>)
    requires Truthful(settings, chats) && |chats'| == |chats|
    requires forall c | 0 <= c < |chats| :: chats'[c].script == chats[c].script && chats'[c].origin == chats[c].origin
    ensures Truthful(settings, chats')
  {
  }

  lemma ForwarderKeepsTruthful(env: Env, s: Session, i: nat, f: ForwarderStep)
    requires Truthful(env.settings, s.chats) && ForwarderEnabled(s, i, f) && FromService(env, ByForwarder(i, f))
    ensures Truthful(env.settings, ForwarderApply(s, i, f).chats)
  {
    if !f.ChatOpens? { SameRepliesStayTruthful(env.settings, s.chats, ForwarderApply(s, i, f).chats); }
  }

  lemma StepKeepsTruthful(env: Env, s: Session, step: Step)
    requires Truthful(env.settings, s.chats) && Enabled(env, s, step)
    ensures Truthful(env.settings, Apply(env, s, step).chats)
  {
    if step.ByForwarder? {
      ForwarderKeepsTruthful(env, s, step.i, step.f);
    } else {
      SameRepliesStayTruthful(env.settings, s.chats, Apply(env, s, step).chats);
    }
  }

  lemma WorkerKeepsHistory(s: Session, w: WorkerStep)
    requires HistoryInv(s) && WorkerEnabled(s, w)
    ensures HistoryInv(WorkerApply(s, w))
  {
    assert WorkerApply(s, w).credited == s.credited;
  }

  lemma StepKeepsHistory(env: Env, s: Session, step: Step)
    requires HistoryInv(s) && Truthful(env.settings, s.chats) && SpawnedOnce(s) && Enabled(env, s, step)
    ensures HistoryInv(Apply(env, s, step))
  {
    match step
    case ByReader(r) => ReaderKeepsHistory(env, s, r);
    case ByForwarder(i, f) => ForwarderKeepsHistory(env, s, i, f);
    case ByChat(c, e) => ChatKeepsHistory(env, s, c, e);
    case ByWorker(w) => WorkerKeepsHistory(s, w);
    case ByWriter(_) =>
    case ByMicrophone(_) =>
  }

  lemma {:induction false} ReachableHistory(env: Env, s: Session, steps: seq<Step>)
    requires HistoryInv(s) && Truthful(env.settings, s.chats) && SpawnedOnce(s) && Legal(env, s, steps)
    ensures var s' := Run(env, s, steps);
            HistoryInv(s') && Truthful(env.settings, s'.chats) && SpawnedOnce(s')
    decreases |steps|
  {
    if steps != [] {
      StepKeepsHistory(env, s, steps[0]);
      StepKeepsTruthful(env, s, steps[0]);
      StepKeepsSpawnedOnce(env, s, steps[0]);
      ReachableHistory(env, Apply(env, s, steps[0]), steps[1..]);
    }
  }

  // ---- The promise ---------------------------------------------------------------------

  /** Entry k of the history is a user/assistant pair of one finished chat. */
  ghost predicate GenuinePair(s: Session, k: nat)
    requires k < |s.credited| && 2 * k + 1 < |s.sh.history|
  {
    s.credited[k] < |s.chats| &&
    var c := s.chats[s.credited[k]];
    exists d | 0 <= d < |c.script| && c.script[d].Done? ::
      && (forall i | 0 <= i < d :: c.script[i].Chunk?)
      && s.sh.history[2 * k].role == "user" && s.sh.history[2 * k].content == c.prompt
      && s.sh.history[2 * k + 1].role == "assistant"
      && s.sh.history[2 * k + 1].content == TextOf(c.script[..d])
      && Visible(s.sh.history[2 * k + 1].content) == Visible(Flatten(c.origin.tokens))
      && c.origin.ending.Finished?
  }

  lemma {:induction false} PairAt(credited: seq<nat>, chats: seq<Chat>, k: nat)
    requires AllDone(credited, chats) && k < |credited|
    ensures |PairsOf(credited, chats)| == 2 * |credited|
    ensures PairsOf(credited, chats)[2 * k..2 * k + 2] == PairOf(chats[credited[k]])
  {
    var last := |credited| - 1;
    var front := credited[..last];
    PairsStable(front, chats, chats);
    if k < last {
      PairAt(front, chats, k);
    }
  }

  lemma PairIsGenuine(env: Env, s: Session, k: nat)
    requires CreditsInv(s.credited, s.chats, s.sh.history) && k < |s.credited|
    requires Deliverable(s.chats[s.credited[k]].script, s.chats[s.credited[k]].origin, env.settings)
    ensures GenuinePair(s, k)
  {
    var c := s.chats[s.credited[k]];
    PairAt(s.credited, s.chats, k);
    var d := DoneAt(c.script);
    DoneMeansWhole(c.script, c.origin, env.settings, d);
    var h := s.sh.history;
    assert h[2 * k..2 * k + 2][0] == h[2 * k] && h[2 * k..2 * k + 2][1] == h[2 * k + 1];
  }

  /** Some transcript forwarder received this as a FINAL transcript. */
  ghost predicate Said(steps: seq<Step>, text: string) {
    exists i: nat :: ByForwarder(i, Hear(FinalText(text))) in steps
  }

  lemma PromptWasSaid(env: Env, steps: seq<Step>, k: nat)
    requires Legal(env, FRESH, steps)
    requires var s := Run(env, FRESH, steps);
             k < |s.credited| && 2 * k + 1 < |s.sh.history| && GenuinePair(s, k)
    ensures Said(steps, Run(env, FRESH, steps).sh.history[2 * k].content)
  {
    PromptWasHeard(env, steps, Run(env, FRESH, steps).credited[k]);
  }

  /** History integrity, under every schedule: the history is a list of pairs,
      one per distinct chat; each holds a prompt that was heard as a FINAL
      transcript, and the in-order text of all that chat's chunks up to DONE --
      whether or not they were dropped from the TTS queue -- which spells the
      model's whole token stream; a chat that failed or was cut short contributes
      nothing; and every snapshot sent to the model is an even-length prefix of
      the history from then on. */
  lemma HistoryIntegrity(env: Env, steps: seq<Step>)
    requires Legal(env, FRESH, steps)
    ensures var s := Run(env, FRESH, steps);
            && NoDup(s.credited) && |s.sh.history| == 2 * |s.credited|
            && (forall k | 0 <= k < |s.credited| :: GenuinePair(s, k) && Said(steps, s.sh.history[2 * k].content))
            && (forall c | 0 <= c < |s.chats| :: IsSnapshot(s.chats[c].snapshot, s.sh.history))
  {
    ReachableHistory(env, FRESH, steps);
    var s := Run(env, FRESH, steps);
    forall k | 0 <= k < |s.credited| ensures GenuinePair(s, k) && Said(steps, s.sh.history[2 * k].content) {
      PairIsGenuine(env, s, k);
      PromptWasSaid(env, steps, k);
    }
  }

  // ---- Abandoned chats -------------------------------------------------------------------

  /** Chat `c` belongs to turn `turn`, is not past its check, and has `text`. */
  predicate Abandoned(chats: seq<Chat>, c: nat, turn: Turn, text: string) {
    c < |chats| && chats[c].turn == turn && !chats[c].at.Handling? && chats[c].text == text
  }

  lemma ReaderKeepsSilence(env: Env, s: Session, r: ReaderStep, c: nat, turn: Turn, text: string)
    requires ReaderEnabled(s, r) && Abandoned(s.chats, c, turn, text)
    ensures Abandoned(ReaderApply(env, s, r).chats, c, turn, text)
    ensures ReaderApply(env, s, r).credited == s.credited
  {
  }

  lemma ForwarderKeepsSilence(env: Env, s: Session, i: nat, f: ForwarderStep, c: nat, turn: Turn, text: string)
    requires SpawnedOnce(s) && ForwarderEnabled(s, i, f) && Abandoned(s.chats, c, turn, text)
    ensures Abandoned(ForwarderApply(s, i, f).chats, c, turn, text)
    ensures ForwarderApply(s, i, f).credited == s.credited
  {
  }

  lemma ChatKeepsSilence(s: Session, k: nat, e: ChatStep, c: nat, turn: Turn, text: string)
    requires ChatEnabled(s, k, e) && Abandoned(s.chats, c, turn, text) && turn < s.sh.turn
    ensures Abandoned(ChatApply(s, k, e).chats, c, turn, text)
    ensures c in ChatApply(s, k, e).credited ==> c in s.credited
  {
  }

  lemma StepKeepsSilence(env: Env, s: Session, step: Step, c: nat, turn: Turn, text: string)
    requires SpawnedOnce(s) && Enabled(env, s, step) && Abandoned(s.chats, c, turn, text) && turn < s.sh.turn
    ensures Abandoned(Apply(env, s, step).chats, c, turn, text)
    ensures c in Apply(env, s, step).credited ==> c in s.credited
  {
    match step
    case ByReader(r) => ReaderKeepsSilence(env, s, r, c, turn, text);
    case ByForwarder(i, f) => ForwarderKeepsSilence(env, s, i, f, c, turn, text);
    case ByChat(k, e) => ChatKeepsSilence(s, k, e, c, turn, text);
    case ByWorker(w) => assert WorkerApply(s, w).credited == s.credited;
    case ByWriter(_) =>
    case ByMicrophone(_) =>
  }

  /** A chat whose turn is over and that is not already past its check never
      gets into the history any more, and adds nothing to its text. */
  lemma {:induction false} AbandonedChatIsSilent(env: Env, s: Session, steps: seq<Step>, c: nat)
    requires Inv(env, s) && SpawnedOnce(s) && Legal(env, s, steps)
    requires c < |s.chats| && s.chats[c].turn < s.sh.turn && !s.chats[c].at.Handling?
    ensures var s' := Run(env, s, steps);
            && c < |s'.chats| && s'.chats[c].text == s.chats[c].text
            && (c in s'.credited ==> c in s.credited)
    decreases |steps|
  {
    if steps != [] {
      StepKeepsSilence(env, s, steps[0], c, s.chats[c].turn, s.chats[c].text);
      CounterMoves(env, s, steps[0]);
      StepKeepsInv(env, s, steps[0]);
      StepKeepsSpawnedOnce(env, s, steps[0]);
      AbandonedChatIsSilent(env, Apply(env, s, steps[0]), steps[1..], c);
    }
  }
}
