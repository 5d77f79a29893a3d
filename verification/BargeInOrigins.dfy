// Where the prompts, transcripts, snapshots and sentences of a session come from.
module BargeInOrigins {
  import opened Common
  import opened ChatReply
  import opened BargeIn
  import opened BargeInMessages

  // ---- What a transcript forwarder heard ------------------------------------------

  function HeardIn(step: Step, i: nat): seq<Transcript> {
    if step.ByForwarder? && step.i == i && step.f.Hear? then [step.f.event] else []
  }

  /** The transcripts forwarder `i` receives in a run, in order. */
  function HeardBy(steps: seq<Step>, i: nat): seq<Transcript> {
    if steps == [] then [] else HeardIn(steps[0], i) + HeardBy(steps[1..], i)
  }

  /** The transcript the forwarder still has to deal with, up to opening a chat. */
  function InHand(at: ForwarderAt): seq<Transcript> {
    match at
    case Checking(event) => [event]
    case Acting(event) => [event]
    case Prompting(prompt) => [FinalText(prompt)]
    case Snapshotting(prompt) => [FinalText(prompt)]
    case Starting(prompt, _) => [FinalText(prompt)]
    case _ => []
  }

  /** The transcript it has not told the client about yet. */
  function Untold(at: ForwarderAt): seq<Transcript> {
    match at
    case Checking(event) => [event]
    case Acting(event) => [event]
    case _ => []
  }

  /** The FINAL transcripts forwarder `i` has opened chats for. */
  function PromptedBy(chats: seq<Chat>, i: nat): seq<Transcript> {
    if chats == [] then []
    else
      var last := chats[|chats| - 1];
      PromptedBy(chats[..|chats| - 1], i) + if last.opener == i then [FinalText(last.prompt)] else []
  }

  function TranscriptOf(out: Out): Transcript
    requires out.TranscriptFrame?
  {
    if out.final then FinalText(out.text) else PartialText(out.text)
  }

  /** The transcripts forwarder `i` has told the client. */
  function ToldBy(sent: seq<Out>, i: nat): seq<Transcript> {
    if sent == [] then []
    else
      var last := sent[|sent| - 1];
      ToldBy(sent[..|sent| - 1], i) +
      if last.TranscriptFrame? && last.forwarder == i then [TranscriptOf(last)] else []
  }

  function AtOf(s: Session, i: nat): ForwarderAt {
    if i < |s.forwarders| then s.forwarders[i].at else Unstarted
  }

  function Prompted(s: Session, i: nat): seq<Transcript> { PromptedBy(s.chats, i) + InHand(AtOf(s, i)) }

  function Told(s: Session, i: nat): seq<Transcript> { ToldBy(s.sent, i) + Untold(AtOf(s, i)) }

  // ---- Steps ------------------------------------------------------------------------

  lemma {:induction false} SameOpenersSamePrompts(chats: seq<Chat>, chats': seq<Chat>, i: nat)
    requires |chats'| == |chats|
    requires forall c | 0 <= c < |chats| :: chats'[c].opener == chats[c].opener && chats'[c].prompt == chats[c].prompt
    ensures PromptedBy(chats', i) == PromptedBy(chats, i)
  {
    if chats != [] {
      var n := |chats| - 1;
      SameOpenersSamePrompts(chats[..n], chats'[..n], i);
    }
  }

  /** `now` grows from `before` by what is heard, or loses its last element. */
  predicate Follows(before: seq<Transcript>, now: seq<Transcript>, heard: seq<Transcript>) {
    (now == before + heard && |heard| <= 1) || (heard == [] && before != [] && now == before[..|before| - 1])
  }

  /** A step of a forwarder takes up a transcript or lets go of one. */
  lemma HandFollows(f: Forwarder, sh: Shared, chats: nat, step: ForwarderStep)
    requires ForwarderReady(f.at, step)
    ensures var at' := ForwarderAfter(f, sh, chats, step).at;
            && (step.Hear? ==> InHand(f.at) == [] && InHand(at') == [step.event])
            && (step.ChatOpens? ==> InHand(f.at) == [FinalText(f.at.prompt)] && InHand(at') == [])
            && (!step.Hear? && !step.ChatOpens? ==>
                  InHand(at') == InHand(f.at) || (|InHand(f.at)| == 1 && InHand(at') == []))
  {
  }

  lemma ChatsFollow(s: Session, k: nat, f: ForwarderStep, i: nat)
    requires ForwarderEnabled(s, k, f)
    ensures PromptedBy(ForwarderApply(s, k, f).chats, i)
         == PromptedBy(s.chats, i) + if k == i && f.ChatOpens? then [FinalText(s.forwarders[i].at.prompt)] else []
  {
    var s' := ForwarderApply(s, k, f);
    if f.ChatOpens? {
      assert s'.chats[..|s.chats|] == s.chats;
    } else {
      SameOpenersSamePrompts(s.chats, s'.chats, i);
    }
  }

  lemma Moves(done: seq<Transcript>, hand: seq<Transcript>, heard: seq<Transcript>)
    requires |heard| <= 1
    ensures hand == [] ==> Follows(done + hand, done + heard, heard)
    ensures Follows(done + hand, (done + hand) + [], []) && (done + hand) + [] == done + hand
    ensures |hand| == 1 ==> Follows(done + hand, done + [], [])
  {
    assert |hand| == 1 ==> (done + hand)[..|done + hand| - 1] == done;
  }

  lemma ForwarderPromptsInOrder(s: Session, k: nat, f: ForwarderStep, i: nat)
    requires ForwarderEnabled(s, k, f)
    ensures Follows(Prompted(s, i), Prompted(ForwarderApply(s, k, f), i), HeardIn(ByForwarder(k, f), i))
  {
    ChatsFollow(s, k, f, i);
    HandFollows(s.forwarders[k], s.sh, |s.chats|, f);
    Moves(PromptedBy(s.chats, i), InHand(AtOf(s, i)), HeardIn(ByForwarder(k, f), i));
    assert AtOf(ForwarderApply(s, k, f), i)
        == if k == i then ForwarderAfter(s.forwarders[k], s.sh, |s.chats|, f).at else AtOf(s, i);
  }

  lemma OthersPromptNothing(env: Env, s: Session, step: Step, i: nat)
    requires Enabled(env, s, step) && !step.ByForwarder?
    ensures Prompted(Apply(env, s, step), i) == Prompted(s, i)
  {
    SameOpenersSamePrompts(s.chats, Apply(env, s, step).chats, i);
    OthersKeepForwarders(env, s, step, i);
  }

  lemma OthersKeepForwarders(env: Env, s: Session, step: Step, i: nat)
    requires Enabled(env, s, step) && !step.ByForwarder?
    ensures i < |s.forwarders| ==> i < |Apply(env, s, step).forwarders|
    ensures i < |s.forwarders| ==> Apply(env, s, step).forwarders[i] == s.forwarders[i]
    ensures AtOf(Apply(env, s, step), i) == AtOf(s, i) || AtOf(Apply(env, s, step), i).Awaiting?
    ensures InHand(AtOf(Apply(env, s, step), i)) == InHand(AtOf(s, i))
    ensures Untold(AtOf(Apply(env, s, step), i)) == Untold(AtOf(s, i))
  {
  }

  /** And tells the client of it or not. */
  lemma UntoldFollows(f: Forwarder, sh: Shared, chats: nat, step: ForwarderStep)
    requires ForwarderReady(f.at, step)
    ensures var at' := ForwarderAfter(f, sh, chats, step).at;
            && (step.Hear? ==> Untold(f.at) == [] && Untold(at') == [step.event])
            && (step.Act? ==> Untold(f.at) == [f.at.event] && Untold(at') == [])
            && (!step.Hear? && !step.Act? ==>
                  Untold(at') == Untold(f.at) || (|Untold(f.at)| == 1 && Untold(at') == []))
  {
  }

  lemma ToldPut(sent: seq<Out>, sent': seq<Out>, i: nat)
    requires PutsAtMostOne(sent, sent')
    ensures sent' == sent || !sent'[|sent|].TranscriptFrame? || sent'[|sent|].forwarder != i ==>
              ToldBy(sent', i) == ToldBy(sent, i)
    ensures sent' != sent && sent'[|sent|].TranscriptFrame? && sent'[|sent|].forwarder == i ==>
              ToldBy(sent', i) == ToldBy(sent, i) + [TranscriptOf(sent'[|sent|])]
  {
    if sent' != sent { assert sent'[..|sent|] == sent; }
  }

  lemma TellsFollow(s: Session, k: nat, f: ForwarderStep, i: nat)
    requires ForwarderEnabled(s, k, f)
    ensures ToldBy(ForwarderApply(s, k, f).sent, i)
         == ToldBy(s.sent, i) + if k == i && f.Act? && !f.lost && !s.forwarders[i].at.event.TranscriptError?
                                then [s.forwarders[i].at.event] else []
  {
    ForwarderPuts(s, k, f);
    ToldPut(s.sent, ForwarderApply(s, k, f).sent, i);
  }

  lemma ForwarderTellsInOrder(s: Session, k: nat, f: ForwarderStep, i: nat)
    requires ForwarderEnabled(s, k, f)
    ensures Follows(Told(s, i), Told(ForwarderApply(s, k, f), i), HeardIn(ByForwarder(k, f), i))
  {
    TellsFollow(s, k, f, i);
    UntoldFollows(s.forwarders[k], s.sh, |s.chats|, f);
    Moves(ToldBy(s.sent, i), Untold(AtOf(s, i)), HeardIn(ByForwarder(k, f), i));
    assert AtOf(ForwarderApply(s, k, f), i)
        == if k == i then ForwarderAfter(s.forwarders[k], s.sh, |s.chats|, f).at else AtOf(s, i);
  }

  lemma OthersTellNothing(env: Env, s: Session, step: Step, i: nat)
    requires Enabled(env, s, step) && !step.ByForwarder?
    ensures ToldBy(Apply(env, s, step).sent, i) == ToldBy(s.sent, i)
  {
    match step
    case ByReader(r) => ReaderPuts(env, s, r); ToldPut(s.sent, ReaderApply(env, s, r).sent, i);
    case ByWorker(w) => WorkerPuts(s, w); ToldPut(s.sent, WorkerApply(s, w).sent, i);
    case ByChat(c, e) => ChatPuts(s, c, e); ToldPut(s.sent, ChatApply(s, c, e).sent, i);
    case ByWriter(_) =>
    case ByMicrophone(lost) => MicrophonePuts(env, s, lost); ToldPut(s.sent, Apply(env, s, step).sent, i);
  }

  lemma StepInOrder(env: Env, s: Session, step: Step, i: nat)
    requires Enabled(env, s, step)
    ensures Follows(Prompted(s, i), Prompted(Apply(env, s, step), i), HeardIn(step, i))
    ensures Follows(Told(s, i), Told(Apply(env, s, step), i), HeardIn(step, i))
  {
    if step.ByForwarder? {
      ForwarderPromptsInOrder(s, step.i, step.f, i);
      ForwarderTellsInOrder(s, step.i, step.f, i);
    } else {
      OthersPromptNothing(env, s, step, i);
      OthersTellNothing(env, s, step, i);
      OthersKeepForwarders(env, s, step, i);
    }
  }

  // ---- Runs -------------------------------------------------------------------------

  lemma StaysSubsequence(before: seq<Transcript>, now: seq<Transcript>, all: seq<Transcript>, heard: seq<Transcript>)
    requires Follows(before, now, heard) && IsSubsequence(before, all)
    ensures IsSubsequence(now, all + heard)
  {
    if heard == [] {
      assert all + heard == all && before + heard == before;
      if now != before { SubsequenceDropLast(before, all); }
    } else {
      assert heard == [heard[0]];
      SubsequenceAppendBoth(before, all, heard[0]);
    }
  }

  ghost predicate InOrder(s: Session, i: nat, heard: seq<Transcript>) {
    IsSubsequence(Prompted(s, i), heard) && IsSubsequence(Told(s, i), heard)
  }

  lemma StepKeepsOrder(env: Env, s: Session, step: Step, i: nat, heard: seq<Transcript>)
    requires Enabled(env, s, step) && InOrder(s, i, heard)
    ensures InOrder(Apply(env, s, step), i, heard + HeardIn(step, i))
  {
    StepInOrder(env, s, step, i);
    StaysSubsequence(Prompted(s, i), Prompted(Apply(env, s, step), i), heard, HeardIn(step, i));
    StaysSubsequence(Told(s, i), Told(Apply(env, s, step), i), heard, HeardIn(step, i));
  }

  lemma HeardFirst(steps: seq<Step>, i: nat, heard: seq<Transcript>)
    ensures steps == [] ==> heard + HeardBy(steps, i) == heard
    ensures steps != [] ==> heard + HeardBy(steps, i) == (heard + HeardIn(steps[0], i)) + HeardBy(steps[1..], i)
  {
  }

  lemma {:induction false} InOrderOverRun(env: Env, s: Session, steps: seq<Step>, i: nat, heard: seq<Transcript>)
    requires Legal(env, s, steps) && InOrder(s, i, heard)
    ensures InOrder(Run(env, s, steps), i, heard + HeardBy(steps, i))
    decreases |steps|
  {
    HeardFirst(steps, i, heard);
    if steps != [] {
      StepKeepsOrder(env, s, steps[0], i, heard);
      InOrderOverRun(env, Apply(env, s, steps[0]), steps[1..], i, heard + HeardIn(steps[0], i));
    }
  }

  lemma {:induction false} SubsequencePrefix(xs: seq<Transcript>, zs: seq<Transcript>, ys: seq<Transcript>)
    requires IsSubsequence(xs + zs, ys)
    ensures IsSubsequence(xs, ys)
  {
    if zs == [] {
      assert xs + zs == xs;
    } else {
      SubsequenceDropLast(xs + zs, ys);
      assert (xs + zs)[..|xs + zs| - 1] == xs + zs[..|zs| - 1];
      SubsequencePrefix(xs, zs[..|zs| - 1], ys);
    }
  }

  /** In order, and none twice. */
  ghost predicate PassesOn(s: Session, i: nat, heard: seq<Transcript>) {
    && IsSubsequence(PromptedBy(s.chats, i), heard) && multiset(PromptedBy(s.chats, i)) <= multiset(heard)
    && IsSubsequence(ToldBy(s.sent, i), heard) && multiset(ToldBy(s.sent, i)) <= multiset(heard)
  }

  lemma OrderMeansPassedOn(s: Session, i: nat, heard: seq<Transcript>)
    requires InOrder(s, i, heard)
    ensures PassesOn(s, i, heard)
  {
    SubsequencePrefix(PromptedBy(s.chats, i), InHand(AtOf(s, i)), heard);
    SubsequencePrefix(ToldBy(s.sent, i), Untold(AtOf(s, i)), heard);
    SubsequenceCounts(PromptedBy(s.chats, i), heard);
    SubsequenceCounts(ToldBy(s.sent, i), heard);
  }

  /** What a transcript forwarder hears is what it passes on: the client is told
      of transcripts it heard, in their order and none twice, and the chats it
      opens are for FINAL transcripts it heard, in their order and none twice. */
  lemma ForwardsWhatItHears(env: Env, steps: seq<Step>, i: nat)
    requires Legal(env, FRESH, steps)
    ensures PassesOn(Run(env, FRESH, steps), i, HeardBy(steps, i))
  {
    assert InOrder(FRESH, i, []);
    InOrderOverRun(env, FRESH, steps, i, []);
    assert [] + HeardBy(steps, i) == HeardBy(steps, i);
    OrderMeansPassedOn(Run(env, FRESH, steps), i, HeardBy(steps, i));
  }

  lemma {:induction false} PromptedContains(chats: seq<Chat>, c: nat)
    requires c < |chats|
    ensures FinalText(chats[c].prompt) in PromptedBy(chats, chats[c].opener)
  {
    var n := |chats| - 1;
    if c < n {
      PromptedContains(chats[..n], c);
      assert chats[..n][c] == chats[c];
    }
  }

  lemma {:induction false} HeardContains(steps: seq<Step>, i: nat, event: Transcript)
    requires event in HeardBy(steps, i)
    ensures ByForwarder(i, Hear(event)) in steps
  {
    if event !in HeardIn(steps[0], i) { HeardContains(steps[1..], i, event); }
  }

  /** Every chat goes back to a FINAL transcript that its opener heard. */
  lemma PromptWasHeard(env: Env, steps: seq<Step>, c: nat)
    requires Legal(env, FRESH, steps) && c < |Run(env, FRESH, steps).chats|
    ensures var chat := Run(env, FRESH, steps).chats[c];
            ByForwarder(chat.opener, Hear(FinalText(chat.prompt))) in steps
  {
    var chats := Run(env, FRESH, steps).chats;
    var i := chats[c].opener;
    ForwardsWhatItHears(env, steps, i);
    PromptedContains(chats, c);
    assert FinalText(chats[c].prompt) in multiset(HeardBy(steps, i));
    HeardContains(steps, i, FinalText(chats[c].prompt));
  }

  // ---- Snapshots --------------------------------------------------------------------

  /** Whatever forwarder `i` starts as chat `n` or later has seen `base`. */
  ghost predicate Informed(s: Session, i: nat, n: nat, base: seq<ChatMessage>) {
    && base <= s.sh.history
    && (AtOf(s, i).Starting? ==> base <= AtOf(s, i).snapshot)
    && ChatsInformed(s.chats, i, n, base)
  }

  ghost predicate ChatsInformed(chats: seq<Chat>, i: nat, n: nat, base: seq<ChatMessage>) {
    forall c | n <= c < |chats| && chats[c].opener == i :: base <= chats[c].snapshot
  }

  lemma ForwarderKeepsInformed(s: Session, k: nat, f: ForwarderStep, i: nat, n: nat, base: seq<ChatMessage>)
    requires ForwarderEnabled(s, k, f) && Informed(s, i, n, base)
    ensures Informed(ForwarderApply(s, k, f), i, n, base)
  {
    var s' := ForwarderApply(s, k, f);
    assert k != i ==> AtOf(s', i) == AtOf(s, i);
  }

  lemma OthersKeepInformed(env: Env, s: Session, step: Step, i: nat, n: nat, base: seq<ChatMessage>)
    requires Enabled(env, s, step) && !step.ByForwarder? && Informed(s, i, n, base)
    ensures Informed(Apply(env, s, step), i, n, base)
  {
    OthersKeepForwarders(env, s, step, i);
    OthersKeepSnapshots(env, s, step);
  }

  lemma OthersKeepSnapshots(env: Env, s: Session, step: Step)
    requires Enabled(env, s, step) && !step.ByForwarder?
    ensures var s' := Apply(env, s, step);
            && s.sh.history <= s'.sh.history && |s'.chats| == |s.chats|
            && forall c | 0 <= c < |s.chats| ::
                 s'.chats[c].opener == s.chats[c].opener && s'.chats[c].snapshot == s.chats[c].snapshot
  {
    match step
    case ByReader(r) => assert ReaderApply(env, s, r).sh.history == s.sh.history;
    case ByWorker(w) =>
    case ByChat(c, e) => assert s.sh.history <= ChatApply(s, c, e).sh.history;
    case ByWriter(_) =>
    case ByMicrophone(_) =>
  }

  lemma {:induction false} InformedOverRun(
      env: Env, s: Session, steps: seq<Step>, i: nat, n: nat, base: seq<ChatMessage>)
    requires Legal(env, s, steps) && Informed(s, i, n, base)
    ensures Informed(Run(env, s, steps), i, n, base)
    decreases |steps|
  {
    if steps != [] {
      if steps[0].ByForwarder? {
        ForwarderKeepsInformed(s, steps[0].i, steps[0].f, i, n, base);
      } else {
        OthersKeepInformed(env, s, steps[0], i, n, base);
      }
      InformedOverRun(env, Apply(env, s, steps[0]), steps[1..], i, n, base);
    }
  }

  /** A chat is opened with everything the history held at any moment before its
      opener took the snapshot. */
  lemma SnapshotIsComplete(env: Env, s: Session, steps: seq<Step>, c: nat)
    requires Legal(env, s, steps) && |s.chats| <= c < |Run(env, s, steps).chats|
    requires !AtOf(s, Run(env, s, steps).chats[c].opener).Starting?
    ensures s.sh.history <= Run(env, s, steps).chats[c].snapshot
  {
    InformedOverRun(env, s, steps, Run(env, s, steps).chats[c].opener, |s.chats|, s.sh.history);
  }

  // ---- Turns and sentences ------------------------------------------------------------

  /** Forwarder `i` has captured turn `turn`. */
  predicate HasCaptured(forwarders: seq<Forwarder>, i: nat, turn: Turn) {
    i < |forwarders| && !forwarders[i].at.Unstarted? && forwarders[i].turn == turn
  }

  /** The chat has received the sentence of this job. */
  predicate Spoke(c: Chat, job: Job) {
    c.turn == job.turn && exists k | 0 <= k < |c.script| :: k < c.pos && c.script[k] == Chunk(job.text)
  }

  ghost predicate ChatsCarry(chats: seq<Chat>, forwarders: seq<Forwarder>) {
    forall c | 0 <= c < |chats| :: HasCaptured(forwarders, chats[c].opener, chats[c].turn)
  }

  ghost predicate FramesCarry(sent: seq<Out>, forwarders: seq<Forwarder>) {
    forall k | 0 <= k < |sent| && sent[k].TranscriptFrame? :: HasCaptured(forwarders, sent[k].forwarder, sent[k].turn)
  }

  ghost predicate JobsSpoken(enqueued: seq<Job>, chats: seq<Chat>) {
    forall k | 0 <= k < |enqueued| :: SpokenByOne(chats, enqueued[k])
  }

  ghost predicate SpokenByOne(chats: seq<Chat>, job: Job) {
    exists c | 0 <= c < |chats| :: Spoke(chats[c], job)
  }

  /** Where everything a session does comes from. */
  ghost predicate Sourced(s: Session) {
    ChatsCarry(s.chats, s.forwarders) && FramesCarry(s.sent, s.forwarders) && JobsSpoken(s.enqueued, s.chats)
  }

  ghost predicate KeepsCaptures(forwarders: seq<Forwarder>, forwarders': seq<Forwarder>) {
    forall i: nat, turn: Turn | HasCaptured(forwarders, i, turn) :: HasCaptured(forwarders', i, turn)
  }

  ghost predicate KeepsSpoken(chats: seq<Chat>, chats': seq<Chat>) {
    && |chats| <= |chats'|
    && forall c | 0 <= c < |chats| ::
         && chats'[c].opener == chats[c].opener && chats'[c].turn == chats[c].turn
         && chats'[c].script == chats[c].script && chats'[c].pos >= chats[c].pos
  }

  lemma SpokenStays(enqueued: seq<Job>, chats: seq<Chat>, chats': seq<Chat>)
    requires JobsSpoken(enqueued, chats) && KeepsSpoken(chats, chats')
    ensures JobsSpoken(enqueued, chats')
  {
    forall k | 0 <= k < |enqueued| ensures SpokenByOne(chats', enqueued[k]) {
      assert SpokenByOne(chats, enqueued[k]);
      var c :| 0 <= c < |chats| && Spoke(chats[c], enqueued[k]);
      assert Spoke(chats'[c], enqueued[k]);
    }
  }

  lemma ForwarderKeepsSourced(s: Session, i: nat, f: ForwarderStep)
    requires Sourced(s) && ForwarderEnabled(s, i, f)
    ensures Sourced(ForwarderApply(s, i, f))
  {
    var s' := ForwarderApply(s, i, f);
    assert KeepsCaptures(s.forwarders, s'.forwarders);
    ForwarderPuts(s, i, f);
    SpokenStays(s.enqueued, s.chats, s'.chats);
  }

  lemma ChatKeepsSourced(s: Session, c: nat, e: ChatStep)
    requires Sourced(s) && ChatEnabled(s, c, e)
    ensures Sourced(ChatApply(s, c, e))
  {
    var s' := ChatApply(s, c, e);
    ChatPuts(s, c, e);
    SpokenStays(s.enqueued, s.chats, s'.chats);
    if s'.enqueued != s.enqueued {
      var job := Job(s.chats[c].turn, s.chats[c].script[s.chats[c].pos - 1].text);
      assert s'.enqueued == s.enqueued + [job] && Spoke(s'.chats[c], job);
    }
  }

  lemma ReaderKeepsSourced(env: Env, s: Session, r: ReaderStep)
    requires Sourced(s) && ReaderEnabled(s, r)
    ensures Sourced(ReaderApply(env, s, r))
  {
    var s' := ReaderApply(env, s, r);
    assert KeepsCaptures(s.forwarders, s'.forwarders);
    ReaderPuts(env, s, r);
    SpokenStays(s.enqueued, s.chats, s'.chats);
  }

  lemma WorkerKeepsSourced(s: Session, w: WorkerStep)
    requires Sourced(s) && WorkerEnabled(s, w)
    ensures Sourced(WorkerApply(s, w))
  {
    WorkerPuts(s, w);
  }

  lemma StepKeepsSourced(env: Env, s: Session, step: Step)
    requires Sourced(s) && Enabled(env, s, step)
    ensures Sourced(Apply(env, s, step))
  {
    match step
    case ByReader(r) => ReaderKeepsSourced(env, s, r);
    case ByWorker(w) => WorkerKeepsSourced(s, w);
    case ByForwarder(i, f) => ForwarderKeepsSourced(s, i, f);
    case ByChat(c, e) => ChatKeepsSourced(s, c, e);
    case ByWriter(_) =>
    case ByMicrophone(lost) => MicrophonePuts(env, s, lost);
  }

  /** Every chat and every transcript sent carries the turn its forwarder
      captured, and every sentence queued for synthesis is a CHUNK that a chat of
      its turn has received. */
  lemma {:induction false} EverythingIsSourced(env: Env, s: Session, steps: seq<Step>)
    requires Sourced(s) && Legal(env, s, steps)
    ensures Sourced(Run(env, s, steps))
    decreases |steps|
  {
    if steps != [] {
      StepKeepsSourced(env, s, steps[0]);
      EverythingIsSourced(env, Apply(env, s, steps[0]), steps[1..]);
    }
  }
}
