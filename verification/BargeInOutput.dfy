// How much an abandoned turn can still do after the counter has moved on.
// Each bound is a budget that no step increases: what has been put out, plus
// what a goroutine already past its turn check still owes.
module BargeInOutput {
  import opened Common
  import opened BargeIn
  import opened BargeInMessages
  import opened BargeInTurns
  import opened BargeInDrain

  datatype Kind = Text | Format | Sound

  /** A message of the given kind for a turn below `n`. */
  predicate IsStale(out: Out, n: Turn, kind: Kind) {
    match kind
    case Text => out.LlmChunk? && out.turn < n
    case Format => out.AudioFormat? && out.turn < n
    case Sound => out.AudioFrame? && out.turn < n
  }

  function StaleWeight(n: Turn, kind: Kind): Out -> nat {
    (out: Out) => if IsStale(out, n, kind) then 1 else 0
  }

  /** What the worker, past its turn check, may still put out. */
  function Owed(s: Session, n: Turn, kind: Kind): nat
    requires WorkerReady(s)
  {
    if HasVoice(s.worker) && JobInHand(s).turn < n &&
       (s.worker.Telling? || (s.worker.Formatting? && !kind.Text?) || (s.worker.Sending? && kind.Sound?))
    then 1 else 0
  }

  function Budget(s: Session, n: Turn, kind: Kind): nat
    requires WorkerReady(s)
  {
    Tally(s.sent, StaleWeight(n, kind)) + Owed(s, n, kind)
  }

  lemma WorkerKeepsBudget(s: Session, w: WorkerStep, n: Turn, kind: Kind)
    requires WorkerSound(s) && WorkerEnabled(s, w) && n <= s.sh.turn && WorkerReady(WorkerApply(s, w))
    ensures Budget(WorkerApply(s, w), n, kind) <= Budget(s, n, kind)
  {
    WorkerPuts(s, w);
    TallyPut(s.sent, WorkerApply(s, w).sent, StaleWeight(n, kind));
  }

  /** Nobody but the worker puts out a message of these kinds. */
  lemma OthersPutOutNothing(env: Env, s: Session, step: Step, n: Turn, kind: Kind)
    requires Enabled(env, s, step) && !step.ByWorker?
    ensures Tally(Apply(env, s, step).sent, StaleWeight(n, kind)) == Tally(s.sent, StaleWeight(n, kind))
  {
    match step
    case ByReader(r) =>
      ReaderPuts(env, s, r);
      TallyPut(s.sent, ReaderApply(env, s, r).sent, StaleWeight(n, kind));
    case ByForwarder(i, f) =>
      ForwarderPuts(s, i, f);
      TallyPut(s.sent, ForwarderApply(s, i, f).sent, StaleWeight(n, kind));
    case ByChat(c, e) =>
      ChatPuts(s, c, e);
      TallyPut(s.sent, ChatApply(s, c, e).sent, StaleWeight(n, kind));
    case ByWriter(_) =>
    case ByMicrophone(lost) =>
      MicrophonePuts(env, s, lost);
      TallyPut(s.sent, Apply(env, s, step).sent, StaleWeight(n, kind));
  }

  lemma OthersKeepWorkersWork(env: Env, s: Session, step: Step, n: Turn, kind: Kind)
    requires Enabled(env, s, step) && !step.ByWorker? && WorkerReady(s) && WorkerReady(Apply(env, s, step))
    ensures Owed(Apply(env, s, step), n, kind) == Owed(s, n, kind)
  {
    if step.ByReader? { ReaderKeepsVoices(env, s, step.r); }
  }

  lemma StepKeepsBudget(env: Env, s: Session, step: Step, n: Turn, kind: Kind)
    requires Inv(env, s) && Enabled(env, s, step) && n <= s.sh.turn
    ensures Inv(env, Apply(env, s, step)) && n <= Apply(env, s, step).sh.turn
    ensures Budget(Apply(env, s, step), n, kind) <= Budget(s, n, kind)
  {
    StepKeepsInv(env, s, step);
    CounterMoves(env, s, step);
    if step.ByWorker? {
      WorkerKeepsBudget(s, step.w, n, kind);
    } else {
      OthersPutOutNothing(env, s, step, n, kind);
      OthersKeepWorkersWork(env, s, step, n, kind);
    }
  }

  lemma {:induction false} BudgetOverRun(env: Env, s: Session, steps: seq<Step>, n: Turn, kind: Kind)
    requires Inv(env, s) && Legal(env, s, steps) && n <= s.sh.turn
    ensures Inv(env, Run(env, s, steps)) && Budget(Run(env, s, steps), n, kind) <= Budget(s, n, kind)
    decreases |steps|
  {
    if steps != [] {
      StepKeepsBudget(env, s, steps[0], n, kind);
      BudgetOverRun(env, Apply(env, s, steps[0]), steps[1..], n, kind);
    }
  }

  /** Bounded stale output: from any reachable state whose counter has reached
      `n`, whatever happens next, the worker puts out for all turns below `n`
      together at most one llm_chunk, one audio_format and one audio frame. */
  lemma StaleOutputBound(env: Env, before: seq<Step>, after: seq<Step>, n: Turn, kind: Kind)
    requires Legal(env, FRESH, before) && Legal(env, Run(env, FRESH, before), after)
    requires n <= Run(env, FRESH, before).sh.turn
    ensures var s := Run(env, FRESH, before);
            Tally(Run(env, s, after).sent, StaleWeight(n, kind)) <= Tally(s.sent, StaleWeight(n, kind)) + 1
  {
    ReachableInv(env, FRESH, before);
    BudgetOverRun(env, Run(env, FRESH, before), after, n, kind);
  }

  // ---- Transcripts ----------------------------------------------------------------------

  function TranscriptWeight(n: Turn, i: nat): Out -> nat {
    (out: Out) => if out.TranscriptFrame? && out.forwarder == i && out.turn < n then 1 else 0
  }

  function TranscriptOwed(s: Session, n: Turn, i: nat): nat {
    if i < |s.forwarders| && s.forwarders[i].at.Acting? && s.forwarders[i].turn < n then 1 else 0
  }

  function TranscriptBudget(s: Session, n: Turn, i: nat): nat {
    Tally(s.sent, TranscriptWeight(n, i)) + TranscriptOwed(s, n, i)
  }

  lemma ForwarderKeepsTranscripts(s: Session, k: nat, f: ForwarderStep, n: Turn, i: nat)
    requires ForwarderEnabled(s, k, f) && n <= s.sh.turn
    ensures TranscriptBudget(ForwarderApply(s, k, f), n, i) <= TranscriptBudget(s, n, i)
  {
    ForwarderPuts(s, k, f);
    TallyPut(s.sent, ForwarderApply(s, k, f).sent, TranscriptWeight(n, i));
  }

  /** Nobody but a forwarder puts out transcripts. */
  lemma OthersPutNoTranscript(env: Env, s: Session, step: Step, n: Turn, i: nat)
    requires Enabled(env, s, step) && !step.ByForwarder?
    ensures Tally(Apply(env, s, step).sent, TranscriptWeight(n, i)) == Tally(s.sent, TranscriptWeight(n, i))
  {
    match step
    case ByReader(r) =>
      ReaderPuts(env, s, r);
      TallyPut(s.sent, ReaderApply(env, s, r).sent, TranscriptWeight(n, i));
    case ByWorker(w) =>
      WorkerPuts(s, w);
      TallyPut(s.sent, WorkerApply(s, w).sent, TranscriptWeight(n, i));
    case ByChat(c, e) =>
      ChatPuts(s, c, e);
      TallyPut(s.sent, ChatApply(s, c, e).sent, TranscriptWeight(n, i));
    case ByWriter(_) =>
    case ByMicrophone(lost) =>
      MicrophonePuts(env, s, lost);
      TallyPut(s.sent, Apply(env, s, step).sent, TranscriptWeight(n, i));
  }

  lemma OthersOweNoTranscript(env: Env, s: Session, step: Step, n: Turn, i: nat)
    requires Enabled(env, s, step) && !step.ByForwarder?
    ensures TranscriptOwed(Apply(env, s, step), n, i) == TranscriptOwed(s, n, i)
  {
  }

  lemma {:induction false} TranscriptsOverRun(env: Env, s: Session, steps: seq<Step>, n: Turn, i: nat)
    requires Inv(env, s) && Legal(env, s, steps) && n <= s.sh.turn
    ensures TranscriptBudget(Run(env, s, steps), n, i) <= TranscriptBudget(s, n, i)
    decreases |steps|
  {
    if steps != [] {
      StepKeepsInv(env, s, steps[0]);
      CounterMoves(env, s, steps[0]);
      if steps[0].ByForwarder? {
        ForwarderKeepsTranscripts(s, steps[0].i, steps[0].f, n, i);
      } else {
        OthersPutNoTranscript(env, s, steps[0], n, i);
        OthersOweNoTranscript(env, s, steps[0], n, i);
      }
      TranscriptsOverRun(env, Apply(env, s, steps[0]), steps[1..], n, i);
    }
  }

  /** And each transcript forwarder puts out at most one more transcript. */
  lemma StaleTranscriptBound(env: Env, before: seq<Step>, after: seq<Step>, n: Turn, i: nat)
    requires Legal(env, FRESH, before) && Legal(env, Run(env, FRESH, before), after)
    requires n <= Run(env, FRESH, before).sh.turn
    ensures var s := Run(env, FRESH, before);
            Tally(Run(env, s, after).sent, TranscriptWeight(n, i)) <= Tally(s.sent, TranscriptWeight(n, i)) + 1
  {
    ReachableInv(env, FRESH, before);
    TranscriptsOverRun(env, Run(env, FRESH, before), after, n, i);
  }

  // ---- LLM chats ------------------------------------------------------------------------

  function OpenedFor(n: Turn, i: nat): Chat -> nat { (c: Chat) => if c.opener == i && c.turn < n then 1 else 0 }

  /** A forwarder past its second turn check still opens its chat. */
  function ChatOwed(s: Session, n: Turn, i: nat): nat {
    if i < |s.forwarders| && s.forwarders[i].turn < n &&
       (s.forwarders[i].at.Snapshotting? || s.forwarders[i].at.Starting?)
    then 1 else 0
  }

  function ChatBudget(s: Session, n: Turn, i: nat): nat {
    Tally(s.chats, OpenedFor(n, i)) + ChatOwed(s, n, i)
  }

  lemma ForwarderKeepsChatBudget(s: Session, k: nat, f: ForwarderStep, n: Turn, i: nat)
    requires ForwarderEnabled(s, k, f) && n <= s.sh.turn
    ensures ChatBudget(ForwarderApply(s, k, f), n, i) <= ChatBudget(s, n, i)
  {
    var at := s.forwarders[k].at;
    if f.ChatOpens? {
      TallySnoc(s.chats, NewChat(k, s.forwarders[k], f.origin, f.script), OpenedFor(n, i));
    } else if f.Spawn? {
      TallyUpdate(s.chats, at.chat, s.chats[at.chat].(at := Pending), OpenedFor(n, i));
    }
  }

  lemma ReaderOpensNoChat(env: Env, s: Session, r: ReaderStep, n: Turn, i: nat)
    requires ReaderEnabled(s, r)
    ensures Tally(ReaderApply(env, s, r).chats, OpenedFor(n, i)) == Tally(s.chats, OpenedFor(n, i))
  {
    if r.CloseLlm? && s.reader.llm.Some? {
      var c := s.reader.llm.value;
      TallyUpdate(s.chats, c, s.chats[c].(closed := true), OpenedFor(n, i));
    }
  }

  lemma ChatOpensNoChat(s: Session, c: nat, e: ChatStep, n: Turn, i: nat)
    requires ChatEnabled(s, c, e)
    ensures Tally(ChatApply(s, c, e).chats, OpenedFor(n, i)) == Tally(s.chats, OpenedFor(n, i))
  {
    TallyUpdate(s.chats, c, ChatAfter(s.chats[c], s.sh.turn, e), OpenedFor(n, i));
  }

  lemma OthersOpenNoChat(env: Env, s: Session, step: Step, n: Turn, i: nat)
    requires Enabled(env, s, step) && !step.ByForwarder?
    ensures Tally(Apply(env, s, step).chats, OpenedFor(n, i)) == Tally(s.chats, OpenedFor(n, i))
  {
    if step.ByReader? {
      ReaderOpensNoChat(env, s, step.r, n, i);
    } else if step.ByChat? {
      ChatOpensNoChat(s, step.c, step.e, n, i);
    }
  }

  lemma OthersOweNoChat(env: Env, s: Session, step: Step, n: Turn, i: nat)
    requires Enabled(env, s, step) && !step.ByForwarder?
    ensures ChatOwed(Apply(env, s, step), n, i) == ChatOwed(s, n, i)
  {
  }

  lemma {:induction false} ChatsOverRun(env: Env, s: Session, steps: seq<Step>, n: Turn, i: nat)
    requires Inv(env, s) && Legal(env, s, steps) && n <= s.sh.turn
    ensures ChatBudget(Run(env, s, steps), n, i) <= ChatBudget(s, n, i)
    decreases |steps|
  {
    if steps != [] {
      StepKeepsInv(env, s, steps[0]);
      CounterMoves(env, s, steps[0]);
      if steps[0].ByForwarder? {
        ForwarderKeepsChatBudget(s, steps[0].i, steps[0].f, n, i);
      } else {
        OthersOpenNoChat(env, s, steps[0], n, i);
        OthersOweNoChat(env, s, steps[0], n, i);
      }
      ChatsOverRun(env, Apply(env, s, steps[0]), steps[1..], n, i);
    }
  }

  /** Each transcript forwarder opens at most one more LLM stream for turns that
      are over, and none unless it was already past its check. */
  lemma StaleChatBound(env: Env, before: seq<Step>, after: seq<Step>, n: Turn, i: nat)
    requires Legal(env, FRESH, before) && Legal(env, Run(env, FRESH, before), after)
    requires n <= Run(env, FRESH, before).sh.turn
    ensures var s := Run(env, FRESH, before);
            Tally(Run(env, s, after).chats, OpenedFor(n, i)) <= Tally(s.chats, OpenedFor(n, i)) + ChatOwed(s, n, i)
  {
    ReachableInv(env, FRESH, before);
    ChatsOverRun(env, Run(env, FRESH, before), after, n, i);
  }

  // ---- Queued sentences and synthesis --------------------------------------------------------

  function JobWeight(n: Turn): Job -> nat { (job: Job) => if job.turn < n then 1 else 0 }

  function StaleSentence(n: Turn): Chat -> nat { (c: Chat) => if c.turn < n then HasSentence(c) else 0 }

  function VoiceWeight(n: Turn): Voice -> nat { (v: Voice) => if v.job.turn < n then 1 else 0 }

  function SentenceBudget(s: Session, n: Turn): nat {
    Tally(s.enqueued, JobWeight(n)) + Tally(s.chats, StaleSentence(n))
  }

  /** Streams opened for old turns, and the one the worker is committed to. */
  function SynthesisBudget(s: Session, n: Turn): nat {
    Tally(s.voices, VoiceWeight(n)) + if s.worker.Calling? && s.worker.job.turn < n then 1 else 0
  }

  lemma ChatKeepsSentences(s: Session, c: nat, e: ChatStep, n: Turn)
    requires ChatEnabled(s, c, e) && n <= s.sh.turn
    ensures SentenceBudget(ChatApply(s, c, e), n) <= SentenceBudget(s, n)
  {
    TallyUpdate(s.chats, c, ChatAfter(s.chats[c], s.sh.turn, e), StaleSentence(n));
    var chat := s.chats[c];
    if e.Handle? && chat.script[chat.pos - 1].Chunk? {
      TallySnoc(s.enqueued, Job(chat.turn, chat.script[chat.pos - 1].text), JobWeight(n));
    }
  }

  lemma ReaderKeepsSentences(env: Env, s: Session, r: ReaderStep, n: Turn)
    requires ReaderEnabled(s, r)
    ensures SentenceBudget(ReaderApply(env, s, r), n) == SentenceBudget(s, n)
  {
    if r.CloseLlm? && s.reader.llm.Some? {
      TallyUpdate(s.chats, s.reader.llm.value, s.chats[s.reader.llm.value].(closed := true), StaleSentence(n));
    }
  }

  lemma ForwarderKeepsSentences(env: Env, s: Session, i: nat, f: ForwarderStep, n: Turn)
    requires ForwarderEnabled(s, i, f)
    ensures SentenceBudget(ForwarderApply(s, i, f), n) <= SentenceBudget(s, n)
  {
    var at := s.forwarders[i].at;
    if f.ChatOpens? {
      TallySnoc(s.chats, NewChat(i, s.forwarders[i], f.origin, f.script), StaleSentence(n));
    } else if f.Spawn? {
      TallyUpdate(s.chats, at.chat, s.chats[at.chat].(at := Pending), StaleSentence(n));
    }
  }

  lemma WorkerKeepsSentences(s: Session, w: WorkerStep, n: Turn)
    requires WorkerEnabled(s, w)
    ensures SentenceBudget(WorkerApply(s, w), n) == SentenceBudget(s, n)
  {
    assert WorkerApply(s, w).enqueued == s.enqueued;
  }

  lemma OthersKeepSentences(env: Env, s: Session, step: Step, n: Turn)
    requires Enabled(env, s, step) && !step.ByChat?
    ensures SentenceBudget(Apply(env, s, step), n) <= SentenceBudget(s, n)
  {
    if step.ByReader? {
      ReaderKeepsSentences(env, s, step.r, n);
    } else if step.ByForwarder? {
      ForwarderKeepsSentences(env, s, step.i, step.f, n);
    } else if step.ByWorker? {
      WorkerKeepsSentences(s, step.w, n);
    }
  }

  lemma WorkerKeepsSynthesis(s: Session, w: WorkerStep, n: Turn)
    requires WorkerEnabled(s, w) && n <= s.sh.turn
    ensures SynthesisBudget(WorkerApply(s, w), n) <= SynthesisBudget(s, n)
  {
    var s' := WorkerApply(s, w);
    if w.VoiceOpens? {
      TallySnoc(s.voices, s'.voices[|s.voices|], VoiceWeight(n));
    } else if HasVoice(s.worker) {
      TallyUpdate(s.voices, s.worker.voice, s'.voices[s.worker.voice], VoiceWeight(n));
      assert s'.voices == s.voices[s.worker.voice := s'.voices[s.worker.voice]];
    }
  }

  lemma ReaderKeepsSynthesis(env: Env, s: Session, r: ReaderStep, n: Turn)
    requires ReaderEnabled(s, r)
    ensures SynthesisBudget(ReaderApply(env, s, r), n) == SynthesisBudget(s, n)
  {
    if r.CloseTts? && s.reader.tts.Some? {
      TallyUpdate(s.voices, s.reader.tts.value, s.voices[s.reader.tts.value].(closed := true), VoiceWeight(n));
    }
  }

  lemma OthersKeepSynthesis(env: Env, s: Session, step: Step, n: Turn)
    requires Enabled(env, s, step) && !step.ByWorker?
    ensures SynthesisBudget(Apply(env, s, step), n) == SynthesisBudget(s, n)
  {
    if step.ByReader? { ReaderKeepsSynthesis(env, s, step.r, n); }
  }

  lemma {:induction false} WorkOverRun(env: Env, s: Session, steps: seq<Step>, n: Turn)
    requires Inv(env, s) && Legal(env, s, steps) && n <= s.sh.turn
    ensures SentenceBudget(Run(env, s, steps), n) <= SentenceBudget(s, n)
    ensures SynthesisBudget(Run(env, s, steps), n) <= SynthesisBudget(s, n)
    decreases |steps|
  {
    if steps != [] {
      var step := steps[0];
      StepKeepsInv(env, s, step);
      CounterMoves(env, s, step);
      if step.ByChat? { ChatKeepsSentences(s, step.c, step.e, n); } else { OthersKeepSentences(env, s, step, n); }
      if step.ByWorker? { WorkerKeepsSynthesis(s, step.w, n); } else { OthersKeepSynthesis(env, s, step, n); }
      WorkOverRun(env, Apply(env, s, step), steps[1..], n);
    }
  }

  /** After the counter has reached `n`: of the sentences of earlier turns only
      those already past their chat's check can still be queued, and at most one
      synthesis -- the call the worker is committed to -- still starts; a stale
      job left in the queue is never synthesised. */
  lemma StaleWorkBound(env: Env, before: seq<Step>, after: seq<Step>, n: Turn)
    requires Legal(env, FRESH, before) && Legal(env, Run(env, FRESH, before), after)
    requires n <= Run(env, FRESH, before).sh.turn
    ensures var s := Run(env, FRESH, before);
            var s' := Run(env, s, after);
            && Tally(s'.enqueued, JobWeight(n)) <= Tally(s.enqueued, JobWeight(n)) + Tally(s.chats, StaleSentence(n))
            && Tally(s'.voices, VoiceWeight(n)) <= Tally(s.voices, VoiceWeight(n)) + 1
            && (!s.worker.Calling? ==> Tally(s'.voices, VoiceWeight(n)) <= Tally(s.voices, VoiceWeight(n)))
  {
    ReachableInv(env, FRESH, before);
    WorkOverRun(env, Run(env, FRESH, before), after, n);
  }
}
