// One WebSocket session of the gateway (internal/ws/session.go) as a labelled
// transition system.  The reader, the text-to-speech worker, the transcript
// forwarders and the chat forwarders are goroutines; every atomic load or add,
// locked section, channel operation and network call is a step of its own, so
// whatever holds for all step sequences holds under every schedule.
module BargeIn {
  import opened Common
  import opened ChatReply
  import opened Synthesis

  type Turn = nat

  datatype Job = Job(turn: Turn, text: string)

  datatype Transcript = PartialText(text: string) | FinalText(text: string) | TranscriptError(code: string)

  const TTS_QUEUE := 32
  const SEND_BUFFER := 32

  // What goes out to the client.
  datatype Out =
    | Interrupted(turn: Turn)
    | TranscriptFrame(turn: Turn, forwarder: nat, final: bool, text: string)
    | LlmChunk(turn: Turn, voice: nat, text: string)
    | AudioFormat(turn: Turn, voice: nat)
    | AudioFrame(turn: Turn, voice: nat, index: nat, data: int)
    | ErrorFrame(code: string)

  // ---- The session's fields ----------------------------------------------------

  /** The fields several goroutines share.  Chats and voices are the LLM and
      TTS streams, named by the order in which they were opened. */
  datatype Shared = Shared(turn: Turn, activeLlm: Option<nat>, activeTts: Option<nat>,
                           history: seq<ChatMessage>, ttsQueue: seq<Job>)

  function AddTurn(sh: Shared): Shared { sh.(turn := sh.turn + 1) }

  function SwapOut(sh: Shared): Shared { sh.(activeLlm := None, activeTts := None) }

  function DrainHead(sh: Shared): Shared
    requires sh.ttsQueue != []
  {
    sh.(ttsQueue := sh.ttsQueue[1..])
  }

  function PublishLlm(sh: Shared, chat: nat): Shared { sh.(activeLlm := Some(chat)) }

  /** synthesizeAndSend's locked section: publish unless the turn moved on. */
  function PublishTts(sh: Shared, voice: nat, turn: Turn): Shared {
    if sh.turn == turn then sh.(activeTts := Some(voice)) else sh
  }

  function ClearTts(sh: Shared, voice: nat): Shared {
    if sh.activeTts == Some(voice) then sh.(activeTts := None) else sh
  }

  function UserMessage(prompt: string): ChatMessage { ChatMessage("user", prompt) }

  function AssistantMessage(text: string): ChatMessage { ChatMessage("assistant", text) }

  /** The locked section at DONE. */
  function Conclude(sh: Shared, prompt: string, text: string): Shared {
    sh.(activeLlm := None, history := sh.history + [UserMessage(prompt), AssistantMessage(text)])
  }

  function EnqueueJob(sh: Shared, job: Job): Shared {
    if |sh.ttsQueue| < TTS_QUEUE then sh.(ttsQueue := sh.ttsQueue + [job]) else sh
  }

  // ---- The goroutines --------------------------------------------------------------

  // beginNewTurn, between its steps.
  datatype Reader =
    | Reading
    | Bumped(turn: Turn)
    | Swapped(turn: Turn, llm: Option<nat>, tts: Option<nat>)
    | ClosingTts(turn: Turn, tts: Option<nat>, interrupted: bool)
    | Draining(turn: Turn, interrupted: bool)
    | Announcing(turn: Turn)
    | Connecting(turn: Turn)
    | Left

  // ttsWorker and synthesizeAndSend.  `index` is a job's place among all jobs
  // ever queued; `announced` is formatSent.
  datatype Worker =
    | Idle
    | Taken(job: Job, index: nat)
    | Calling(job: Job, index: nat)
    | Holding(voice: nat)
    | Discarding(voice: nat)
    | Listening(voice: nat, announced: bool)
    | Testing(voice: nat, announced: bool)
    | Telling(voice: nat)
    | Formatting(voice: nat)
    | Sending(voice: nat)
    | Failing(voice: nat)
    | Clearing(voice: nat)
    | Stopped

  // forwardTranscripts and startLLMChat.
  datatype ForwarderAt =
    | Unstarted
    | Awaiting
    | Checking(event: Transcript)
    | Acting(event: Transcript)
    | Prompting(prompt: string)
    | Snapshotting(prompt: string)
    | Starting(prompt: string, snapshot: seq<ChatMessage>)
    | Publishing(chat: nat)
    | Spawning(chat: nat)
    | Ended

  datatype Forwarder = Forwarder(openedIn: Turn, turn: Turn, at: ForwarderAt)

  // forwardLLMEvents.
  datatype ChatAt = Unspawned | Pending | Weighing | Handling | Over

  // `script` is everything its Events channel could deliver, `pos` how much has
  // been received; the event in hand is script[pos - 1].  `opener` is the
  // transcript forwarder that opened it; `ended` says that its channel has
  // closed or delivered DONE.
  datatype Chat = Chat(opener: nat, turn: Turn, prompt: string, snapshot: seq<ChatMessage>, origin: Generation,
                       script: seq<ChatEvent>, pos: nat, closed: bool, ended: bool, at: ChatAt, text: string)

  // `synthesised` is every chunk the service could send for the sentence.
  datatype Voice = Voice(job: Job, index: nat, synthesised: seq<int>, script: seq<VoiceEvent>,
                         pos: nat, closed: bool, ended: bool)

  // `enqueued`, `discarded` and `credited` are histories: every job queued, the
  // jobs drained (with the turn that drained them), and the chats whose DONE
  // was recorded.
  datatype Session = Session(
    sh: Shared, reader: Reader, worker: Worker,
    forwarders: seq<Forwarder>, chats: seq<Chat>, voices: seq<Voice>,
    sent: seq<Out>, written: nat, writing: bool, over: bool,
    enqueued: seq<Job>, discarded: seq<(Turn, Job)>, credited: seq<nat>)

  const FRESH := Session(Shared(0, None, None, [], []), Reading, Idle, [], [], [], [], 0, true, false, [], [], [])

  /** `promptCapture` is a scheduling assumption: a transcript forwarder reads
      its turn before the reader goes on, that is, as part of being spawned. */
  datatype Env = Env(settings: Settings, promptCapture: bool)

  datatype ReaderStep = AddOne | Swap | CloseLlm | CloseTts | Drain | DrainDone | Announce(lost: bool)
    | SttOpens | SttFails(lost: bool) | Refuse(code: string, lost: bool) | Leave

  datatype ForwarderStep = Capture | Hear(event: Transcript) | HearEnd | TestTurn | Act(lost: bool)
    | TestPrompt | Snapshot | ChatOpens(origin: Generation, script: seq<ChatEvent>) | ChatFails(lost: bool)
    | Publish | Spawn

  datatype ChatStep = Receive | ReceiveEnd | Weigh | Handle(lost: bool)

  datatype WorkerStep = Take | TestJob
    | VoiceOpens(synthesised: seq<int>, script: seq<VoiceEvent>) | VoiceFails(lost: bool)
    | Recheck | CloseOwn | Listen | ListenEnd | TestChunk | TellText(lost: bool) | TellFormat(lost: bool)
    | SendAudio | GiveUp | ReportError(lost: bool) | Clear | Stop

  // writePump: a message written, or a failed write or ping after which it leaves.
  datatype WriterStep = WriteOne | WriteFails(taken: bool)

  // ByMicrophone: audioSendWorker reports a failed send.  The rest of it, and
  // endUtterance, is in MicrophonePath; WholeSession puts the two together.
  datatype Step = ByReader(r: ReaderStep) | ByWorker(w: WorkerStep) | ByForwarder(i: nat, f: ForwarderStep)
    | ByChat(c: nat, e: ChatStep) | ByWriter(p: WriterStep) | ByMicrophone(lost: bool)

  // ---- The send channel --------------------------------------------------------------

  /** sendJSON gives up when the buffer is full or the session is over. */
  predicate CanPost(s: Session, lost: bool) {
    if lost then |s.sent| >= s.written + SEND_BUFFER || s.over else |s.sent| < s.written + SEND_BUFFER
  }

  function Post(s: Session, out: Out, lost: bool): Session {
    if lost then s else s.(sent := s.sent + [out])
  }

  // ---- The reader -----------------------------------------------------------------------

  predicate ReaderEnabled(s: Session, step: ReaderStep) {
    match step
    case AddOne => s.reader.Reading?
    case Swap => s.reader.Bumped?
    case CloseLlm => s.reader.Swapped? && (s.reader.llm.Some? ==> s.reader.llm.value < |s.chats|)
    case CloseTts => s.reader.ClosingTts? && (s.reader.tts.Some? ==> s.reader.tts.value < |s.voices|)
    case Drain => s.reader.Draining? && s.sh.ttsQueue != []
    case DrainDone => s.reader.Draining? && s.sh.ttsQueue == []
    case Announce(lost) => s.reader.Announcing? && CanPost(s, lost)
    case SttOpens => s.reader.Connecting?
    case SttFails(lost) => s.reader.Connecting? && CanPost(s, lost)
    case Refuse(_, lost) => s.reader.Reading? && CanPost(s, lost)
    case Leave => s.reader.Reading?
  }

  function ReaderApply(env: Env, s: Session, step: ReaderStep): Session
    requires ReaderEnabled(s, step)
  {
    match step
    case AddOne =>
      s.(sh := AddTurn(s.sh), reader := Bumped(s.sh.turn + 1))
    case Swap =>
      s.(sh := SwapOut(s.sh), reader := Swapped(s.reader.turn, s.sh.activeLlm, s.sh.activeTts))
    case CloseLlm =>
      var llm := s.reader.llm;
      s.(chats := if llm.Some? then s.chats[llm.value := s.chats[llm.value].(closed := true)] else s.chats,
         reader := ClosingTts(s.reader.turn, s.reader.tts, llm.Some?))
    case CloseTts =>
      var tts := s.reader.tts;
      s.(voices := if tts.Some? then s.voices[tts.value := s.voices[tts.value].(closed := true)] else s.voices,
         reader := Draining(s.reader.turn, s.reader.interrupted || tts.Some?))
    case Drain =>
      s.(sh := DrainHead(s.sh), reader := Draining(s.reader.turn, true),
         discarded := s.discarded + [(s.reader.turn, s.sh.ttsQueue[0])])
    case DrainDone =>
      s.(reader := if s.reader.interrupted then Announcing(s.reader.turn) else Connecting(s.reader.turn))
    case Announce(lost) =>
      Post(s, Interrupted(s.reader.turn), lost).(reader := Connecting(s.reader.turn))
    case SttOpens =>
      s.(reader := Reading,
         forwarders := s.forwarders + [if env.promptCapture then Forwarder(s.reader.turn, s.sh.turn, Awaiting)
                                       else Forwarder(s.reader.turn, 0, Unstarted)])
    case SttFails(lost) =>
      Post(s, ErrorFrame("stt_unavailable"), lost).(reader := Reading)
    case Refuse(code, lost) =>
      Post(s, ErrorFrame(code), lost)
    case Leave =>
      s.(reader := Left, over := true)
  }

  // ---- Transcript forwarders ------------------------------------------------------------

  predicate ForwarderReady(at: ForwarderAt, step: ForwarderStep) {
    match step
    case Capture => at.Unstarted?
    case Hear(_) => at.Awaiting?
    case HearEnd => at.Awaiting?
    case TestTurn => at.Checking?
    case Act(_) => at.Acting?
    case TestPrompt => at.Prompting?
    case Snapshot => at.Snapshotting?
    case ChatOpens(_, _) => at.Starting?
    case ChatFails(_) => at.Starting?
    case Publish => at.Publishing?
    case Spawn => at.Spawning?
  }

  predicate ForwarderEnabled(s: Session, i: nat, step: ForwarderStep) {
    && i < |s.forwarders| && ForwarderReady(s.forwarders[i].at, step)
    && (step.Act? || step.ChatFails? ==> CanPost(s, step.lost))
    && (step.Spawn? ==> s.forwarders[i].at.chat < |s.chats|)
  }

  function NewChat(opener: nat, f: Forwarder, origin: Generation, script: seq<ChatEvent>): Chat
    requires f.at.Starting?
  {
    Chat(opener, f.turn, f.at.prompt, f.at.snapshot, origin, script, 0, false, false, Unspawned, "")
  }

  /** What a step does to the transcript forwarder itself; `chats` chats exist. */
  function ForwarderAfter(f: Forwarder, sh: Shared, chats: nat, step: ForwarderStep): Forwarder
    requires ForwarderReady(f.at, step)
  {
    match step
    case Capture => f.(turn := sh.turn, at := Awaiting)
    case Hear(event) => f.(at := Checking(event))
    case HearEnd => f.(at := Ended)
    case TestTurn => f.(at := if sh.turn == f.turn then Acting(f.at.event) else Awaiting)
    case Act(_) => f.(at := if f.at.event.FinalText? then Prompting(f.at.event.text) else Awaiting)
    case TestPrompt => f.(at := if sh.turn == f.turn then Snapshotting(f.at.prompt) else Awaiting)
    case Snapshot => f.(at := Starting(f.at.prompt, sh.history))
    case ChatOpens(_, _) => f.(at := Publishing(chats))
    case ChatFails(_) => f.(at := Awaiting)
    case Publish => f.(at := Spawning(f.at.chat))
    case Spawn => f.(at := Awaiting)
  }

  function TranscriptOut(i: nat, turn: Turn, event: Transcript): Out {
    if event.TranscriptError? then ErrorFrame(event.code)
    else TranscriptFrame(turn, i, event.FinalText?, event.text)
  }

  function ForwarderApply(s: Session, i: nat, step: ForwarderStep): (r: Session)
    requires ForwarderEnabled(s, i, step)
    ensures r.reader == s.reader && r.worker == s.worker && r.voices == s.voices && r.over == s.over
    ensures r.sh == s.sh.(activeLlm := r.sh.activeLlm)
    ensures r.forwarders == s.forwarders[i := ForwarderAfter(s.forwarders[i], s.sh, |s.chats|, step)]
  {
    var f := s.forwarders[i];
    var s' := s.(forwarders := s.forwarders[i := ForwarderAfter(f, s.sh, |s.chats|, step)]);
    match step
    case Act(lost) => Post(s', TranscriptOut(i, f.turn, f.at.event), lost)
    case ChatOpens(origin, script) => s'.(chats := s.chats + [NewChat(i, f, origin, script)])
    case ChatFails(lost) => Post(s', ErrorFrame("llm_unavailable"), lost)
    case Publish => s'.(sh := PublishLlm(s.sh, f.at.chat))
    case Spawn => s'.(chats := s.chats[f.at.chat := s.chats[f.at.chat].(at := Pending)])
    case _ => s'
  }

  // ---- Chat forwarders --------------------------------------------------------------------

  predicate ChatReady(chat: Chat, step: ChatStep) {
    match step
    case Receive => chat.at.Pending? && chat.pos < |chat.script|
    case ReceiveEnd => chat.at.Pending?
    case Weigh => chat.at.Weighing?
    case Handle(_) => chat.at.Handling? && 0 < chat.pos <= |chat.script|
  }

  predicate ChatEnabled(s: Session, c: nat, step: ChatStep) {
    c < |s.chats| && ChatReady(s.chats[c], step) && (step.Handle? ==> CanPost(s, step.lost))
  }

  /** What a step does to the chat forwarder itself, under the current turn. */
  function ChatAfter(chat: Chat, turn: Turn, step: ChatStep): Chat
    requires ChatReady(chat, step)
  {
    match step
    case Receive => chat.(pos := chat.pos + 1, at := Weighing)
    case ReceiveEnd => chat.(at := Over, ended := true)
    case Weigh => chat.(at := if turn == chat.turn then Handling else Over)
    case Handle(_) =>
      var event := chat.script[chat.pos - 1];
      chat.(at := Pending, ended := chat.ended || event.Done?,
            text := if event.Chunk? then chat.text + event.text else chat.text)
  }

  function ChatApply(s: Session, c: nat, step: ChatStep): (r: Session)
    requires ChatEnabled(s, c, step)
    ensures r.reader == s.reader && r.worker == s.worker && r.voices == s.voices && r.over == s.over
    ensures r.forwarders == s.forwarders && r.sh.turn == s.sh.turn && r.sh.activeTts == s.sh.activeTts
    ensures r.chats == s.chats[c := ChatAfter(s.chats[c], s.sh.turn, step)]
  {
    var chat := s.chats[c];
    var s' := s.(chats := s.chats[c := ChatAfter(chat, s.sh.turn, step)]);
    match step
    case Handle(lost) =>
      (match chat.script[chat.pos - 1]
       case Chunk(text) =>
         var job := Job(chat.turn, text);
         s'.(sh := EnqueueJob(s.sh, job),
             enqueued := if |s.sh.ttsQueue| < TTS_QUEUE then s.enqueued + [job] else s.enqueued)
       case Done =>
         s'.(sh := Conclude(s.sh, chat.prompt, chat.text), credited := s.credited + [c])
       case Error(code, _) =>
         Post(s', ErrorFrame(code), lost))
    case _ => s'
  }

  // ---- The worker ---------------------------------------------------------------------------

  predicate HasVoice(w: Worker) {
    !w.Idle? && !w.Taken? && !w.Calling? && !w.Stopped?
  }

  /** The worker is between receiving an event and being done with it. */
  predicate HasEvent(w: Worker) {
    w.Testing? || w.Telling? || w.Formatting? || w.Sending? || w.Failing?
  }

  predicate WorkerReady(s: Session) {
    HasVoice(s.worker) ==>
      && s.worker.voice < |s.voices|
      && (HasEvent(s.worker) ==> 0 < s.voices[s.worker.voice].pos <= |s.voices[s.worker.voice].script|)
  }

  function EventInHand(s: Session): VoiceEvent
    requires WorkerReady(s) && HasEvent(s.worker)
  {
    var v := s.voices[s.worker.voice];
    v.script[v.pos - 1]
  }

  predicate WorkerEnabled(s: Session, step: WorkerStep) {
    WorkerReady(s) &&
    match step
    case Take => s.worker.Idle? && s.sh.ttsQueue != [] && |s.sh.ttsQueue| <= |s.enqueued|
    case TestJob => s.worker.Taken?
    case VoiceOpens(_, _) => s.worker.Calling?
    case VoiceFails(lost) => s.worker.Calling? && CanPost(s, lost)
    case Recheck => s.worker.Holding?
    case CloseOwn => s.worker.Discarding?
    case Listen => s.worker.Listening? && s.voices[s.worker.voice].pos < |s.voices[s.worker.voice].script|
    case ListenEnd => s.worker.Listening?
    case TestChunk => s.worker.Testing?
    case TellText(lost) => s.worker.Telling? && CanPost(s, lost)
    case TellFormat(lost) => s.worker.Formatting? && CanPost(s, lost)
    case SendAudio => s.worker.Sending? && EventInHand(s).Audio? && CanPost(s, false)
    case GiveUp => s.worker.Sending? && s.over
    case ReportError(lost) => s.worker.Failing? && EventInHand(s).VoiceError? && CanPost(s, lost)
    case Clear => s.worker.Clearing?
    case Stop => s.worker.Idle? && s.over
  }

  function JobInHand(s: Session): Job
    requires WorkerReady(s) && HasVoice(s.worker)
  {
    s.voices[s.worker.voice].job
  }

  /** The frame for the event in hand. */
  function FrameInHand(s: Session): Out
    requires WorkerReady(s) && HasEvent(s.worker) && EventInHand(s).Audio?
  {
    AudioFrame(JobInHand(s).turn, s.worker.voice, s.voices[s.worker.voice].pos - 1, EventInHand(s).data)
  }

  function WorkerApply(s: Session, step: WorkerStep): (r: Session)
    requires WorkerEnabled(s, step)
    ensures r.reader == s.reader && r.forwarders == s.forwarders && r.chats == s.chats && r.over == s.over
    ensures r.sh == s.sh.(activeTts := r.sh.activeTts, ttsQueue := r.sh.ttsQueue)
  {
    match step
    case Take =>
      s.(sh := DrainHead(s.sh), worker := Taken(s.sh.ttsQueue[0], |s.enqueued| - |s.sh.ttsQueue|))
    case TestJob =>
      s.(worker := if s.sh.turn == s.worker.job.turn then Calling(s.worker.job, s.worker.index) else Idle)
    case VoiceOpens(synthesised, script) =>
      s.(voices := s.voices + [Voice(s.worker.job, s.worker.index, synthesised, script, 0, false, false)],
         worker := Holding(|s.voices|))
    case VoiceFails(lost) =>
      Post(s, ErrorFrame("tts_unavailable"), lost).(worker := Idle)
    case Recheck =>
      s.(sh := PublishTts(s.sh, s.worker.voice, JobInHand(s).turn),
         worker := if s.sh.turn == JobInHand(s).turn then Listening(s.worker.voice, false)
                   else Discarding(s.worker.voice))
    case CloseOwn =>
      s.(voices := s.voices[s.worker.voice := s.voices[s.worker.voice].(closed := true)], worker := Idle)
    case Listen =>
      var v := s.voices[s.worker.voice];
      s.(voices := s.voices[s.worker.voice := v.(pos := v.pos + 1)],
         worker := Testing(s.worker.voice, s.worker.announced))
    case ListenEnd =>
      s.(voices := s.voices[s.worker.voice := s.voices[s.worker.voice].(ended := true)],
         worker := Clearing(s.worker.voice))
    case TestChunk =>
      s.(worker :=
           if s.sh.turn != JobInHand(s).turn then Idle
           else if EventInHand(s).VoiceError? then Failing(s.worker.voice)
           else if !s.worker.announced then Telling(s.worker.voice)
           else Sending(s.worker.voice))
    case TellText(lost) =>
      Post(s, LlmChunk(JobInHand(s).turn, s.worker.voice, JobInHand(s).text), lost).(
        worker := Formatting(s.worker.voice))
    case TellFormat(lost) =>
      Post(s, AudioFormat(JobInHand(s).turn, s.worker.voice), lost).(worker := Sending(s.worker.voice))
    case SendAudio =>
      Post(s, FrameInHand(s), false).(worker := Listening(s.worker.voice, true))
    case GiveUp =>
      s.(worker := Stopped)
    case ReportError(lost) =>
      Post(s, ErrorFrame(EventInHand(s).code), lost).(
        voices := s.voices[s.worker.voice := s.voices[s.worker.voice].(ended := true)], worker := Idle)
    case Clear =>
      s.(sh := ClearTts(s.sh, s.worker.voice), worker := Idle)
    case Stop =>
      s.(worker := Stopped)
  }

  // ---- The writer -------------------------------------------------------------------------------

  predicate WriterEnabled(s: Session, step: WriterStep) {
    s.writing && (step.WriteOne? || step.taken ==> s.written < |s.sent|)
  }

  function WriterApply(s: Session, step: WriterStep): Session
    requires WriterEnabled(s, step)
  {
    match step
    case WriteOne => s.(written := s.written + 1)
    case WriteFails(taken) => s.(written := s.written + (if taken then 1 else 0), writing := false)
  }

  // ---- The whole session -----------------------------------------------------------------------

  /** The events of a stream that is opened come from some run of its service. */
  ghost predicate FromService(env: Env, step: Step) {
    match step
    case ByForwarder(_, ChatOpens(origin, script)) => Deliverable(script, origin, env.settings)
    case ByWorker(VoiceOpens(synthesised, script)) => Spoken(script, synthesised)
    case _ => true
  }

  ghost predicate Enabled(env: Env, s: Session, step: Step) {
    FromService(env, step) &&
    match step
    case ByReader(r) => ReaderEnabled(s, r)
    case ByWorker(w) => WorkerEnabled(s, w)
    case ByForwarder(i, f) => ForwarderEnabled(s, i, f)
    case ByChat(c, e) => ChatEnabled(s, c, e)
    case ByWriter(p) => WriterEnabled(s, p)
    case ByMicrophone(lost) => CanPost(s, lost)
  }

  function Apply(env: Env, s: Session, step: Step): Session
    requires Enabled(env, s, step)
  {
    match step
    case ByReader(r) => ReaderApply(env, s, r)
    case ByWorker(w) => WorkerApply(s, w)
    case ByForwarder(i, f) => ForwarderApply(s, i, f)
    case ByChat(c, e) => ChatApply(s, c, e)
    case ByWriter(p) => WriterApply(s, p)
    case ByMicrophone(lost) => Post(s, ErrorFrame("stt_send_failed"), lost)
  }

  ghost predicate Legal(env: Env, s: Session, steps: seq<Step>)
    decreases |steps|
  {
    steps == [] || (Enabled(env, s, steps[0]) && Legal(env, Apply(env, s, steps[0]), steps[1..]))
  }

  ghost function Run(env: Env, s: Session, steps: seq<Step>): Session
    requires Legal(env, s, steps)
    decreases |steps|
  {
    if steps == [] then s else Run(env, Apply(env, s, steps[0]), steps[1..])
  }
}
