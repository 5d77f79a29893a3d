// What the text-to-speech service sends for one sentence and what the receive
// pump of internal/tts/client.go makes of it.
module Synthesis {
  import opened RecvPump

  datatype VoiceEvent = Audio(data: int) | VoiceError(code: string)

  function AudioEvent(data: int): VoiceEvent { Audio(data) }

  const SYNTHESIS_ERROR := VoiceError("tts_stream_error")
  const SYNTHESIS_TIMEOUT := VoiceError("tts_timeout")

  /** Event scripts the session can receive for the chunks synthesised for a
      sentence: the service sends some first part of them -- it may crash or be
      cancelled, which reaches the client as a receive error -- and the pump
      delivers some first part of that. */
  ghost predicate Spoken(script: seq<VoiceEvent>, synthesised: seq<int>) {
    exists polls: seq<Poll<int>> ::
      Raws(polls) <= synthesised && script == Pumped(polls, AudioEvent, SYNTHESIS_ERROR, SYNTHESIS_TIMEOUT)
  }

  /** Event i is chunk i, and only audio stands in front of it. */
  predicate IsChunk(script: seq<VoiceEvent>, synthesised: seq<int>, i: nat) {
    && i < |script| && i < |synthesised| && script[i] == Audio(synthesised[i])
    && forall k | 0 <= k < i :: script[k].Audio?
  }

  /** The audio events are a first part of the synthesised chunks, in order and
      without a gap. */
  lemma AudioIsPrefix(script: seq<VoiceEvent>, synthesised: seq<int>, i: nat)
    requires Spoken(script, synthesised) && i < |script| && script[i].Audio?
    ensures IsChunk(script, synthesised, i)
  {
    var polls: seq<Poll<int>> :|
      Raws(polls) <= synthesised && script == Pumped(polls, AudioEvent, SYNTHESIS_ERROR, SYNTHESIS_TIMEOUT);
    PumpIsFaithful(polls, synthesised, AudioEvent, SYNTHESIS_ERROR, SYNTHESIS_TIMEOUT);
    var n: nat, parting :| n <= |synthesised|
      && (parting == [] || parting == [SYNTHESIS_ERROR] || parting == [SYNTHESIS_TIMEOUT])
      && script == Converted(synthesised[..n], AudioEvent) + parting;
    assert i < n;
  }
}
