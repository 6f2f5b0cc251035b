/** Prompt assembly: `build_system_prompt` and `build_ollama_messages`. */
module Prompt {
  import opened Text
  import opened Channels

  const StrictSuffix: string := "\n(You are currently in STRICT mode.)"
  const OffSuffix: string := "\n(Style-guidance is OFF for this channel.)"

  /** At most this many history entries go to the backend. */
  const HistoryWindow: nat := 50

  /** The stripped base directive followed by the suffix the channel's
      toggle selects. */
  function SystemPrompt(masterInstruction: string, toggleOn: bool): (p: string)
    ensures StartsWith(p, Strip(masterInstruction))
    ensures p[|Strip(masterInstruction)|..] == if toggleOn then StrictSuffix else OffSuffix
  {
    Strip(masterInstruction) + (if toggleOn then StrictSuffix else OffSuffix)
  }

  /** The two toggle positions always give different prompts. */
  lemma TogglePositionsDiffer(masterInstruction: string)
    ensures SystemPrompt(masterInstruction, true) != SystemPrompt(masterInstruction, false)
  {
    var n := |Strip(masterInstruction)|;
    assert SystemPrompt(masterInstruction, true)[n..] == StrictSuffix;
    assert SystemPrompt(masterInstruction, false)[n..] == OffSuffix;
    assert StrictSuffix[3] != OffSuffix[3];
  }

  /** The message list sent to the backend: one system entry holding the
      prompt, then the most recent `min(50, |history|)` history entries,
      oldest first. */
  function BackendMessages(systemPrompt: string, history: seq<Turn>): (msgs: seq<Turn>)
    ensures |msgs| == 1 + (if |history| <= HistoryWindow then |history| else HistoryWindow)
    ensures msgs[0] == Turn(System, systemPrompt)
    ensures msgs[1..] == history[|history| - (|msgs| - 1)..]
  {
    [Turn(System, systemPrompt)] + KeepLast(history, HistoryWindow)
  }
}
