/** The voice commands of the assistant: a transcript is tested against ten
    trigger phrases in a fixed order, and the first phrase it contains picks
    the action; a transcript containing none of them goes to the chatbot. */
module Commands {
  import opened Text

  const RobotOnPhrase := "speak like a robot"
  const RobotOffPhrase := "stop speaking like a robot"
  const TokensPhrase := "please set tokens to"
  const PodBayPhrase := "open the pod bay door"
  const ConversationPhrase := "please display conversation"
  const RestoreMemoryPhrase := "please restore memory"
  const MemoriesPhrase := "please display memories"
  const PresetPhrase := "please set preset to"
  const ResetPresetPhrase := "please reset preset"
  const NamePhrase := "please set name to"

  /** The trigger phrases in the order they are tested. */
  const Triggers: seq<string> := [
    RobotOnPhrase, RobotOffPhrase, TokensPhrase, PodBayPhrase, ConversationPhrase,
    RestoreMemoryPhrase, MemoriesPhrase, PresetPhrase, ResetPresetPhrase, NamePhrase
  ]

  /** The action a transcript selects. The preset and name commands carry the
      text that follows their trigger phrase. */
  datatype Command =
    | RobotOn
    | RobotOff
    | SetTokens
    | PodBay
    | DisplayConversation
    | RestoreMemory
    | DisplayMemories
    | SetPreset(preset: string)
    | ResetPreset
    | SetName(name: string)
    | Forward

  /** The position of a command's trigger in `Triggers`; Forward comes after all of them. */
  function Rank(c: Command): (k: nat)
    ensures k <= |Triggers|
    ensures c.Forward? <==> k == |Triggers|
  {
    match c
    case RobotOn => 0
    case RobotOff => 1
    case SetTokens => 2
    case PodBay => 3
    case DisplayConversation => 4
    case RestoreMemory => 5
    case DisplayMemories => 6
    case SetPreset(_) => 7
    case ResetPreset => 8
    case SetName(_) => 9
    case Forward => 10
  }

  /** The argument of a command whose trigger is `phrase`: Python's
      `speech.split(phrase)[1]`. */
  function Argument(speech: string, phrase: string): (arg: string)
    requires phrase != [] && Contains(speech, phrase)
    ensures arg <= After(speech, phrase) && !Contains(arg, phrase)
    ensures arg == After(speech, phrase) || arg + phrase <= After(speech, phrase)
    ensures arg != After(speech, phrase) ==> Find(After(speech, phrase), phrase) == Some(|arg|)
  {
    SplitSecond(speech, phrase)
  }

  /** The command whose trigger is `Triggers[k]`, with its argument when it takes one. */
  function CommandAt(k: nat, speech: string): (c: Command)
    requires k < |Triggers| && Contains(speech, Triggers[k])
    ensures Rank(c) == k
  {
    match k
    case 0 => RobotOn
    case 1 => RobotOff
    case 2 => SetTokens
    case 3 => PodBay
    case 4 => DisplayConversation
    case 5 => RestoreMemory
    case 6 => DisplayMemories
    case 7 => SetPreset(Argument(speech, PresetPhrase))
    case 8 => ResetPreset
    case _ => SetName(Argument(speech, NamePhrase))
  }

  /** The if/elif chain of the listener from its `k`-th test on: the first
      trigger, from `Triggers[k]` on, that the transcript contains picks the
      command, and Forward comes when there is none. */
  function ClassifyFrom(speech: string, k: nat): (c: Command)
    requires k <= |Triggers|
    ensures k <= Rank(c)
    ensures c.Forward? || Contains(speech, Triggers[Rank(c)])
    decreases |Triggers| - k
  {
    if k == |Triggers| then Forward
    else if Contains(speech, Triggers[k]) then CommandAt(k, speech)
    else ClassifyFrom(speech, k + 1)
  }

  /** The whole if/elif chain: a command other than Forward is only selected
      when its trigger occurs in the transcript. */
  function Classify(speech: string): (c: Command)
    ensures c.Forward? || Contains(speech, Triggers[Rank(c)])
  {
    ClassifyFrom(speech, 0)
  }

  /** None of the triggers from `k` up to (not including) `n` occurs in the transcript. */
  predicate NoTriggerBetween(speech: string, k: nat, n: nat)
    requires k <= n <= |Triggers|
  {
    forall i :: k <= i < n ==> !Contains(speech, Triggers[i])
  }

  /** The chain from test `k` on skips only triggers the transcript lacks. */
  lemma {:induction false} ClassifyFromFirstMatch(speech: string, k: nat)
    requires k <= |Triggers|
    ensures NoTriggerBetween(speech, k, Rank(ClassifyFrom(speech, k)))
    decreases |Triggers| - k
  {
    if k < |Triggers| && !Contains(speech, Triggers[k]) {
      ClassifyFromFirstMatch(speech, k + 1);
    }
  }

  /** Exactly one action is selected: the one whose trigger is the first, in
      testing order, that the transcript contains; with no trigger in the
      transcript the text is forwarded. */
  lemma ClassifyFirstMatch(speech: string)
    ensures var c := Classify(speech);
      NoTriggerBetween(speech, 0, Rank(c)) &&
      (c.Forward? || Contains(speech, Triggers[Rank(c)]))
  {
    ClassifyFromFirstMatch(speech, 0);
  }

  /** The preset and name commands carry the `split` argument of their trigger. */
  lemma ClassifyArgument(speech: string)
    ensures Classify(speech).SetPreset? ==>
      Contains(speech, PresetPhrase) && Classify(speech).preset == Argument(speech, PresetPhrase)
    ensures Classify(speech).SetName? ==>
      Contains(speech, NamePhrase) && Classify(speech).name == Argument(speech, NamePhrase)
  {
    ClassifyFromFirstMatch(speech, 0);
  }

  /** When the trigger phrase occurs once, the argument is everything after
      it, up to the end of the transcript (its leading space and the newline
      the transcript ends with included). */
  lemma ArgumentIsRest(speech: string, phrase: string)
    requires phrase != [] && Contains(speech, phrase)
    requires !Contains(After(speech, phrase), phrase)
    ensures Argument(speech, phrase) == After(speech, phrase)
  {
  }
}
