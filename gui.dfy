/** The voice-assistant window: the flags its event loop and listener share,
    the key guards of the event loop, and one listening turn from the
    recognised transcript to the command it runs or the chatbot reply. */
module Gui {
  import opened Text
  import opened Integers
  import opened Tokens
  import opened Commands
  import opened Keys

  /** A window colour. */
  datatype Rgb = Rgb(red: int, green: int, blue: int)

  /** Not listening. */
  const Red := Rgb(255, 25, 25)
  /** Adjusting to the ambient noise. */
  const Yellow := Rgb(255, 255, 77)
  /** Listening. */
  const Green := Rgb(43, 255, 0)
  /** Working out the reply. */
  const Blue := Rgb(51, 187, 255)

  /** The lines the assistant answers "open the pod bay door" with. */
  const Hal: seq<string> := [
    "I'm sorry Dave. I'm afraid I can't do that.",
    "I think you know what the problem is just as well as I do.",
    "This mission is too important for me to allow you to jeopardize it.",
    "I know you were planning to disconnect me, and I'm afraid that's something I can't allow to happen."
  ]

  /** The keys the event loop looks at. */
  datatype Key = Space | Q | P | Escape | OtherKey

  /** A window event: the window being closed, or a key going down. */
  datatype Event = Quit | KeyDown(key: Key)

  /** What the event loop starts in answer to an event. */
  datatype Effect =
    | Nothing
    | StartListening        // a listening turn in a thread of its own
    | SaveAndQuit           // save the memories, then close
    | QuitWithoutSaving     // close at once

  /** The answer to one event: what is started and whether `cancel` is raised. */
  datatype Reaction = Reaction(effect: Effect, raiseCancel: bool)

  /** The guards of the event loop. A turn is started, and memories are saved
      on the way out, only while no turn is running; a turn is cancelled only
      while one is running; Escape and closing the window act at any time. */
  function React(e: Event, working: bool): (r: Reaction)
    ensures r.effect == StartListening <==> e == KeyDown(Space) && !working
    ensures r.effect == SaveAndQuit <==> e == KeyDown(Q) && !working
    ensures r.raiseCancel <==> e == KeyDown(P) && working
    ensures r.effect == QuitWithoutSaving <==> e == Quit || e == KeyDown(Escape)
  {
    match e
    case Quit => Reaction(QuitWithoutSaving, false)
    case KeyDown(Space) => Reaction(if working then Nothing else StartListening, false)
    case KeyDown(Q) => Reaction(if working then Nothing else SaveAndQuit, false)
    case KeyDown(P) => Reaction(Nothing, working)
    case KeyDown(Escape) => Reaction(QuitWithoutSaving, false)
    case KeyDown(OtherKey) => Reaction(Nothing, false)
  }

  /** Whether an effect closes the window. */
  predicate Closes(effect: Effect) {
    effect == SaveAndQuit || effect == QuitWithoutSaving
  }

  /** What the recogniser returns for the captured audio: a transcript, or an
      error (nothing understood, or the service failing). */
  datatype Recognition = Heard(text: string) | NotUnderstood

  /** The answers of the parts of the system outside this model, for one turn. */
  datatype World = World(
    neocortexExists: bool,     // whether the memory folder exists
    memoryCount: nat,          // how many memory files it holds
    presetAccepted: bool,      // what the chatbot answers to a new preset
    presetFileExists: bool,    // whether a preset file exists
    nameAccepted: bool,        // what the chatbot answers to a new name
    replyFails: bool,          // whether asking the chatbot raises an error
    quip: nat                  // the index `randint` picks into Hal
  )

  /** How a listening turn ends. */
  datatype Turn =
    | Cancelled
    | RobotVoice(on: bool)
    | TokensAdjusted(found: Option<int>, previous: int)
    | Quip(line: string)
    | ConversationShown
    | MemoryRestoreRequested
    | MemoriesShown(count: Option<nat>)
    | PresetSet(preset: string, accepted: bool)
    | PresetReset(existed: bool)
    | NameSet(name: string, accepted: bool)
    | Forwarded(speech: string)
    | Failed

  /** Whether a turn ran one of the voice commands. */
  predicate IsCommand(t: Turn) {
    !(t.Cancelled? || t.Forwarded? || t.Failed?)
  }

  /** The flags a turn leaves behind and how it ends. */
  datatype Outcome = Outcome(turn: Turn, cancel: bool, replyTokens: int, robospeak: bool)

  /** One listening turn, from the `cancel` flag it starts with, the
      recogniser's answer, whether P was pressed while the audio was captured,
      while it was recognised and while the reply was fetched, and the
      answers of the rest of the system; `tokens` and `robo` are the
      chatbot's reply budget and voice setting. The turn is cancelled
      exactly when `cancel` was already raised or P was pressed before one of
      the two checks, and a cancelled turn changes nothing but lowering the
      flag. */
  function Respond(cancel: bool, heard: Recognition, pressAtCapture: bool,
                   pressAtRecognition: bool, pressAtReply: bool, w: World,
                   tokens: int, robo: bool): (o: Outcome)
    requires w.quip < |Hal|
    ensures o.turn == Cancelled <==> cancel || pressAtCapture || (heard.Heard? && pressAtRecognition)
    ensures o.turn == Cancelled ==> o == Outcome(Cancelled, false, tokens, robo)
  {
    if cancel || pressAtCapture then Outcome(Cancelled, false, tokens, robo)
    else match heard
      case NotUnderstood => Outcome(Failed, pressAtRecognition, tokens, robo)
      case Heard(text) =>
        if pressAtRecognition then Outcome(Cancelled, false, tokens, robo)
        else
          var speech := text + "\n";
          Dispatch(Classify(speech), speech, pressAtReply, w, tokens, robo)
  }

  /** What the selected command does with the transcript `speech`. The
      commands run to the end of the turn and lower `cancel`, while a
      forwarded or failed turn keeps a P pressed during the reply; only the
      token command moves the budget, to a value in range; only the
      robot-voice commands move the voice setting; only Forward hands the
      transcript, unchanged, to the chatbot. */
  function Dispatch(command: Command, speech: string, pressAtReply: bool, w: World,
                    tokens: int, robo: bool): (o: Outcome)
    requires w.quip < |Hal|
    ensures o.turn != Cancelled
    ensures IsCommand(o.turn) ==> !o.cancel
    ensures o.cancel ==> o.turn.Forwarded? || o.turn.Failed?
    ensures o.turn.Forwarded? ==> command == Forward && o.turn.speech == speech && o.cancel == pressAtReply
    ensures o.replyTokens != tokens ==>
      o.turn.TokensAdjusted? && o.turn.found == Some(o.replyTokens) && InBudget(o.replyTokens)
    ensures o.robospeak != robo ==> o.turn == RobotVoice(o.robospeak)
    ensures command == RobotOn ==> o.robospeak
    ensures command == RobotOff ==> !o.robospeak
    ensures command == SetTokens ==>
      o.turn == TokensAdjusted(TokenScan(speech), tokens) &&
      o.replyTokens == NewBudget(TokenScan(speech), tokens)
    ensures command == Forward ==>
      o.turn == (if w.replyFails then Failed else Forwarded(speech)) && o.cancel == pressAtReply
    ensures command == PodBay ==> o.turn.Quip? && o.turn.line in Hal
    ensures command != Forward ==> IsCommand(o.turn) && !o.cancel
    ensures command != SetTokens ==> o.replyTokens == tokens
    ensures command != RobotOn && command != RobotOff ==> o.robospeak == robo
    ensures command.SetPreset? ==> o.turn == PresetSet(command.preset, w.presetAccepted)
    ensures command.SetName? ==> o.turn == NameSet(command.name, w.nameAccepted)
    ensures command == DisplayConversation ==> o.turn == ConversationShown
    ensures command == RestoreMemory ==> o.turn == MemoryRestoreRequested
    ensures command == DisplayMemories ==>
      o.turn == MemoriesShown(if w.neocortexExists then Some(w.memoryCount) else None)
    ensures command == ResetPreset ==> o.turn == PresetReset(w.presetFileExists)
  {
    match command
    case RobotOn => Outcome(RobotVoice(true), false, tokens, true)
    case RobotOff => Outcome(RobotVoice(false), false, tokens, false)
    case SetTokens =>
      var found := TokenScan(speech);
      Outcome(TokensAdjusted(found, tokens), false, NewBudget(found, tokens), robo)
    case PodBay => Outcome(Quip(Hal[w.quip]), false, tokens, robo)
    case DisplayConversation => Outcome(ConversationShown, false, tokens, robo)
    case RestoreMemory => Outcome(MemoryRestoreRequested, false, tokens, robo)
    case DisplayMemories =>
      Outcome(MemoriesShown(if w.neocortexExists then Some(w.memoryCount) else None), false, tokens, robo)
    case SetPreset(preset) => Outcome(PresetSet(preset, w.presetAccepted), false, tokens, robo)
    case ResetPreset => Outcome(PresetReset(w.presetFileExists), false, tokens, robo)
    case SetName(name) => Outcome(NameSet(name, w.nameAccepted), false, tokens, robo)
    case Forward =>
      Outcome(if w.replyFails then Failed else Forwarded(speech), pressAtReply, tokens, robo)
  }

  /** A P pressed while the reply to a forwarded transcript is fetched is
      never cleared, so it cancels the next turn, whatever is said then. */
  lemma StaleCancel(heard: Recognition, w: World, tokens: int, robo: bool,
                    next: Recognition, pressAtCapture: bool, pressAtRecognition: bool,
                    pressAtReply: bool, w2: World)
    requires w.quip < |Hal| && w2.quip < |Hal|
    requires Respond(false, heard, false, false, true, w, tokens, robo).turn.Forwarded?
    ensures var first := Respond(false, heard, false, false, true, w, tokens, robo);
      Respond(first.cancel, next, pressAtCapture, pressAtRecognition, pressAtReply,
              w2, first.replyTokens, first.robospeak).turn == Cancelled
  {
  }

  /** A heard, uncancelled turn that selects the token command ends with the
      budget that the number found in its transcript gives, and one that
      selects a robot-voice command ends with that voice. */
  lemma CommandTurn(heard: Recognition, pressAtReply: bool, w: World, tokens: int, robo: bool)
    requires w.quip < |Hal| && heard.Heard?
    ensures var speech := heard.text + "\n";
      var o := Respond(false, heard, false, false, pressAtReply, w, tokens, robo);
      (Classify(speech) == SetTokens ==>
        o.turn == TokensAdjusted(TokenScan(speech), tokens) &&
        o.replyTokens == NewBudget(TokenScan(speech), tokens) && !o.cancel) &&
      (Classify(speech) == RobotOn ==> o == Outcome(RobotVoice(true), false, tokens, true)) &&
      (Classify(speech) == RobotOff ==> o == Outcome(RobotVoice(false), false, tokens, false))
  {
  }

  /** A transcript reaches the chatbot only when it holds none of the
      trigger phrases (with the newline the turn appends to it). */
  lemma {:induction false} ForwardedHoldsNoTrigger(cancel: bool, heard: Recognition, pressAtCapture: bool,
                                pressAtRecognition: bool, pressAtReply: bool, w: World,
                                tokens: int, robo: bool)
    requires w.quip < |Hal|
    ensures var o := Respond(cancel, heard, pressAtCapture, pressAtRecognition, pressAtReply, w, tokens, robo);
      o.turn.Forwarded? ==>
        heard.Heard? && o.turn.speech == heard.text + "\n" &&
        NoTriggerBetween(o.turn.speech, 0, |Triggers|)
  {
    if heard.Heard? && !cancel && !pressAtCapture && !pressAtRecognition {
      ClassifyFirstMatch(heard.text + "\n");
    }
  }

  /** The chatbot session: its keys, its reply budget and whether it speaks
      like a robot. */
  class Chatbot {
    const key: string
    const key11: string
    var replyTokens: int
    var robospeak: bool

    constructor(key: string, key11: string, replyTokens: int, robospeak: bool)
      ensures this.key == key && this.key11 == key11
      ensures this.replyTokens == replyTokens && this.robospeak == robospeak
    {
      this.key := key;
      this.key11 := key11;
      this.replyTokens := replyTokens;
      this.robospeak := robospeak;
    }
  }

  /** The window with the flags its event loop and its listener share. */
  class Window {
    const chatbot: Chatbot
    var color: Rgb
    var working: bool
    var cancel: bool
    var running: bool

    /** The window after start-up, given the keys `Start` chose: the chatbot
        is made with them, the microphone is warmed up and the event loop
        runs, idle. */
    constructor(key: string, key11: string, replyTokens: int, robospeak: bool)
      ensures fresh(chatbot)
      ensures chatbot.key == key && chatbot.key11 == key11
      ensures chatbot.replyTokens == replyTokens && chatbot.robospeak == robospeak
      ensures color == Red && !working && !cancel && running
    {
      color := Red;
      working := false;
      cancel := false;
      running := false;
      chatbot := new Chatbot(key, key11, replyTokens, robospeak);
      new;
      WarmUp();
      running := true;
    }

    /** The listener's start-up run: it only calibrates the microphone, and
        every error there is caught, then the turn is over. */
    method WarmUp()
      modifies this
      ensures !working && !cancel && color == Red && running == old(running)
    {
      working := true;
      StopWorking();
    }

    /** The end of a turn: the flags are lowered and the window turns red. */
    method StopWorking()
      modifies this
      ensures !cancel && !working && color == Red
      ensures running == old(running)
    {
      cancel := false;
      working := false;
      color := Red;
    }

    /** One event of the event loop. */
    method HandleEvent(e: Event) returns (effect: Effect)
      modifies this
      ensures effect == React(e, old(working)).effect
      ensures cancel == (old(cancel) || React(e, old(working)).raiseCancel)
      ensures running == (old(running) && !Closes(effect))
      ensures working == old(working) && color == old(color)
    {
      effect := Nothing;
      match e
      case Quit =>
        running := false;
        effect := QuitWithoutSaving;
      case KeyDown(k) =>
        if k == Space && !working {
          effect := StartListening;
        }
        if k == Q && !working {
          running := false;
          effect := SaveAndQuit;
        }
        if k == P && working {
          cancel := true;
        }
        if k == Escape {
          running := false;
          effect := QuitWithoutSaving;
        }
    }

    /** The token command: the words of the transcript are tried from the last
        to the first, and the first that reads as an integer ends the search;
        the budget takes it only when it lies between 1 and 3999. */
    method AdjustTokens(speech: string) returns (found: Option<int>)
      modifies chatbot
      ensures found == TokenScan(speech)
      ensures chatbot.replyTokens == NewBudget(found, old(chatbot.replyTokens))
      ensures chatbot.robospeak == old(chatbot.robospeak)
    {
      var words := Reverse(Words(speech));
      found := None;
      var i := 0;
      while i < |words|
        invariant 0 <= i <= |words|
        invariant FirstParsed(words[i..]) == FirstParsed(words)
        invariant found == None
        invariant chatbot.replyTokens == old(chatbot.replyTokens)
        invariant chatbot.robospeak == old(chatbot.robospeak)
      {
        var num := ParseInt(words[i]);
        if num.Some? {
          if 0 < num.value < TokenCeiling {
            chatbot.replyTokens := num.value;
          }
          found := num;
          break;
        }
        assert words[i..][1..] == words[i + 1..];
        i := i + 1;
      }
    }

    /** One listening turn after Space was pressed. The presses of P during
        it reach the flags through the event loop's guard. */
    method ListenForAudio(heard: Recognition, pressAtCapture: bool, pressAtRecognition: bool,
                          pressAtReply: bool, w: World) returns (turn: Turn)
      requires w.quip < |Hal|
      modifies this, chatbot
      ensures var o := Respond(old(cancel), heard, pressAtCapture, pressAtRecognition, pressAtReply,
                               w, old(chatbot.replyTokens), old(chatbot.robospeak));
        turn == o.turn && cancel == o.cancel &&
        chatbot.replyTokens == o.replyTokens && chatbot.robospeak == o.robospeak
      ensures !working && color == Red && running == old(running)
    {
      working := true;
      color := Yellow;
      color := Green;
      if pressAtCapture {
        var _ := HandleEvent(KeyDown(P));
      }
      color := Red;
      if cancel {
        StopWorking();
        return Cancelled;
      }
      color := Blue;
      if pressAtRecognition {
        var _ := HandleEvent(KeyDown(P));
      }
      if heard.NotUnderstood? {
        working := false;
        color := Red;
        return Failed;
      }
      var speech := heard.text + "\n";
      if cancel {
        StopWorking();
        return Cancelled;
      }
      turn := RunCommand(Classify(speech), speech, pressAtReply, w);
    }

    /** The rest of a turn once the transcript is known and not cancelled:
        the selected command runs, or the transcript goes to the chatbot. */
    method RunCommand(command: Command, speech: string, pressAtReply: bool, w: World)
      returns (turn: Turn)
      requires w.quip < |Hal| && working && !cancel
      modifies this, chatbot
      ensures var o := Dispatch(command, speech, pressAtReply, w,
                                old(chatbot.replyTokens), old(chatbot.robospeak));
        turn == o.turn && cancel == o.cancel &&
        chatbot.replyTokens == o.replyTokens && chatbot.robospeak == o.robospeak
      ensures !working && color == Red && running == old(running)
    {
      match command {
      case RobotOn =>
        chatbot.robospeak := true;
        turn := RobotVoice(true);
      case RobotOff =>
        chatbot.robospeak := false;
        turn := RobotVoice(false);
      case SetTokens =>
        var previous := chatbot.replyTokens;
        var found := AdjustTokens(speech);
        turn := TokensAdjusted(found, previous);
      case PodBay =>
        turn := Quip(Hal[w.quip]);
      case DisplayConversation =>
        turn := ConversationShown;
      case RestoreMemory =>
        turn := MemoryRestoreRequested;
      case DisplayMemories =>
        turn := MemoriesShown(if w.neocortexExists then Some(w.memoryCount) else None);
      case SetPreset(preset) =>
        turn := PresetSet(preset, w.presetAccepted);
      case ResetPreset =>
        turn := PresetReset(w.presetFileExists);
      case SetName(name) =>
        turn := NameSet(name, w.nameAccepted);
      case Forward =>
        if pressAtReply {
          var _ := HandleEvent(KeyDown(P));
        }
        if w.replyFails {
          turn := Failed;
        } else {
          color := Red;
          turn := Forwarded(speech);
        }
        working := false;
        color := Red;
        return;
      }
      StopWorking();
    }
  }

  /** `GUI.__init__`: the program exits when no OpenAI key can be chosen, and
      otherwise opens the window with the chosen keys. `written` is what is
      written to the key file: the template, when no key is given on the
      command line and the file does not exist. */
  method Start(argv: seq<string>, file: Option<string>, replyTokens: int, robospeak: bool)
    returns (window: Window?, written: Option<string>)
    ensures window == null <==> SelectKeys(argv, file).Exit?
    ensures window != null ==>
      fresh(window) && fresh(window.chatbot) &&
      window.chatbot.key == SelectKeys(argv, file).key &&
      window.chatbot.key11 == SelectKeys(argv, file).key11 &&
      window.running && !window.working && !window.cancel && window.color == Red
    ensures written == if |argv| < 2 && file.None? then Some(Template) else None
  {
    written := if |argv| < 2 then LoadKeys(file).written else None;
    var startup := SelectKeys(argv, file);
    if startup.Exit? {
      return null, written;
    }
    window := new Window(startup.key, startup.key11, replyTokens, robospeak);
  }
}
