/**
 * The bot's process state as main.py keeps it: the global `user_sessions` dictionary,
 * mutated in place by `handle_ask`, and the `offset` variable of `run_telegram_bot`.
 * Each handler is a method proved against the functions of BotSpec.
 */
module TelegramBot {
  import opened Wrappers
  import opened Commands
  import opened ImageGeneration
  import opened BotSpec

  class Bot {
    /** The two generation backends. */
    const env: Env
    /** `user_sessions`: the questions asked so far, per chat. */
    var sessions: map<ChatId, seq<string>>
    /** Every message and photo sent to the chat platform, in order. */
    var outbox: seq<Action>
    /** How often each backend has been invoked. */
    var textCalls: nat
    var imageCalls: nat
    /** Seconds spent in `time.sleep`. */
    ghost var slept: nat
    /** The offset passed to the next fetch; None before the first non-empty batch. */
    var offset: Option<int>

    ghost function State(): BotState
      reads this
    {
      BotState(sessions, outbox, textCalls, imageCalls, slept)
    }

    constructor (env: Env)
      ensures this.env == env
      ensures State() == BotState(map[], [], 0, 0, 0) && offset == None
    {
      this.env := env;
      sessions := map[];
      outbox := [];
      textCalls, imageCalls := 0, 0;
      slept := 0;
      offset := None;
    }

    /** `send_message`: one text message to `chat`. */
    method SendText(chat: ChatId, text: string)
      modifies this`outbox
      ensures outbox == old(outbox) + [SendMessage(chat, text)]
    {
      outbox := outbox + [SendMessage(chat, text)];
    }

    /** `handle_start` */
    method HandleStart(chat: ChatId)
      modifies this`outbox
      ensures Step(Completed, State()) == Dispatch(env, old(State()), chat, Start)
      ensures outbox == old(outbox) + [SendMessage(chat, Greeting)]
    {
      SendText(chat, Greeting);
    }

    /**
     * `handle_ask`: record the question, sleep, call the text backend, send the answer.
     * A failing backend raises out of the handler after the question was recorded.
     */
    method HandleAsk(chat: ChatId, question: string) returns (halt: Halt)
      modifies this`sessions, this`slept, this`textCalls, this`outbox
      ensures Step(halt, State()) == Dispatch(env, old(State()), chat, Ask(question))
      ensures sessions == RecordQuestion(old(sessions), chat, question)
      ensures halt.Crashed? <==> env.textBackend(old(textCalls), Language, question).Failed?
    {
      if chat in sessions {
        sessions := sessions[chat := sessions[chat] + [question]];
      } else {
        sessions := sessions[chat := [question]];
      }
      slept := slept + AskDelay;
      var reply := env.textBackend(textCalls, Language, question);
      textCalls := textCalls + 1;
      match reply {
        case Failed(error) =>
          halt := Crashed(TextBackendError(error));
        case Answer(text) =>
          SendText(chat, text);
          halt := Completed;
      }
    }

    /** `handle_image`: one single-attempt generation, then a photo or the failure text. */
    method HandleImage(chat: ChatId, prompt: string)
      modifies this`slept, this`imageCalls, this`outbox
      ensures Step(Completed, State()) == Dispatch(env, old(State()), chat, Image(prompt))
      ensures |outbox| == |old(outbox)| + 1 && outbox[..|old(outbox)|] == old(outbox)
      ensures outbox[|old(outbox)|].SendPhoto? <==>
        (CarriesImage(env.imageBackend(old(imageCalls), prompt)) &&
         CreateImageOnce(env.imageBackend(old(imageCalls), prompt)).image.value != [])
    {
      var made := CreateImageOnce(env.imageBackend(imageCalls, prompt));
      imageCalls := imageCalls + 1;
      slept := slept + made.slept;
      if made.image.Some? && |made.image.value| > 0 {
        outbox := outbox + [SendPhoto(chat, made.image.value, PhotoCaption)];
      } else {
        SendText(chat, ImageFailureText);
      }
    }

    /** The body of the loop in `handle_updates`: one update, dispatched on its text. */
    method HandleOne(update: Update) returns (halt: Halt)
      modifies this`sessions, this`slept, this`textCalls, this`imageCalls, this`outbox
      ensures Step(halt, State()) == HandleUpdate(env, old(State()), update)
    {
      halt := Completed;
      if update.message.Some? {
        var chat := update.message.value.chat;
        if update.message.value.text.None? {
          return Crashed(MissingText);
        }
        match Classify(update.message.value.text.value) {
          case Start =>
            HandleStart(chat);
          case Ask(question) =>
            halt := HandleAsk(chat, question);
          case Image(prompt) =>
            HandleImage(chat, prompt);
          case Help =>
            SendText(chat, HelpText);
        }
      }
    }

    /** `handle_updates`: the updates in order; an exception from one of them ends the walk. */
    method HandleUpdates(updates: seq<Update>) returns (halt: Halt, ghost processed: nat)
      modifies this`sessions, this`slept, this`textCalls, this`imageCalls, this`outbox
      ensures BatchResult(halt, State(), processed) == HandleBatch(env, old(State()), updates)
    {
      var i := 0;
      while i < |updates|
        invariant i <= |updates|
        invariant HandleBatch(env, old(State()), updates) == HandleBatchFrom(env, State(), updates, i)
      {
        halt := HandleOne(updates[i]);
        if halt.Crashed? {
          return halt, i + 1;
        }
        i := i + 1;
      }
      halt, processed := Completed, |updates|;
    }

    /**
     * One iteration of `run_telegram_bot` after the fetch returned `result` (the "result" key
     * of the response, None when missing). Returns false when `handle_updates` raised,
     * which ends the loop and the thread.
     */
    method PollOnce(result: Option<seq<Update>>) returns (running: bool)
      modifies this`sessions, this`slept, this`textCalls, this`imageCalls, this`outbox, this`offset
      ensures PollResult(running, State(), offset) == PollStep(env, old(State()), old(offset), result)
    {
      running := true;
      if result.Some? && |result.value| > 0 {
        var halt, _ := HandleUpdates(result.value);
        if halt.Crashed? {
          running := false;
          return;
        }
        offset := Some(result.value[|result.value| - 1].updateId + 1);
      }
    }
  }
}
