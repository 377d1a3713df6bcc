/** The runtime of the script-tag variant (pb-chat-widget.js) once mounted:
    the window's open state, the send button, the input field and the message
    container, with the handlers that change them. */
module ScriptWidget {
  import opened Wrappers
  import opened Json
  import opened Normalize
  import opened JsString
  import opened Session
  import opened Chat
  import ScriptConfig

  const Greeting: string := "Привет! Чем помочь?"
  const EmptyReplyText: string := "Ок. (Пустой ответ от сервера)"
  const ConnectionErrorText: string := "Ошибка соединения. Попробуйте ещё раз."

  /** The bot message `send` appends once the request has ended. A body
      that does not decode counts as `{}`. The answer is rendered through
      `String(...)` inside the `try`; when that conversion throws, no row is
      appended for it and the `catch` appends the connection error instead,
      so the message shown is always one that renders. */
  function BotReply(c: Completion): (v: Value)
    ensures Truthy(v) && !ToStringThrows(v)
  {
    match c
    case Replied(data) =>
      var answer := Or(PickText(data.GetOr(Obj(map[]))), Str(EmptyReplyText));
      if ToStringThrows(answer) then Str(ConnectionErrorText) else answer
    case Failed => Str(ConnectionErrorText)
  }

  class Widget {
    const config: ScriptConfig.Config
    const storage: Storage
    /** The window carries the `pbw-open` class. */
    var isOpen: bool
    /** `sendBtn.disabled`. */
    var sendDisabled: bool
    /** The children of the message container. */
    var body: seq<Node>
    /** `inputEl.value`. */
    var input: string
    /** Requests issued and not yet answered; nothing in the page tracks
        this, it only lets the model say that each completion answers one. */
    ghost var inFlight: nat

    ghost predicate Valid()
      reads this
    {
      TypingCount(body) <= 1
    }

    /** The markup built after the config check, then the greeting. */
    constructor (config: ScriptConfig.Config, storage: Storage)
      requires config.webhookUrl != ""
      ensures this.config == config && this.storage == storage
      ensures !isOpen && !sendDisabled && input == "" && inFlight == 0
      ensures body == [Row(Message(Bot, Str(Greeting)))]
      ensures Valid() && Messages(body) == [Message(Bot, Str(Greeting))]
    {
      this.config := config;
      this.storage := storage;
      isOpen := false;
      sendDisabled := false;
      input := "";
      inFlight := 0;
      body := [];
      new;
      AddMsg(Bot, Str(Greeting));
    }

    /** addMsg: one row at the end of the container. */
    method AddMsg(role: Role, content: Value)
      modifies this`body
      ensures body == AddRow(old(body), role, content)
      ensures Messages(body) == Messages(old(body)) + [Message(role, content)]
      ensures TypingCount(body) == TypingCount(old(body))
    {
      AddRowAppends(body, role, content);
      body := body + [Row(Message(role, content))];
    }

    /** setTyping. */
    method SetTyping(on: bool)
      requires Valid()
      modifies this`body
      ensures Valid()
      ensures body == Chat.SetTyping(old(body), on)
      ensures Messages(body) == Messages(old(body))
      ensures TypingCount(body) == if on then 1 else 0
    {
      if on {
        SetTypingOn(body);
        if TypingCount(body) == 0 {
          body := body + [TypingNode];
        }
      } else {
        SetTypingOff(body);
        if TypingCount(body) > 0 {
          body := RemoveFirstTyping(body);
        }
      }
    }

    method Open()
      modifies this`isOpen
      ensures isOpen
    {
      isOpen := true;
    }

    /** close: idempotent, it only removes the class. */
    method Close()
      modifies this`isOpen
      ensures !isOpen
    {
      isOpen := false;
    }

    /** toggle, bound to the bubble. */
    method Toggle()
      modifies this`isOpen
      ensures isOpen == !old(isOpen)
    {
      if isOpen {
        Close();
      } else {
        Open();
      }
    }

    /** The user edits the input field. */
    method EditInput(text: string)
      modifies this`input
      ensures input == text
    {
      input := text;
    }

    /** The synchronous part of `send`, up to the `await fetch`: nothing
        happens for blank input; otherwise the trimmed text becomes a user
        message, the input is cleared, the button disabled, the indicator
        shown, the session id looked up, and the request returned. */
    method Send(uuid: Option<string>, randomHex: string, now: string) returns (req: Option<Request>)
      requires Valid()
      modifies this`body, this`input, this`sendDisabled, this`inFlight, storage
      ensures Valid()
      ensures Trim(old(input)) == "" ==>
        && req.None? && body == old(body) && input == old(input)
        && sendDisabled == old(sendDisabled) && inFlight == old(inFlight)
        && storage.items == old(storage.items)
      ensures Trim(old(input)) != "" ==>
        && body == Chat.SetTyping(AddRow(old(body), User, Str(Trim(old(input)))), true)
        && input == "" && sendDisabled && inFlight == old(inFlight) + 1
        && var (id, items) := Resolve(old(storage.items), NewId(uuid, randomHex, now));
           req == Some(Request(config.webhookUrl, Trim(old(input)), id)) && storage.items == items
      ensures Trim(old(input)) != "" ==>
        Messages(body) == Messages(old(body)) + [Message(User, Str(Trim(old(input))))] && TypingCount(body) == 1
      ensures req.Some? ==> StoredId(storage.items) == Some(req.value.sessionId)
    {
      var text := Trim(input);
      if text == "" {
        return None;
      }
      AddMsg(User, Str(text));
      input := "";
      sendDisabled := true;
      SetTyping(true);
      var id := storage.GetSessionId(uuid, randomHex, now);
      inFlight := inFlight + 1;
      req := Some(Request(config.webhookUrl, text, id));
    }

    /** A click on the send button; a disabled button receives no click, and
        an enabled one runs `send`. */
    method ClickSend(uuid: Option<string>, randomHex: string, now: string) returns (req: Option<Request>)
      requires Valid()
      modifies this`body, this`input, this`sendDisabled, this`inFlight, storage
      ensures Valid()
      ensures old(sendDisabled) || Trim(old(input)) == "" ==>
        && req.None? && body == old(body) && input == old(input)
        && sendDisabled == old(sendDisabled) && inFlight == old(inFlight)
        && storage.items == old(storage.items)
      ensures !old(sendDisabled) && Trim(old(input)) != "" ==>
        && body == Chat.SetTyping(AddRow(old(body), User, Str(Trim(old(input)))), true)
        && input == "" && sendDisabled && inFlight == old(inFlight) + 1
        && var (id, items) := Resolve(old(storage.items), NewId(uuid, randomHex, now));
           req == Some(Request(config.webhookUrl, Trim(old(input)), id)) && storage.items == items
      ensures !old(sendDisabled) && Trim(old(input)) != "" ==>
        Messages(body) == Messages(old(body)) + [Message(User, Str(Trim(old(input))))] && TypingCount(body) == 1
      ensures req.Some? ==> StoredId(storage.items) == Some(req.value.sessionId)
    {
      if sendDisabled {
        return None;
      }
      req := Send(uuid, randomHex, now);
    }

    /** A key press in the input field: Enter runs `send` whatever the state
        of the button, so a second request can be issued while one is
        pending; any other key changes nothing. */
    method PressKey(key: string, uuid: Option<string>, randomHex: string, now: string) returns (req: Option<Request>)
      requires Valid()
      modifies this`body, this`input, this`sendDisabled, this`inFlight, storage
      ensures Valid()
      ensures key != "Enter" || Trim(old(input)) == "" ==>
        && req.None? && body == old(body) && input == old(input)
        && sendDisabled == old(sendDisabled) && inFlight == old(inFlight)
        && storage.items == old(storage.items)
      ensures key == "Enter" && Trim(old(input)) != "" ==>
        && body == Chat.SetTyping(AddRow(old(body), User, Str(Trim(old(input)))), true)
        && input == "" && sendDisabled && inFlight == old(inFlight) + 1
        && var (id, items) := Resolve(old(storage.items), NewId(uuid, randomHex, now));
           req == Some(Request(config.webhookUrl, Trim(old(input)), id)) && storage.items == items
      ensures key == "Enter" && Trim(old(input)) != "" ==>
        Messages(body) == Messages(old(body)) + [Message(User, Str(Trim(old(input))))] && TypingCount(body) == 1
      ensures req.Some? ==> StoredId(storage.items) == Some(req.value.sessionId)
    {
      if key == "Enter" {
        req := Send(uuid, randomHex, now);
      } else {
        req := None;
      }
    }

    /** The rest of `send`, after the request ends: the indicator goes, one
        bot message is appended, and the button is enabled again (`finally`). */
    method Complete(c: Completion)
      requires Valid() && inFlight > 0
      modifies this`body, this`sendDisabled, this`inFlight
      ensures Valid() && !sendDisabled && inFlight == old(inFlight) - 1
      ensures body == AddRow(Chat.SetTyping(old(body), false), Bot, BotReply(c))
      ensures Messages(body) == Messages(old(body)) + [Message(Bot, BotReply(c))]
      ensures TypingCount(body) == 0
    {
      var reply := BotReply(c);
      SetTyping(false);
      AddMsg(Bot, reply);
      sendDisabled := false;
      inFlight := inFlight - 1;
    }
  }

  /** Loading the script: abort, with nothing created, when there is no
      webhook URL; otherwise mount with the resolved configuration. */
  method Boot(script: Option<map<string, string>>, storage: Storage) returns (w: Widget?)
    ensures ScriptConfig.ReadConfig(script).None? <==> w == null
    ensures w != null ==>
      && fresh(w) && w.Valid() && w.config == ScriptConfig.ReadConfig(script).value && w.storage == storage
      && !w.isOpen && !w.sendDisabled && w.input == "" && w.inFlight == 0
      && w.body == [Row(Message(Bot, Str(Greeting)))]
      && Messages(w.body) == [Message(Bot, Str(Greeting))] && TypingCount(w.body) == 0
  {
    var cfg := ScriptConfig.ReadConfig(script);
    if cfg.None? {
      return null;
    }
    w := new Widget(cfg.value, storage);
  }

  // ---------------------------------------------------------------------
  // Lemmas about the reply

  /** A truthy answer that renders is shown; one whose rendering throws is
      replaced by the connection error; no answer gives the placeholder. A
      decode failure behaves like `{}`, and a failed request shows the
      connection error. */
  lemma BotReplyOnReply(data: Option<Value>)
    ensures var a := PickText(data.GetOr(Obj(map[])));
      && (Truthy(a) && !ToStringThrows(a) ==> BotReply(Replied(data)) == a)
      && (Truthy(a) && ToStringThrows(a) ==> BotReply(Replied(data)) == Str(ConnectionErrorText))
      && (!Truthy(a) ==> BotReply(Replied(data)) == Str(EmptyReplyText))
    ensures BotReply(Replied(None)) == BotReply(Replied(Some(Obj(map[])))) == Str(EmptyReplyText)
    ensures BotReply(Failed) == Str(ConnectionErrorText)
  {
  }

  /** The reply `{"output":{"toString":1}}` cannot be rendered, so the
      connection error is shown although the request succeeded. */
  lemma UnrenderableAnswerShownAsError()
    ensures BotReply(Replied(Some(Obj(map["output" := Obj(map["toString" := Num(1.0)])])))) == Str(ConnectionErrorText)
  {
    var inner := Obj(map["toString" := Num(1.0)]);
    var d := Obj(map["output" := inner]);
    assert Prop(d, "output") == inner;
  }

  // ---------------------------------------------------------------------
  // Scenarios

  /** The reply `{"output":"hi there"}` is shown as "hi there". */
  lemma HiThereShown()
    ensures BotReply(Replied(Some(Obj(map["output" := Str("hi there")])))) == Str("hi there")
  {
    OutputReply();
  }
}
