/** The runtime of the shadow-DOM variant (src/widget.ts) once mounted: the
    window's open state, the host page's scroll lock, the input field and the
    message container, with the handlers that change them. */
module ShadowWidget {
  import opened Wrappers
  import opened Json
  import opened Normalize
  import opened JsString
  import opened Session
  import opened Chat
  import GlobalConfig

  const EmptyReplyText: string := "Ок"
  const ConnectionErrorText: string := "Ошибка соединения"

  /** The bot message `send` appends once the request has ended. A body
      that does not decode counts as `{}`. The answer is rendered through
      `String(...)` inside the `try`; when that conversion throws, no row is
      appended for it and the `catch` appends the connection error instead,
      so the message shown is always one that renders. */
  function BotReply(c: Completion): (v: Value)
    ensures Truthy(v) && !ToStringThrows(v)
  {
    match c
    case Replied(data) =>
      var answer := Or(PickText(data.GetOr(Obj(map[]))), Str(EmptyReplyText));
      if ToStringThrows(answer) then Str(ConnectionErrorText) else answer
    case Failed => Str(ConnectionErrorText)
  }

  class Widget {
    const settings: GlobalConfig.Settings
    const storage: Storage
    /** The window carries the `open` class. */
    var isOpen: bool
    /** `document.documentElement.style.overflow`. */
    var rootOverflow: string
    /** `document.body.style.overflow`. */
    var bodyOverflow: string
    /** The children of the message container. */
    var body: seq<Node>
    /** `inputEl.value`. */
    var input: string
    /** Requests issued and not yet answered; nothing in the page tracks
        this, it only lets the model say that each completion answers one. */
    ghost var inFlight: nat

    ghost predicate Valid()
      reads this
    {
      TypingCount(body) <= 1
    }

    /** The host page cannot scroll. */
    predicate ScrollLocked()
      reads this
    {
      rootOverflow == "hidden" && bodyOverflow == "hidden"
    }

    /** The inline overflow styles are cleared. */
    predicate ScrollUnlocked()
      reads this
    {
      rootOverflow == "" && bodyOverflow == ""
    }

    /** What `mount` builds once the config is accepted, ending with the
        greeting; the page's overflow styles are left as they were. */
    constructor (settings: GlobalConfig.Settings, storage: Storage, rootOverflow: string, bodyOverflow: string)
      requires settings.webhookUrl != ""
      ensures this.settings == settings && this.storage == storage
      ensures !isOpen && input == "" && inFlight == 0
      ensures this.rootOverflow == rootOverflow && this.bodyOverflow == bodyOverflow
      ensures body == [Row(Message(Bot, Str(settings.greeting)))]
      ensures Valid() && Messages(body) == [Message(Bot, Str(settings.greeting))]
    {
      this.settings := settings;
      this.storage := storage;
      isOpen := false;
      this.rootOverflow := rootOverflow;
      this.bodyOverflow := bodyOverflow;
      input := "";
      inFlight := 0;
      body := [];
      new;
      AddMsg(Bot, Str(settings.greeting));
    }

    /** addMsg: one row at the end of the container. */
    method AddMsg(role: Role, content: Value)
      modifies this`body
      ensures body == AddRow(old(body), role, content)
      ensures Messages(body) == Messages(old(body)) + [Message(role, content)]
      ensures TypingCount(body) == TypingCount(old(body))
    {
      AddRowAppends(body, role, content);
      body := body + [Row(Message(role, content))];
    }

    /** setTyping. */
    method SetTyping(on: bool)
      requires Valid()
      modifies this`body
      ensures Valid()
      ensures body == Chat.SetTyping(old(body), on)
      ensures Messages(body) == Messages(old(body))
      ensures TypingCount(body) == if on then 1 else 0
    {
      if on {
        SetTypingOn(body);
        if TypingCount(body) == 0 {
          body := body + [TypingNode];
        }
      } else {
        SetTypingOff(body);
        if TypingCount(body) > 0 {
          body := RemoveFirstTyping(body);
        }
      }
    }

    /** lockBodyScroll: assigns fixed values, so locking twice is locking once. */
    method LockBodyScroll()
      modifies this`rootOverflow, this`bodyOverflow
      ensures ScrollLocked()
    {
      rootOverflow := "hidden";
      bodyOverflow := "hidden";
    }

    /** unlockBodyScroll: clears the inline styles, whatever they were. */
    method UnlockBodyScroll()
      modifies this`rootOverflow, this`bodyOverflow
      ensures ScrollUnlocked()
    {
      rootOverflow := "";
      bodyOverflow := "";
    }

    method Open()
      modifies this`isOpen, this`rootOverflow, this`bodyOverflow
      ensures isOpen && ScrollLocked()
    {
      isOpen := true;
      LockBodyScroll();
    }

    method CloseWin()
      modifies this`isOpen, this`rootOverflow, this`bodyOverflow
      ensures !isOpen && ScrollUnlocked()
    {
      isOpen := false;
      UnlockBodyScroll();
    }

    /** A click on the bubble toggles the window. */
    method ClickBubble()
      modifies this`isOpen, this`rootOverflow, this`bodyOverflow
      ensures isOpen == !old(isOpen)
      ensures isOpen ==> ScrollLocked()
      ensures !isOpen ==> ScrollUnlocked()
    {
      if isOpen {
        CloseWin();
      } else {
        Open();
      }
    }

    /** A key press anywhere in the document: Escape closes an open window;
        any other key, or Escape while closed, changes nothing. */
    method PressDocumentKey(key: string)
      modifies this`isOpen, this`rootOverflow, this`bodyOverflow
      ensures key == "Escape" && old(isOpen) ==> !isOpen && ScrollUnlocked()
      ensures !(key == "Escape" && old(isOpen)) ==>
        isOpen == old(isOpen) && rootOverflow == old(rootOverflow) && bodyOverflow == old(bodyOverflow)
    {
      if key == "Escape" && isOpen {
        CloseWin();
      }
    }

    /** The user edits the input field. */
    method EditInput(text: string)
      modifies this`input
      ensures input == text
    {
      input := text;
    }

    /** The synchronous part of `send`, up to the `await fetch`: nothing
        happens for blank input; otherwise the trimmed text becomes a user
        message, the input is cleared, the indicator shown, the session id
        looked up, and the request returned. There is no check for a request
        already in flight. */
    method Send(uuid: Option<string>, randomHex: string, now: string) returns (req: Option<Request>)
      requires Valid()
      modifies this`body, this`input, this`inFlight, storage
      ensures Valid()
      ensures Trim(old(input)) == "" ==>
        && req.None? && body == old(body) && input == old(input)
        && inFlight == old(inFlight) && storage.items == old(storage.items)
      ensures Trim(old(input)) != "" ==>
        && body == Chat.SetTyping(AddRow(old(body), User, Str(Trim(old(input)))), true)
        && input == "" && inFlight == old(inFlight) + 1
        && var (id, items) := Resolve(old(storage.items), NewId(uuid, randomHex, now));
           req == Some(Request(settings.webhookUrl, Trim(old(input)), id)) && storage.items == items
      ensures Trim(old(input)) != "" ==>
        Messages(body) == Messages(old(body)) + [Message(User, Str(Trim(old(input))))] && TypingCount(body) == 1
      ensures req.Some? ==> StoredId(storage.items) == Some(req.value.sessionId)
    {
      var text := Trim(input);
      if text == "" {
        return None;
      }
      AddMsg(User, Str(text));
      input := "";
      SetTyping(true);
      var id := storage.GetSessionId(uuid, randomHex, now);
      inFlight := inFlight + 1;
      req := Some(Request(settings.webhookUrl, text, id));
    }

    /** A key press in the input field: Enter runs `send`; any other key
        changes nothing. */
    method PressInputKey(key: string, uuid: Option<string>, randomHex: string, now: string) returns (req: Option<Request>)
      requires Valid()
      modifies this`body, this`input, this`inFlight, storage
      ensures Valid()
      ensures key != "Enter" || Trim(old(input)) == "" ==>
        && req.None? && body == old(body) && input == old(input)
        && inFlight == old(inFlight) && storage.items == old(storage.items)
      ensures key == "Enter" && Trim(old(input)) != "" ==>
        && body == Chat.SetTyping(AddRow(old(body), User, Str(Trim(old(input)))), true)
        && input == "" && inFlight == old(inFlight) + 1
        && var (id, items) := Resolve(old(storage.items), NewId(uuid, randomHex, now));
           req == Some(Request(settings.webhookUrl, Trim(old(input)), id)) && storage.items == items
      ensures key == "Enter" && Trim(old(input)) != "" ==>
        Messages(body) == Messages(old(body)) + [Message(User, Str(Trim(old(input))))] && TypingCount(body) == 1
      ensures req.Some? ==> StoredId(storage.items) == Some(req.value.sessionId)
    {
      if key == "Enter" {
        req := Send(uuid, randomHex, now);
      } else {
        req := None;
      }
    }

    /** The rest of `send`, after the request ends: the indicator goes and
        one bot message is appended. */
    method Complete(c: Completion)
      requires Valid() && inFlight > 0
      modifies this`body, this`inFlight
      ensures Valid() && inFlight == old(inFlight) - 1
      ensures body == AddRow(Chat.SetTyping(old(body), false), Bot, BotReply(c))
      ensures Messages(body) == Messages(old(body)) + [Message(Bot, BotReply(c))]
      ensures TypingCount(body) == 0
    {
      var reply := BotReply(c);
      SetTyping(false);
      AddMsg(Bot, reply);
      inFlight := inFlight - 1;
    }
  }

  /** `mount`: return early, creating nothing, when the config or its webhook
      URL is missing; otherwise build the widget with the resolved settings. */
  method Mount(cfg: Option<GlobalConfig.PBConfig>, storage: Storage, rootOverflow: string, bodyOverflow: string)
    returns (w: Widget?)
    ensures GlobalConfig.ReadConfig(cfg).None? <==> w == null
    ensures w != null ==>
      && fresh(w) && w.Valid() && w.settings == GlobalConfig.ReadConfig(cfg).value && w.storage == storage
      && !w.isOpen && w.input == "" && w.rootOverflow == rootOverflow && w.bodyOverflow == bodyOverflow
      && w.inFlight == 0 && w.body == [Row(Message(Bot, Str(w.settings.greeting)))]
      && Messages(w.body) == [Message(Bot, Str(w.settings.greeting))] && TypingCount(w.body) == 0
  {
    var settings := GlobalConfig.ReadConfig(cfg);
    if settings.None? {
      return null;
    }
    w := new Widget(settings.value, storage, rootOverflow, bodyOverflow);
  }

  // ---------------------------------------------------------------------
  // Lemmas about the reply

  /** A failed request shows "Ошибка соединения"; a truthy answer that
      renders is shown, one whose rendering throws is replaced by the
      connection error, and no answer gives "Ок". A decode failure behaves
      like `{}`. */
  lemma BotReplyCases(c: Completion)
    ensures c.Failed? ==> BotReply(c) == Str(ConnectionErrorText)
    ensures c.Replied? ==> var a := PickText(c.data.GetOr(Obj(map[])));
      && (Truthy(a) && !ToStringThrows(a) ==> BotReply(c) == a)
      && (Truthy(a) && ToStringThrows(a) ==> BotReply(c) == Str(ConnectionErrorText))
      && (!Truthy(a) ==> BotReply(c) == Str(EmptyReplyText))
    ensures BotReply(Replied(None)) == BotReply(Replied(Some(Obj(map[])))) == Str(EmptyReplyText)
  {
  }

  /** An answer holding an object with its own `toString` key, even inside
      an array, cannot be rendered: the connection error is shown. */
  lemma NestedUnrenderableShownAsError()
    ensures BotReply(Replied(Some(Obj(map["text" := Arr([Str("a"), Obj(map["toString" := Null])])]))))
         == Str(ConnectionErrorText)
  {
    var bad := Obj(map["toString" := Null]);
    var arr := Arr([Str("a"), bad]);
    var d := Obj(map["text" := arr]);
    assert arr.items[1] == bad;
    assert Prop(d, "output") == Null && Prop(d, "text") == arr;
  }

  /** A reply `[{"text":"first"},{"text":"second"}]` shows "first". */
  lemma FirstOfArrayShown()
    ensures BotReply(Replied(Some(Arr([Obj(map["text" := Str("first")]), Obj(map["text" := Str("second")])]))))
         == Str("first")
  {
    FirstOfArrayReply();
  }
}
