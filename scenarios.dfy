/** Client scenarios: what a page can rely on, proved from the handlers'
    contracts alone. */
module ScriptScenarios {
  import opened Wrappers
  import opened Json
  import opened JsString
  import opened Session
  import opened Chat
  import ScriptConfig
  import opened ScriptWidget

  /** Open the window, type a message, send it and get reply `c`: the user's
      trimmed text is logged at once, the indicator shows while waiting, and
      afterwards the log ends with the reply, the indicator is gone and the
      button is enabled again. */
  method SendAndReply(config: ScriptConfig.Config, storage: Storage, text: string, c: Completion, uuid: Option<string>, hex: string, now: string)
    requires config.webhookUrl != "" && Trim(text) != ""
    modifies storage
  {
    var w := new Widget(config, storage);
    var greeting := Message(Bot, Str(Greeting));
    w.Toggle();
    w.EditInput(text);
    assert Trim(w.input) != "" && !w.sendDisabled;
    var req := w.ClickSend(uuid, hex, now);
    assert req.Some? && req.value.chatInput == Trim(text) && req.value.url == config.webhookUrl;
    var sent := Messages(w.body);
    assert sent == [greeting] + [Message(User, Str(Trim(text)))];
    assert TypingCount(w.body) == 1 && w.sendDisabled && w.isOpen;
    w.Complete(c);
    assert Messages(w.body) == sent + [Message(Bot, BotReply(c))];
    assert TypingCount(w.body) == 0 && !w.sendDisabled;
  }

  /** While a request is pending the button is disabled and ignores clicks,
      but Enter in the input field still sends: a second request is issued. */
  method EnterBypassesDisabledButton(w: Widget, text: string, uuid: Option<string>, hex: string, now: string)
    requires w.Valid() && w.sendDisabled && w.inFlight == 1
    requires Trim(text) != ""
    modifies w, w.storage
  {
    w.EditInput(text);
    var blocked := w.ClickSend(uuid, hex, now);
    assert blocked.None? && w.input == text;
    var second := w.PressKey("Enter", uuid, hex, now);
    assert second.Some? && w.inFlight == 2;
  }
}
