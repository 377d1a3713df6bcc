/** Client scenarios for the shadow-DOM variant, proved from the handlers'
    contracts alone. */
module ShadowScenarios {
  import opened Wrappers
  import opened JsString
  import opened Session
  import opened Chat
  import GlobalConfig
  import opened ShadowWidget

  /** Mount with a page's config, open with the bubble, close with Escape:
      the page's scroll is locked while open and its inline overflow styles
      are cleared afterwards, whatever they were before; a second Escape
      changes nothing. */
  method BubbleThenEscape(cfg: GlobalConfig.PBConfig, storage: Storage, rootOverflow: string, bodyOverflow: string)
    requires cfg.webhookUrl.Some? && cfg.webhookUrl.value != ""
  {
    var w := Mount(Some(cfg), storage, rootOverflow, bodyOverflow);
    assert w != null;
    assert w.rootOverflow == rootOverflow && !w.isOpen;
    w.ClickBubble();
    assert w.isOpen && w.ScrollLocked();
    w.PressDocumentKey("Escape");
    assert !w.isOpen && w.rootOverflow == "" && w.bodyOverflow == "";
    w.PressDocumentKey("Escape");
    assert !w.isOpen && w.ScrollUnlocked();
  }

  /** Nothing stops a second message while the first is pending: both are
      sent, and when the first answer arrives the indicator disappears even
      though the second request is still open. */
  method SecondSendWhilePending(w: Widget, text: string, c: Completion, uuid: Option<string>, hex: string, now: string)
    requires w.Valid() && w.inFlight == 1 && TypingCount(w.body) == 1
    requires Trim(text) != ""
    modifies w, w.storage
  {
    w.EditInput(text);
    assert Trim(w.input) != "";
    var second := w.PressInputKey("Enter", uuid, hex, now);
    assert second.Some? && w.inFlight == 2 && w.Valid();
    w.Complete(c);
    assert w.inFlight == 1 && TypingCount(w.body) == 0;
  }
}
