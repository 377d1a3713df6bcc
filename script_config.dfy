/** Configuration of the script-tag variant (pb-chat-widget.js): the
    `data-*` attributes of the loading `<script>`, with `||` defaults, and
    the corner the widget is pinned to. */
module ScriptConfig {
  import opened Wrappers

  const DefaultTitle: string := "AI помощник"
  const DefaultPosition: string := "bottom-right"
  const DefaultPrimary: string := "#1677ff"
  const DefaultZIndex: string := "99999"

  /** The resolved configuration. `zIndex` is the text handed to `Number()`. */
  datatype Config = Config(webhookUrl: string, title: string, position: string, primary: string, zIndex: string)

  /** `document.currentScript?.dataset?.[key] || default`. `script` is the
      dataset of the current script, None when `document.currentScript` is
      null; a missing attribute and an empty one both give the default. */
  function Attr(script: Option<map<string, string>>, key: string, default: string): string {
    if script.Some? && key in script.value && script.value[key] != "" then script.value[key] else default
  }

  /** The `cfg` object, or None when the widget aborts (no webhook URL). */
  function ReadConfig(script: Option<map<string, string>>): Option<Config> {
    var url := Attr(script, "webhookUrl", "");
    if url == "" then None
    else Some(Config(url,
                     Attr(script, "title", DefaultTitle),
                     Attr(script, "position", DefaultPosition),
                     Attr(script, "primary", DefaultPrimary),
                     Attr(script, "zIndex", DefaultZIndex)))
  }

  datatype Corner = BottomRight | BottomLeft

  /** `isBR`: only the exact text "bottom-right" pins to the right. */
  function CornerOf(position: string): Corner {
    if position == "bottom-right" then BottomRight else BottomLeft
  }

  /** The inline placement of the bubble and of the window (`posStyles`). */
  datatype Placement = Placement(bubble: string, window: string)

  function PosStyles(position: string): Placement {
    match CornerOf(position)
    case BottomRight => Placement("right:16px;bottom:16px;", "right:16px;bottom:86px;")
    case BottomLeft => Placement("left:16px;bottom:16px;", "left:16px;bottom:86px;")
  }

  // ---------------------------------------------------------------------
  // Lemmas

  /** The widget aborts exactly when the webhook URL attribute is missing or
      empty, or there is no current script at all. */
  lemma ReadConfigAborts(script: Option<map<string, string>>)
    ensures ReadConfig(script).None? <==>
      (script.None? || "webhookUrl" !in script.value || script.value["webhookUrl"] == "")
  {
  }

  /** With `||` every resolved field is non-empty: an empty attribute is
      replaced by the default just as a missing one is. */
  lemma ReadConfigNoEmptyField(script: Option<map<string, string>>)
    requires ReadConfig(script).Some?
    ensures var c := ReadConfig(script).value;
      c.webhookUrl != "" && c.title != "" && c.position != "" && c.primary != "" && c.zIndex != ""
  {
  }

  /** A supplied non-empty attribute wins; otherwise the default is used. */
  lemma ReadConfigDefaults(attrs: map<string, string>)
    requires ReadConfig(Some(attrs)).Some?
    ensures var c := ReadConfig(Some(attrs)).value;
      && c.webhookUrl == attrs["webhookUrl"]
      && c.title == (if "title" in attrs && attrs["title"] != "" then attrs["title"] else DefaultTitle)
      && c.position == (if "position" in attrs && attrs["position"] != "" then attrs["position"] else DefaultPosition)
      && c.primary == (if "primary" in attrs && attrs["primary"] != "" then attrs["primary"] else DefaultPrimary)
  {
  }

  /** Bubble and window always sit on the same side, and that side is the
      right one only for "bottom-right": anything else, a misspelling or an
      unknown corner included, goes left. */
  lemma PosStylesSide(position: string)
    ensures var p := PosStyles(position);
      position == "bottom-right" ==> "right:16px;" <= p.bubble && "right:16px;" <= p.window
    ensures var p := PosStyles(position);
      position != "bottom-right" ==> "left:16px;" <= p.bubble && "left:16px;" <= p.window
  {
    var p := PosStyles(position);
    if position == "bottom-right" {
      assert p.bubble == "right:16px;" + "bottom:16px;";
      assert p.window == "right:16px;" + "bottom:86px;";
    } else {
      assert p.bubble == "left:16px;" + "bottom:16px;";
      assert p.window == "left:16px;" + "bottom:86px;";
    }
  }
}
