/** Configuration of the shadow-DOM variant (src/widget.ts): the global
    `window.PB_CHAT_WIDGET_CONFIG` object, with `??` defaults, and the
    placement of the host element. */
module GlobalConfig {
  import opened Wrappers
  import ScriptConfig

  const DefaultTitle: string := "AI помощник"
  const DefaultPosition: string := "bottom-right"
  const DefaultPrimary: string := "#1677ff"
  const DefaultZIndex: int := 2147483647
  const DefaultGreeting: string := "Привет! Чем помочь?"

  /** `PBConfig` as the page supplies it; None is an absent or undefined
      field. `position` is any text: the declared union is not checked at
      run time. */
  datatype PBConfig = PBConfig(
    webhookUrl: Option<string>,
    title: Option<string>,
    position: Option<string>,
    primary: Option<string>,
    zIndex: Option<int>,
    greeting: Option<string>)

  /** The values `mount` works with once the config is accepted. */
  datatype Settings = Settings(
    webhookUrl: string,
    title: string,
    position: string,
    primary: string,
    zIndex: int,
    greeting: string)

  /** `mount`'s config step: None when it returns early (`!cfg?.webhookUrl`),
      else the `??` defaults applied. */
  function ReadConfig(cfg: Option<PBConfig>): Option<Settings> {
    if cfg.None? || cfg.value.webhookUrl.None? || cfg.value.webhookUrl.value == "" then None
    else
      var c := cfg.value;
      Some(Settings(c.webhookUrl.value,
                    c.title.GetOr(DefaultTitle),
                    c.position.GetOr(DefaultPosition),
                    c.primary.GetOr(DefaultPrimary),
                    c.zIndex.GetOr(DefaultZIndex),
                    c.greeting.GetOr(DefaultGreeting)))
  }

  /** `host.style.right` and `host.style.left`. */
  function HostRight(position: string): string {
    if position == "bottom-right" then "16px" else "auto"
  }

  function HostLeft(position: string): string {
    if position == "bottom-left" then "16px" else "auto"
  }

  /** The side rule in the window's CSS: right only for "bottom-right". */
  function WindowSide(position: string): string {
    if position == "bottom-right" then "right:16px" else "left:16px"
  }

  // ---------------------------------------------------------------------
  // Lemmas

  /** `mount` returns early exactly when the config object, or its webhook
      URL, is missing or the URL is empty. */
  lemma ReadConfigAborts(cfg: Option<PBConfig>)
    ensures ReadConfig(cfg).None? <==>
      (cfg.None? || cfg.value.webhookUrl.None? || cfg.value.webhookUrl.value == "")
  {
  }

  /** `??` replaces only absent fields: a supplied value, the empty string
      included, is kept. */
  lemma ReadConfigDefaults(c: PBConfig)
    requires c.webhookUrl.Some? && c.webhookUrl.value != ""
    ensures var s := ReadConfig(Some(c)).value;
      && s.webhookUrl == c.webhookUrl.value
      && (c.title.None? ==> s.title == DefaultTitle) && (c.title.Some? ==> s.title == c.title.value)
      && (c.position.None? ==> s.position == DefaultPosition) && (c.position.Some? ==> s.position == c.position.value)
      && (c.primary.None? ==> s.primary == DefaultPrimary) && (c.primary.Some? ==> s.primary == c.primary.value)
      && (c.zIndex.None? ==> s.zIndex == DefaultZIndex) && (c.zIndex.Some? ==> s.zIndex == c.zIndex.value)
      && (c.greeting.None? ==> s.greeting == DefaultGreeting) && (c.greeting.Some? ==> s.greeting == c.greeting.value)
  {
  }

  /** The host is pinned right only for "bottom-right" and left only for
      "bottom-left"; never both; any other text leaves both sides "auto". */
  lemma HostAnchors(position: string)
    ensures HostRight(position) == "16px" <==> position == "bottom-right"
    ensures HostLeft(position) == "16px" <==> position == "bottom-left"
    ensures !(HostRight(position) == "16px" && HostLeft(position) == "16px")
    ensures position != "bottom-right" && position != "bottom-left" ==>
      HostRight(position) == "auto" && HostLeft(position) == "auto"
  {
  }

  /** The two variants treat an explicitly empty title differently: the
      script-tag variant's `||` falls back to the default, `??` keeps "". */
  lemma EmptyTitleKeptOnlyHere()
    ensures ReadConfig(Some(PBConfig(Some("https://hook"), Some(""), None, None, None, None))).value.title == ""
    ensures ScriptConfig.ReadConfig(Some(map["webhookUrl" := "https://hook", "title" := ""])).value.title
         == ScriptConfig.DefaultTitle
  {
  }

  /** On the two named corners the variants agree on the side; on any other
      text the script-tag variant pins left while this one leaves the host
      at "auto" on both sides (and its window CSS still says left). */
  lemma PlacementAcrossVariants(position: string)
    ensures position == "bottom-right" ==>
      ScriptConfig.CornerOf(position) == ScriptConfig.BottomRight && HostRight(position) == "16px"
    ensures position == "bottom-left" ==>
      ScriptConfig.CornerOf(position) == ScriptConfig.BottomLeft && HostLeft(position) == "16px"
    ensures position != "bottom-right" && position != "bottom-left" ==>
      && ScriptConfig.CornerOf(position) == ScriptConfig.BottomLeft
      && HostRight(position) == "auto" && HostLeft(position) == "auto"
      && WindowSide(position) == "left:16px"
  {
  }
}
