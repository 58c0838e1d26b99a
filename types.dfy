/**
 * The records the banner reads: the resolution snapshot handed in by the
 * location-fetching code, the plugin options, and the presentation context
 * supplied by the host. All of them are read-only here.
 */
module Types {
  import opened Wrappers

  /** Tool name and title used when the plugin options leave them unset. */
  const DEFAULT_TOOL_NAME: string := "presentation"
  const DEFAULT_TOOL_TITLE: string := "Presentation"

  datatype Tone = Positive | Caution | Critical

  /** One place the document is shown: a display title and an opaque preview target. */
  datatype DocumentLocation = DocumentLocation(title: string, href: string)

  /** A resolution snapshot; `locations == None` means nothing has been resolved. */
  datatype DocumentLocationsState = DocumentLocationsState(
    locations: Option<seq<DocumentLocation>>,
    message: Option<string>,
    tone: Option<Tone>)

  /** The two plugin options the banner reads (`options.name`, `options.title`). */
  datatype PluginOptions = PluginOptions(name: Option<string>, title: Option<string>)

  /**
   * The presentation context: the name of the tool driving the preview, its
   * URL parameters (the preview target is the optional key "preview"), the
   * structure parameters it wants carried into links, and whether it offers
   * an inline `navigate` callback.
   */
  datatype PresentationContext = PresentationContext(
    name: string,
    params: map<string, string>,
    structureParams: map<string, string>,
    canNavigate: bool)

  /** JavaScript `s || fallback` for an optional string: undefined and "" are falsy. */
  function OrElse(s: Option<string>, fallback: string): (r: string)
    ensures s.Some? && s.value != "" ==> r == s.value
    ensures s.None? || s.value == "" ==> r == fallback
    ensures fallback != "" ==> r != ""
  {
    if s.Some? && s.value != "" then s.value else fallback
  }

  /** `options.name || DEFAULT_TOOL_NAME`: the tool every row of this banner belongs to. */
  function EffectiveToolName(options: PluginOptions): (r: string)
    ensures r != ""
    ensures options.name.Some? && options.name.value != "" ==> r == options.name.value
    ensures options.name.None? || options.name.value == "" ==> r == DEFAULT_TOOL_NAME
  {
    OrElse(options.name, DEFAULT_TOOL_NAME)
  }

  /** `options.title || DEFAULT_TOOL_TITLE`, shown before the title when requested. */
  function EffectiveToolTitle(options: PluginOptions): (r: string)
    ensures r != ""
    ensures options.title.Some? && options.title.value != "" ==> r == options.title.value
    ensures options.title.None? || options.title.value == "" ==> r == DEFAULT_TOOL_TITLE
  {
    OrElse(options.title, DEFAULT_TOOL_TITLE)
  }
}
