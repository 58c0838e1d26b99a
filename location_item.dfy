/**
 * One row of the banner's detail list (`LocationItem`): its label, its
 * pressed state, and what a click on it does. A row whose tool is the one
 * currently driving the preview navigates in place; any other row follows an
 * "edit" intent link into that tool.
 */
module LocationItem {
  import opened Wrappers
  import opened Types

  /** The arguments of an intent link request; the link built from them is opaque here. */
  datatype IntentLink = IntentLink(intent: string, params: map<string, string>)

  /** A call `navigate(state, params)` of the context's inline navigation callback. */
  datatype NavigateCall = NavigateCall(state: map<string, string>, params: map<string, string>)

  /**
   * What a click on a row does. `NavigateInline(None)` is the silent no-op
   * taken when the context offers no navigate callback. Only
   * `FollowIntentLink` attaches link properties to the row.
   */
  datatype ClickAction =
    | NavigateInline(call: Option<NavigateCall>)
    | FollowIntentLink(link: IntentLink)

  datatype Row = Row(caption: string, href: string, pressed: bool, action: ClickAction)

  /** The preview target a click leads to, or None when the click does nothing. */
  function ClickTarget(a: ClickAction): Option<string>
  {
    match a
    case NavigateInline(None) => None
    case NavigateInline(Some(call)) =>
      if "preview" in call.params then Some(call.params["preview"]) else None
    case FollowIntentLink(link) =>
      if "preview" in link.params then Some(link.params["preview"]) else None
  }

  /**
   * The parameters of the intent link: document id and type, mode
   * "presentation" and the tool name, then the context's structure parameters
   * spread over them, then the preview target written last.
   */
  function IntentParams(
    documentId: string, documentType: string, toolName: string,
    structureParams: map<string, string>, href: string): (p: map<string, string>)
    ensures p.Keys == {"id", "type", "mode", "presentation", "preview"} + structureParams.Keys
    ensures p["preview"] == href
    ensures forall k :: k in structureParams && k != "preview" ==> p[k] == structureParams[k]
    ensures "id" !in structureParams ==> p["id"] == documentId
    ensures "type" !in structureParams ==> p["type"] == documentType
    ensures "mode" !in structureParams ==> p["mode"] == "presentation"
    ensures "presentation" !in structureParams ==> p["presentation"] == toolName
  {
    map["id" := documentId, "type" := documentType, "mode" := "presentation", "presentation" := toolName]
      + structureParams
      + map["preview" := href]
  }

  /** `presentation?.structureParams`, spread as nothing when there is no context. */
  function StructureParams(ctx: Option<PresentationContext>): (p: map<string, string>)
    ensures ctx.None? ==> p == map[]
    ensures ctx.Some? ==> p == ctx.value.structureParams
  {
    if ctx.Some? then ctx.value.structureParams else map[]
  }

  /**
   * The click behaviour of a row for `href` that belongs to `toolName`, given
   * the name of the tool currently presenting (if any) and the context.
   */
  function ResolveClick(
    href: string, toolName: string, currentToolName: Option<string>,
    ctx: Option<PresentationContext>, documentId: string, documentType: string): (a: ClickAction)
    ensures a.NavigateInline? <==> currentToolName == Some(toolName)
    ensures a.NavigateInline? ==> (a.call.Some? <==> ctx.Some? && ctx.value.canNavigate)
    ensures a.NavigateInline? && a.call.Some? ==> a.call.value == NavigateCall(map[], map["preview" := href])
    ensures a.FollowIntentLink? ==>
      a.link == IntentLink("edit", IntentParams(documentId, documentType, toolName, StructureParams(ctx), href))
    ensures a.FollowIntentLink? && ctx.None? ==>
      a.link.params == map["id" := documentId, "type" := documentType, "mode" := "presentation",
                           "presentation" := toolName, "preview" := href]
    ensures a.FollowIntentLink? && ctx.Some? ==>
      forall k :: k in ctx.value.structureParams && k != "preview" ==> a.link.params[k] == ctx.value.structureParams[k]
    ensures ClickTarget(a) == if a == NavigateInline(None) then None else Some(href)
  {
    if currentToolName == Some(toolName) then
      NavigateInline(if ctx.Some? && ctx.value.canNavigate then Some(NavigateCall(map[], map["preview" := href])) else None)
    else
      FollowIntentLink(IntentLink("edit", IntentParams(documentId, documentType, toolName, StructureParams(ctx), href)))
  }

  /** The row rendered for `node`: "title (toolName)", its href, pressed iff active, and its click behaviour. */
  function RenderItem(
    node: DocumentLocation, documentId: string, documentType: string, toolName: string,
    active: bool, ctx: Option<PresentationContext>, currentToolName: Option<string>): (row: Row)
    ensures row.caption == node.title + " (" + toolName + ")"
    ensures row.href == node.href && row.pressed == active
    ensures row.action == ResolveClick(node.href, toolName, currentToolName, ctx, documentId, documentType)
    ensures ClickTarget(row.action) == None || ClickTarget(row.action) == Some(row.href)
  {
    Row(node.title + " (" + toolName + ")", node.href, active,
        ResolveClick(node.href, toolName, currentToolName, ctx, documentId, documentType))
  }
}
