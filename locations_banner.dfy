/**
 * The banner (`LocationsBanner`): from a resolution snapshot it derives the
 * header title, the header's shape and icon, and one row per location; it
 * owns a single piece of state, whether the detail list is expanded.
 */
module LocationsBanner {
  import opened Wrappers
  import opened Decimal
  import opened Types
  import opened LocationItem

  const RESOLVING_LABEL: string := "Resolving locations..."
  const NOT_USED_LABEL: string := "Not used on any pages"
  const USED_ON: string := "Used on "

  /** Counts that are spelled out as words in the title. */
  const LENGTH_FORMAT: map<nat, string> := map[
    1 := "one", 2 := "two", 3 := "three", 4 := "four", 5 := "five",
    6 := "six", 7 := "seven", 8 := "eight", 9 := "nine"]

  /** The icons the banner can show; the chevron records whether it is turned down. */
  datatype Icon = Spinner | InfoOutline | WarningOutline | ErrorOutline | ChevronRight(rotated: bool)

  /** The header: static when nothing is resolved, otherwise a clickable card. */
  datatype Header =
    | StaticHeader(toneIcon: Option<Icon>, text: string)
    | ToggleHeader(isButton: bool, icon: Icon, text: string)

  /** The detail list: always present once locations are resolved, hidden while collapsed. */
  datatype Detail = Detail(hidden: bool, rows: seq<Row>)

  /** What one render of the banner shows; `tone` is the tone of the outer card. */
  datatype BannerView = BannerView(tone: Option<Tone>, header: Header, detail: Option<Detail>)

  /** The banner's inputs; `documentType` is the name of the document's schema type. */
  datatype BannerProps = BannerProps(
    documentId: string,
    documentType: string,
    isResolving: bool,
    options: PluginOptions,
    showPresentationTitle: bool,
    state: DocumentLocationsState)

  /** The icon bound to each tone (`TONE_ICONS`). */
  function ToneIcon(t: Tone): (i: Icon)
    ensures ToneOfIcon(i) == Some(t)
  {
    match t
    case Positive => InfoOutline
    case Caution => WarningOutline
    case Critical => ErrorOutline
  }

  /** The tone an icon stands for, if any. */
  function ToneOfIcon(i: Icon): Option<Tone>
  {
    match i
    case InfoOutline => Some(Positive)
    case WarningOutline => Some(Caution)
    case ErrorOutline => Some(Critical)
    case _ => None
  }

  /** Every icon that stands for a tone is that tone's icon: tones and their icons correspond one to one. */
  lemma ToneIconOnto(i: Icon)
    requires ToneOfIcon(i).Some?
    ensures ToneIcon(ToneOfIcon(i).value) == i
  {
  }

  /** `locations?.length || 0`. */
  function Len(state: DocumentLocationsState): (n: nat)
    ensures n == 0 <==> state.locations.None? || state.locations.value == []
    ensures state.locations.Some? ==> n == |state.locations.value|
  {
    if state.locations.Some? then |state.locations.value| else 0
  }

  /** `LENGTH_FORMAT[len] || len`: the word for 1 to 9, the decimal numeral otherwise. */
  function CountWord(len: nat): (w: string)
    requires len >= 1
    ensures 1 <= len <= 9 ==> len in LENGTH_FORMAT && w == LENGTH_FORMAT[len]
    ensures len >= 10 ==> w == NatToString(len)
  {
    if len in LENGTH_FORMAT then LENGTH_FORMAT[len] else NatToString(len)
  }

  /** "Used on {word} page(s)", with "page" plural unless the count is one. */
  function CountTitle(len: nat): (t: string)
    requires len >= 1
    ensures len == 1 ==> t == "Used on one page"
    ensures 2 <= len <= 9 ==> t == USED_ON + LENGTH_FORMAT[len] + " pages"
    ensures len >= 10 ==> t == USED_ON + NatToString(len) + " pages"
  {
    USED_ON + CountWord(len) + " page" + (if len == 1 then "" else "s")
  }

  /**
   * The header title, by the first rule that applies: resolving, a non-empty
   * message verbatim, the count of pages, and "not used" when there are none.
   */
  function Title(isResolving: bool, message: Option<string>, len: nat): (t: string)
    ensures isResolving ==> t == RESOLVING_LABEL
    ensures !isResolving && message.Some? && message.value != "" ==> t == message.value
    ensures !isResolving && (message.None? || message.value == "") && len >= 1 ==> t == CountTitle(len)
    ensures !isResolving && (message.None? || message.value == "") && len == 0 ==> t == NOT_USED_LABEL
  {
    if isResolving then RESOLVING_LABEL
    else if message.Some? && message.value != "" then message.value
    else if len != 0 then CountTitle(len)
    else NOT_USED_LABEL
  }

  /** The position of `w` among the spelled-out counts, searching from `k`. */
  function WordIndex(w: string, k: nat): Option<nat>
    decreases 10 - k
  {
    if k < 1 || k > 9 then None
    else if LENGTH_FORMAT[k] == w then Some(k)
    else WordIndex(w, k + 1)
  }

  /** Reads the count back from the word or numeral of a count title. */
  function CountOfWord(w: string): Option<nat>
  {
    match WordIndex(w, 1)
    case Some(k) => Some(k)
    case None =>
      match ParseDecimal(w)
      case Some(n) => if n >= 10 then Some(n) else None
      case None => None
  }

  /** Reads the count back from a count title; None for any other string. */
  function CountOfTitle(t: string): Option<nat>
  {
    if |t| < |USED_ON| || t[..|USED_ON|] != USED_ON then None
    else
      var rest := t[|USED_ON|..];
      if |rest| >= 6 && rest[|rest| - 6..] == " pages" then
        var n := CountOfWord(rest[..|rest| - 6]);
        if n.Some? && n.value != 1 then n else None
      else if |rest| >= 5 && rest[|rest| - 5..] == " page" && CountOfWord(rest[..|rest| - 5]) == Some(1) then
        Some(1)
      else None
  }

  lemma WordIndexOfWord(n: nat)
    requires 1 <= n <= 9
    ensures WordIndex(LENGTH_FORMAT[n], 1) == Some(n)
  {
  }

  lemma {:induction false} WordIndexOfNumeral(w: string, k: nat)
    requires w != [] && IsDigit(w[0])
    ensures WordIndex(w, k) == None
    decreases 10 - k
  {
    if 1 <= k <= 9 {
      assert !IsDigit(LENGTH_FORMAT[k][0]);
      WordIndexOfNumeral(w, k + 1);
    }
  }

  /** The word or numeral of a count reads back as that count. */
  lemma CountOfCountWord(n: nat)
    requires n >= 1
    ensures CountOfWord(CountWord(n)) == Some(n)
  {
    if n <= 9 {
      WordIndexOfWord(n);
    } else {
      WordIndexOfNumeral(NatToString(n), 1);
      ParseNatToString(n);
    }
  }

  /** A count title names its count: reading it back gives the count. */
  lemma CountTitleRoundTrip(n: nat)
    requires n >= 1
    ensures CountOfTitle(CountTitle(n)) == Some(n)
  {
    var w := CountWord(n);
    var t := CountTitle(n);
    CountOfCountWord(n);
    assert t[..|USED_ON|] == USED_ON;
    var rest := t[|USED_ON|..];
    if n == 1 {
      assert rest == "one page";
    } else {
      assert rest == w + " pages";
      assert rest[..|rest| - 6] == w;
    }
  }

  /** Different counts give different titles, and none of them is a fixed label. */
  lemma CountTitlesDistinct(m: nat, n: nat)
    requires m >= 1 && n >= 1
    ensures CountTitle(m) == CountTitle(n) ==> m == n
    ensures CountTitle(n) != NOT_USED_LABEL && CountTitle(n) != RESOLVING_LABEL
  {
    CountTitleRoundTrip(m);
    CountTitleRoundTrip(n);
    assert CountTitle(n)[0] == 'U';
    assert NOT_USED_LABEL[0] == 'N' && RESOLVING_LABEL[0] == 'R';
  }

  /** The header text: the title, preceded by "{tool title} · " when the tool title is shown. */
  function HeaderText(showPresentationTitle: bool, options: PluginOptions, title: string): (s: string)
    ensures |s| >= |title| && s[|s| - |title|..] == title
    ensures showPresentationTitle <==> |s| > |title|
    ensures showPresentationTitle ==>
      |s| > |EffectiveToolTitle(options)| && s[..|EffectiveToolTitle(options)|] == EffectiveToolTitle(options)
    ensures showPresentationTitle ==>
      |s| == |EffectiveToolTitle(options)| + 3 + |title|
      && s[|EffectiveToolTitle(options)|..|s| - |title|] == " \U{B7} "
  {
    if showPresentationTitle then EffectiveToolTitle(options) + " \U{B7} " + title else title
  }

  /**
   * Whether the row for `href` of tool `toolName` is marked active: the
   * context's tool is that tool and its preview parameter is that href.
   */
  function IsActive(toolName: string, href: string, ctx: Option<PresentationContext>): (active: bool)
    ensures ctx.None? ==> !active
    ensures active <==> PreviewParam(ctx) == Some(href) && ctx.value.name == toolName
  {
    ctx.Some? && toolName == ctx.value.name
    && "preview" in ctx.value.params && ctx.value.params["preview"] == href
  }

  /** `presentation?.params.preview`: the preview target of the context, if any. */
  function PreviewParam(ctx: Option<PresentationContext>): Option<string>
  {
    if ctx.Some? && "preview" in ctx.value.params then Some(ctx.value.params["preview"]) else None
  }

  /** One row per location, in input order (`locations.map`). */
  function Rows(props: BannerProps, ctx: Option<PresentationContext>, currentToolName: Option<string>): (rows: seq<Row>)
    requires props.state.locations.Some?
    ensures |rows| == |props.state.locations.value|
    ensures forall i :: 0 <= i < |rows| ==>
      var l := props.state.locations.value[i];
      var toolName := EffectiveToolName(props.options);
      rows[i].href == l.href
      && rows[i].caption == l.title + " (" + toolName + ")"
      && rows[i].pressed == IsActive(toolName, l.href, ctx)
      && rows[i].action == ResolveClick(l.href, toolName, currentToolName, ctx, props.documentId, props.documentType)
  {
    var locations := props.state.locations.value;
    var toolName := EffectiveToolName(props.options);
    seq(|locations|, i requires 0 <= i < |locations| =>
      RenderItem(locations[i], props.documentId, props.documentType, toolName,
                 IsActive(toolName, locations[i].href, ctx), ctx, currentToolName))
  }

  /** The header: static with an optional tone icon, or a toggle card once locations are resolved. */
  function RenderHeader(props: BannerProps, expanded: bool): (h: Header)
    ensures h.StaticHeader? <==> props.state.locations.None?
    ensures h.text == HeaderText(props.showPresentationTitle, props.options,
                                 Title(props.isResolving, props.state.message, Len(props.state)))
    ensures h.StaticHeader? ==> (h.toneIcon.Some? <==> props.state.tone.Some?)
    ensures h.StaticHeader? && props.state.tone.Some? ==> ToneOfIcon(h.toneIcon.value) == props.state.tone
    ensures h.ToggleHeader? ==> (h.isButton <==> Len(props.state) > 0)
    ensures h.ToggleHeader? ==> (h.icon.Spinner? <==> props.isResolving)
    ensures h.ToggleHeader? && !props.isResolving ==>
      (h.icon.InfoOutline? <==> Len(props.state) == 0) && (h.icon.ChevronRight? <==> Len(props.state) > 0)
    ensures h.ToggleHeader? && h.icon.ChevronRight? ==> h.icon.rotated == expanded
  {
    var len := Len(props.state);
    var text := HeaderText(props.showPresentationTitle, props.options,
                           Title(props.isResolving, props.state.message, len));
    if props.state.locations.None? then
      StaticHeader(if props.state.tone.Some? then Some(ToneIcon(props.state.tone.value)) else None, text)
    else
      ToggleHeader(len != 0,
                   if props.isResolving then Spinner else if len == 0 then InfoOutline else ChevronRight(expanded),
                   text)
  }

  /** One render of the banner for the given inputs and expansion state. */
  function View(props: BannerProps, ctx: Option<PresentationContext>, currentToolName: Option<string>,
                expanded: bool): (v: BannerView)
    ensures v.tone == props.state.tone
    ensures v.header == RenderHeader(props, expanded)
    ensures v.detail.Some? <==> props.state.locations.Some?
    ensures v.detail.Some? ==>
      v.detail.value.hidden == !expanded && v.detail.value.rows == Rows(props, ctx, currentToolName)
  {
    BannerView(props.state.tone, RenderHeader(props, expanded),
               if props.state.locations.Some? then Some(Detail(!expanded, Rows(props, ctx, currentToolName)))
               else None)
  }

  /** Without a presentation context no row is active. */
  lemma NoContextNoActiveRow(props: BannerProps, currentToolName: Option<string>)
    requires props.state.locations.Some?
    ensures forall r :: r in Rows(props, None, currentToolName) ==> !r.pressed
  {
  }

  /** When the hrefs of the locations are distinct, at most one row is active. */
  lemma AtMostOneActiveRow(props: BannerProps, ctx: Option<PresentationContext>, currentToolName: Option<string>)
    requires props.state.locations.Some?
    requires forall i, j :: 0 <= i < j < |props.state.locations.value| ==>
      props.state.locations.value[i].href != props.state.locations.value[j].href
    ensures var rows := Rows(props, ctx, currentToolName);
      forall i, j :: 0 <= i < |rows| && 0 <= j < |rows| && rows[i].pressed && rows[j].pressed ==> i == j
  {
  }

  /** The value of `expanded` after the header's click handler runs with `len` locations. */
  function Toggled(expanded: bool, len: nat): (t: bool)
    ensures t != expanded <==> len > 0
  {
    if len == 0 then expanded else !expanded
  }

  /** Two clicks restore the expansion state. */
  lemma ToggleTwice(expanded: bool, len: nat)
    ensures Toggled(Toggled(expanded, len), len) == expanded
  {
  }

  /** A mounted banner: its only state is whether the detail list is expanded. */
  class Banner {
    var expanded: bool

    constructor ()
      ensures !expanded
    {
      expanded := false;
    }

    /** The header's click handler: ignored when there are no locations, otherwise flips `expanded`. */
    method Toggle(len: nat)
      modifies this
      ensures expanded == Toggled(old(expanded), len)
    {
      if len == 0 {
        return;
      }
      expanded := !expanded;
    }

    /** The current render: the detail list is hidden exactly while the banner is collapsed. */
    function Render(props: BannerProps, ctx: Option<PresentationContext>, currentToolName: Option<string>): (v: BannerView)
      reads this
      ensures v == View(props, ctx, currentToolName, expanded)
      ensures v.detail.Some? ==> (v.detail.value.hidden <==> !expanded)
    {
      View(props, ctx, currentToolName, expanded)
    }
  }

  /** A failed resolution: the message is the title, the critical icon is shown, nothing can expand. */
  lemma FetchFailedScenario(documentId: string, documentType: string)
    ensures var props := BannerProps(documentId, documentType, false, PluginOptions(None, None), false,
                                     DocumentLocationsState(None, Some("Fetch failed"), Some(Critical)));
      View(props, None, None, false) == BannerView(Some(Critical), StaticHeader(Some(ErrorOutline), "Fetch failed"), None)
  {
  }

  /** A single resolved location: "Used on one page", a clickable header, one row labelled with the default tool. */
  lemma SingleLocationScenario(documentId: string, documentType: string, expanded: bool)
    ensures var props := BannerProps(documentId, documentType, false, PluginOptions(None, None), false,
                                     DocumentLocationsState(Some([DocumentLocation("Home", "/")]), None, None));
      var v := View(props, None, None, expanded);
      v.header == ToggleHeader(true, ChevronRight(expanded), "Used on one page")
      && v.detail.Some? && |v.detail.value.rows| == 1
      && v.detail.value.rows[0].caption == "Home (presentation)" && v.detail.value.rows[0].href == "/"
  {
  }
}
