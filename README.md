# Locations banner — a Dafny model

This project models the decision layer of the Presentation plugin's
`LocationsBanner` component. The banner sits in the document editor and says
where the document is used ("Used on three pages"). It can be expanded into
one row per location, and a click on a row opens that location's preview.

The model covers:

- the header title, chosen by a first-match chain: resolving label, then a
  non-empty message, then the count of pages (spelled out for 1 to 9, a
  numeral from 10), then "Not used on any pages";
- the header's shape: a static header with an optional tone icon while no
  locations are resolved, otherwise a card that is a button only when there
  are locations; its icon is a spinner, an info icon or a chevron that turns
  down while expanded;
- the single piece of state, `expanded`, in the class `Banner`. `Toggle`
  ignores a click when there are no locations and otherwise flips the flag.
  The detail list is hidden exactly while the banner is collapsed;
- the rows, one per location in input order. Each row has a caption, an
  active flag, and a click action. The action is either inline navigation
  (or a silent no-op when the context offers no `navigate`) or an "edit"
  intent link whose parameters are modelled as a map.

Modules: `Wrappers` (Option), `Decimal` (how a template literal prints a count,
with a parser that reads it back), `Types` (the records the banner reads, and
JavaScript `||` on optional strings), `LocationItem` (one row) and
`LocationsBanner` (title, header, view, and the `Banner` class).

The count titles come with an inverse, `CountOfTitle`. The round-trip lemma
shows that a count title always names its count. So different counts give
different titles, and no count title equals a fixed label.

Two behaviours of the code worth noting:

- a message that is the empty string does not become the title; it falls
  through to the count rule, because the code uses `||`;
- a tone icon is shown only in the static header, when no locations are
  resolved. Once locations are present, the header icon is the spinner, the
  info icon or the chevron, whatever the tone.

## Model

| member | source | states |
|---|---|---|
| `Decimal.NatToString` | packages/presentation/src/document/LocationsBanner.tsx:66 | a count prints as a non-empty string of digits with no leading zero, one digit exactly for counts below ten |
| `Decimal.ParseNatToString` | packages/presentation/src/document/LocationsBanner.tsx:66 | reading a printed count back gives the count |
| `Decimal.NatToStringInjective` | packages/presentation/src/document/LocationsBanner.tsx:66 | different counts print as different numerals |
| `Types.OrElse` | packages/presentation/src/document/LocationsBanner.tsx:81 | JavaScript `||` on an optional string: the string when set and non-empty, the fallback when undefined or empty; the result is never empty when the fallback is not |
| `Types.EffectiveToolName` | packages/presentation/src/document/LocationsBanner.tsx:134 | the rows' tool name is the configured name when it is set and non-empty, and the default otherwise; it is never empty |
| `Types.EffectiveToolTitle` | packages/presentation/src/document/LocationsBanner.tsx:81 | the shown tool title is the configured title when it is set and non-empty, and the default otherwise; it is never empty |
| `LocationsBanner.ToneIcon` | packages/presentation/src/document/LocationsBanner.tsx:37-41 | each tone has its own icon; the icon reads back as that tone |
| `LocationsBanner.ToneIconOnto` | packages/presentation/src/document/LocationsBanner.tsx:37-41 | every tone icon is the icon of the tone it stands for, so tones and icons correspond one to one |
| `LocationsBanner.Len` | packages/presentation/src/document/LocationsBanner.tsx:53 | the count is the list's length when present; it is zero exactly when the list is absent or empty |
| `LocationsBanner.CountWord` | packages/presentation/src/document/LocationsBanner.tsx:25-35 | counts 1 to 9 use the word from the table; counts from 10 use the decimal numeral |
| `LocationsBanner.CountTitle` | packages/presentation/src/document/LocationsBanner.tsx:66 | one is "Used on one page"; 2 to 9 use the word with "pages"; from 10 the numeral with "pages" |
| `LocationsBanner.Title` | packages/presentation/src/document/LocationsBanner.tsx:62-67 | resolving wins over everything; then a non-empty message verbatim; then the count title; with no locations (absent or empty) "Not used on any pages" |
| `LocationsBanner.CountTitleRoundTrip` | packages/presentation/src/document/LocationsBanner.tsx:62-67 | the count can be read back from every count title |
| `LocationsBanner.CountTitlesDistinct` | packages/presentation/src/document/LocationsBanner.tsx:62-67 | different counts give different titles, and no count title equals the resolving or the "not used" label |
| `LocationsBanner.HeaderText` | packages/presentation/src/document/LocationsBanner.tsx:116-119 | the header text ends with the title; when the tool title is shown, the text is the tool title, then exactly " · ", then the title; otherwise it is the title alone |
| `LocationsBanner.IsActive` | packages/presentation/src/document/LocationsBanner.tsx:126-129 | a row is active iff the context's preview parameter is the row's href and the context's tool is the row's tool; with no context no row is active |
| `LocationsBanner.Rows` | packages/presentation/src/document/LocationsBanner.tsx:124-136 | one row per location in input order, with caption "title (tool)"; pressed exactly when the row is active; the click action is the one the row derivation picks |
| `LocationsBanner.RenderHeader` | packages/presentation/src/document/LocationsBanner.tsx:72-122 | static header iff no locations, with a tone icon iff a tone is set; otherwise a button iff there are locations, a spinner iff resolving, the info icon iff none, and a chevron rotated iff expanded |
| `LocationsBanner.View` | packages/presentation/src/document/LocationsBanner.tsx:69-142 | the card carries the state's tone; a detail list exists iff locations are resolved, and it is hidden exactly when not expanded |
| `LocationsBanner.NoContextNoActiveRow` | packages/presentation/src/document/LocationsBanner.tsx:126-129 | with no presentation context, no row is active |
| `LocationsBanner.AtMostOneActiveRow` | packages/presentation/src/document/LocationsBanner.tsx:126-129 | when the hrefs are distinct, at most one row is active |
| `LocationsBanner.Toggled` | packages/presentation/src/document/LocationsBanner.tsx:57-60 | a click changes the expansion state iff there are locations |
| `LocationsBanner.ToggleTwice` | packages/presentation/src/document/LocationsBanner.tsx:57-60 | two clicks restore the state |
| `LocationsBanner.Banner.constructor` | packages/presentation/src/document/LocationsBanner.tsx:56 | a new banner starts collapsed |
| `LocationsBanner.Banner.Toggle` | packages/presentation/src/document/LocationsBanner.tsx:57-60 | with no locations the state is unchanged; otherwise `expanded` is negated |
| `LocationsBanner.Banner.Render` | packages/presentation/src/document/LocationsBanner.tsx:123 | the current render follows the banner's state; the detail list is hidden iff not expanded |
| `LocationsBanner.FetchFailedScenario` | packages/presentation/src/document/LocationsBanner.tsx:72-86 | a failed resolution with a critical tone shows its message, the critical icon, and nothing expandable |
| `LocationsBanner.SingleLocationScenario` | packages/presentation/src/document/LocationsBanner.tsx:87-136 | one location gives "Used on one page", a button header with a chevron, and one row "Home (presentation)" with href "/" |
| `LocationItem.IntentParams` | packages/presentation/src/document/LocationsBanner.tsx:158-168 | the link parameters have the four fixed keys, the structure parameters and "preview"; structure parameters override the fixed keys; "preview" is always the row's href |
| `LocationItem.ResolveClick` | packages/presentation/src/document/LocationsBanner.tsx:155-179 | inline navigation iff the row's tool is the current tool. It calls navigate({}, {preview: href}) when navigate exists and does nothing otherwise. Any other row follows an "edit" link with the intent parameters. Without a context the link carries exactly the four fixed keys and "preview"; with one, every structure parameter other than "preview" reaches the link. Every click that acts leads to the row's href |
| `LocationItem.RenderItem` | packages/presentation/src/document/LocationsBanner.tsx:174-201 | the row shows "title (tool)" and the href, is pressed iff active, and carries the resolved click action; a click on it does nothing or leads to the href the row shows |

## Left out

- Rendering: the JSX tree, the UI library's layout parts, the icon components
  and the chevron's CSS transition. Icons are tags. The rotation is the
  boolean `rotated`.
- The hooks (`useState`, `useCallback`, `useContext`). The context and the
  current tool name are explicit inputs. `expanded` is a field of `Banner`.
  The toggle callback's captured `len` is a parameter of `Toggle`.
- `useIntentLink`: how the router turns the intent parameters into an href
  and a click handler is not part of this model. Only the intent and the
  parameter map are modelled.
- `navigate`: what the host does with the call is not part of this model.
  Only the arguments it receives are modelled.
- `useCurrentPresentationToolName` and `PresentationContext` are not part of
  this model. Their values are inputs. Whether `navigate` exists is a flag of
  the context.
- `packages/presentation/src/constants.ts` is not part of this model. The
  defaults are taken as "presentation" and "Presentation". The general
  contracts use only the fact that they are non-empty. The example
  `SingleLocationScenario` depends on the assumed value "presentation",
  because its row caption contains the tool name.
- Key order of the intent parameter object: a map has no order, so only the
  final value of each key is modelled.
- Structure parameters and URL parameters are modelled as string-to-string
  maps.
- React `key` props, the row's desktop icon and its muted href styling
  (presentation only).
