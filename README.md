# Fampay card feed: presentation rules

A Dafny model of the card presentation rules of the Fampay feed app, a SwiftUI
client that draws a server-driven list of card groups. The model covers:

- the `DesignTypes` enumeration (`HC1`, `HC3`, `HC5`, `HC6`, `HC9`): its raw
  strings and the nominal background height of each type (`design_types.dfy`);
- the decoded card and card-group records (`card_model.dfy`);
- what a `CardView` draws: the title/description fallback, the content area for
  each design type (including the dynamic-width image) and the background,
  picked in the fixed order colour, gradient, image (`card_view.dfy`);
- the per-card `@State` flags `showReminderActions`, `isSliding` and
  `isDismissed`, and the long-press, tap and button handlers that change them,
  as a class `CardState` beside a pure step function over event sequences
  (`card_interaction.dfy`);
- the `CardGroupView` decision between a horizontally scrolling row and a fixed
  row, and the design type each card of a group is drawn with
  (`card_group_view.dfy`).

Two foreign calls are parameters. The image-size lookup `imageDimensions(url:)`
is a total function `string -> Option<Dimensions>`. `URL(string:)` succeeding is
a predicate `parses: string -> bool`. A link "opened" is returned as
`Some(url)` instead of being handed to `UIApplication.shared.open`.

The model follows the code as written. These behaviours of the code are easy
to miss:

- No design type suppresses the colour or gradient background. The big display
  (`HC3`) and image (`HC5`) cards use the same colour > gradient > image order as
  every other type (`DesignTypeOnlySetsHeight`).
- A dynamic-width (`HC9`) group is drawn in a fixed `HStack`, so it is a
  horizontal row, not a vertical stack. Both group bodies are horizontal.
- A failed size lookup gives a clear box at the design type's height, not a
  placeholder image. The "placeholder" asset appears only while an image loads or
  after its load fails.
- `isDismissed` is set but never read. A dismissed card is still drawn, and a
  tap on it still opens its link once it has stopped sliding
  (`DismissedCardNavigation`).
- There is no `{}` markup expander. Titles and descriptions are shown as raw
  strings, and the entity lists are never read.
- `renderBigDisplayCard` builds a title stack with its own long-press handler
  and then returns only the button row (CardView.swift:143). The title stack
  is discarded, so a big display card shows no text and its handler never runs.
  As a result, no reachable code changes `showReminderActions`
  (`RunKeepsReminderActions`).

## Model

| member | source | states |
|---|---|---|
| DesignTypes.RawValue | Fampay/CardView.swift:256-261 | each design type's raw value is a three-character string starting with "HC" |
| DesignTypes.FromRawValue | Fampay/CardView.swift:256-261 | a successful decode always yields a type whose raw value is the decoded string |
| DesignTypes.RawValueRoundTrip | Fampay/CardView.swift:256-261 | decoding the raw value of any design type gives that type back |
| DesignTypes.RawValueInjective | Fampay/CardView.swift:256-261 | two design types with the same raw string are the same type |
| DesignTypes.FromRawValueExactlyOnRawValues | Fampay/CardView.swift:256-261 | decoding succeeds exactly on the five raw strings and fails on every other string |
| DesignTypes.BackgroundHeight | Fampay/CardView.swift:263-274 | heights lie in 60..250, and the height is 60 exactly for HC1 and HC6 |
| DesignTypes.BackgroundHeightTable | Fampay/CardView.swift:263-274 | the table: 60 for HC1 and HC6, 250 for HC3, 195 for HC5, 200 for HC9; only HC1 and HC6 share a height |
| CardView.DisplayText | Fampay/CardView.swift:93-96 | the formatted text's `text` is shown if present, else the plain string, else "" |
| CardView.CardTitle | Fampay/CardView.swift:93-96 | the title shown is the first present of `formatted_title.text` and `title`, else "" (via `DisplayTextIsFirstPresent`); also at lines 188 and 109 |
| CardView.CardDescription | Fampay/CardView.swift:188-191 | the description shown is the first present of `formatted_description.text` and `description`, else ""; also at lines 96 and 116 |
| CardView.DisplayTextIsFirstPresent | Fampay/CardView.swift:93-96 | the displayed text equals the first present candidate of the two-element `??` chain, with "" as the default |
| CardView.TitleAndDescriptionIndependent | Fampay/CardView.swift:188-191 | the title depends only on the two title fields and the description only on the two description fields; both follow the same rule |
| CardView.ShowRemoteImage | Fampay/CardView.swift:57-71 | an async image shows the picture in its frame exactly when loaded, and the placeholder at the given height while loading or after a failure |
| CardView.ResolveBackground | Fampay/CardView.swift:41-79 | a solid colour exactly when `bg_color` is present; a gradient exactly when only the gradient wins; an image or clear box exactly when only an image URL is present; every non-image frame at the type's height. Specified further by `BackgroundIsFirstSource`, `ColorWins`, `GradientWinsOverImage`, `ImageBackgroundFollowsLookup`, `NoBackgroundExactlyWithoutSources`, `DesignTypeOnlySetsHeight` |
| CardView.BackgroundIsFirstSource | Fampay/CardView.swift:40-80 | the background is the first present source in the order colour, gradient, image URL, drawn on its own; with no source there is no background |
| CardView.ColorWins | Fampay/CardView.swift:41-45 | a present colour gives a solid colour at the type's height, whatever the gradient and the image hold, for every design type |
| CardView.GradientWinsOverImage | Fampay/CardView.swift:46-54 | with no colour, a gradient gives its colours in order, leading to trailing; its angle and the image play no part |
| CardView.ImageBackgroundFollowsLookup | Fampay/CardView.swift:55-78 | with no colour or gradient, an image URL gives an image framed to exactly the looked-up size, or a clear box of the type's height when the lookup fails |
| CardView.NoBackgroundExactlyWithoutSources | Fampay/CardView.swift:41-80 | there is no background exactly when there is no colour, no gradient and no image URL, including a `bg_image` without a URL |
| CardView.DesignTypeOnlySetsHeight | Fampay/CardView.swift:41-79 | two design types give the same background except for the nominal height, so no type suppresses a source |
| CardView.ImageBackgroundPhases | Fampay/CardView.swift:56-72 | an image background shows the picture at the looked-up size once loaded, and the placeholder at the type's height otherwise |
| CardView.DynamicWidthImage | Fampay/CardView.swift:202-226 | a dynamic-width card has an image exactly when `bg_image.image_url` exists: that URL, filling a 200-point height, with a placeholder at the type's height |
| CardView.DynamicWidthCardImage | Fampay/CardView.swift:202-226 | an HC9 card shows nothing without an image URL; with one, it shows the picture at height 200 once loaded and a 200-point placeholder otherwise |
| CardView.CardContent | Fampay/CardView.swift:13-36 | text content exactly for HC1 and HC6, the button row exactly for HC3, empty content exactly for HC5, the dynamic image exactly for HC9 (see `ContentShowsTextOnlyForSmallCards`, `DynamicWidthCardImage`) |
| CardView.RenderCard | Fampay/CardView.swift:11-81 | a card draws its content over its background; an HC9 card without colour or gradient uses its image URL both as content and as background |
| CardView.ContentShowsTextOnlyForSmallCards | Fampay/CardView.swift:13-36 | only HC1 and HC6 show text; they show the fallback title and description, and only HC6 adds the arrow |
| CardView.LinkTarget | Fampay/CardView.swift:249-253 | a link is opened exactly when the card has a URL that parses, and it is that URL |
| CardView.TapTarget | Fampay/CardView.swift:18-29 | a tap opens only the card's `LinkTarget`, and opens nothing exactly when the card is a sliding HC3 card or has no parsable URL; the card-wide handler of lines 84-88 serves the other types (see `TapOpensLinkExactly`) |
| CardView.TapOpensLinkExactly | Fampay/CardView.swift:18-29 | a tap opens the card's URL exactly when it parses and the card is not a sliding HC3 card; sliding does not matter for other types |
| CardInteraction.Step | Fampay/CardView.swift:19-29 | one event never changes `showReminderActions` and never undoes a dismissal; a card of a type other than HC3 keeps its flags, since only HC3 has the long press (21) and the buttons calling `remindLater`/`dismissCard` (143-171, 241-247) |
| CardInteraction.Run | Fampay/CardView.swift:241-247 | after any sequence of events a dismissed card stays dismissed, and a card of a type other than HC3 keeps all three flags (see `RunKeepsReminderActions`, `RunDismissed`, `LongPressParity`) |
| CardInteraction.LongPressTwiceRestores | Fampay/CardView.swift:19-22 | two completed long presses restore the flags |
| CardInteraction.RunKeepsReminderActions | Fampay/CardView.swift:7-9 | no sequence of events changes `showReminderActions` |
| CardInteraction.RunDismissed | Fampay/CardView.swift:241-243 | after any events, a card is dismissed exactly when it started dismissed or it is an HC3 card whose "Dismiss Now" button was pressed |
| CardInteraction.LongPressParity | Fampay/CardView.swift:19-22 | after only long presses, an HC3 card slides exactly when it was pressed an odd number of times from rest; the other flags stay |
| CardInteraction.DismissedCardNavigation | Fampay/CardView.swift:25-29 | revealing then dismissing leaves the card sliding, so a tap opens nothing; one more long press makes a tap open the link although the card is dismissed |
| CardInteraction.CardState.constructor | Fampay/CardView.swift:7-9 | a new card view has every flag false |
| CardInteraction.CardState.OnLongPressEnded | Fampay/CardView.swift:19-22 | an HC3 card toggles `isSliding`; other cards keep their flags; nothing else changes |
| CardInteraction.CardState.OpenURL | Fampay/CardView.swift:249-253 | returns the link the card would open, as `LinkTarget` states |
| CardInteraction.CardState.OnTap | Fampay/CardView.swift:25-29 | returns the tap's link, as `TapTarget` states, which is always the card's own URL; no flag changes |
| CardInteraction.CardState.DismissCard | Fampay/CardView.swift:241-243 | sets `isDismissed` and leaves the other two flags unchanged |
| CardInteraction.CardState.RemindLater | Fampay/CardView.swift:245-247 | clears `isSliding` and leaves `isDismissed` and `showReminderActions` unchanged |
| CardInteraction.CardState.Handle | Fampay/CardView.swift:18-29 | each event changes the flags as the step function says; only a tap returns a link |
| CardGroupView.CardSlots | Fampay/CardGroupView.swift:19-21 | one slot per card, in list order, each with the given design type |
| CardGroupView.ScrollsHorizontally | Fampay/CardGroupView.swift:16 | scrolling needs `is_scrollable == true` and is ruled out for DYNAMIC_WIDTH_CARD (both directions in `ScrollsExactly`) |
| CardGroupView.CardDesignType | Fampay/CardGroupView.swift:20-28 | the group's design type when present, SMALL_DISPLAY_CARD when nil |
| CardGroupView.GroupLayout | Fampay/CardGroupView.swift:16-31 | either branch has one card view per card, in order, with the group's effective design type (see `ScrollsExactly`, `UnsetFlagNeverScrolls`, `DynamicWidthNeverScrolls`, `NilDesignTypeScrolls`, `SlotsIndependentOfBranch`) |
| CardGroupView.ScrollsExactly | Fampay/CardGroupView.swift:16 | a group scrolls exactly when `is_scrollable` is true and its type is not DYNAMIC_WIDTH_CARD |
| CardGroupView.UnsetFlagNeverScrolls | Fampay/CardGroupView.swift:25-31 | a nil or false `is_scrollable` always gives the fixed row |
| CardGroupView.DynamicWidthNeverScrolls | Fampay/CardGroupView.swift:16 | a DYNAMIC_WIDTH_CARD group gives the fixed row whatever `is_scrollable` says |
| CardGroupView.NilDesignTypeScrolls | Fampay/CardGroupView.swift:16-20 | a scrollable group with no design type scrolls, and draws its cards as SMALL_DISPLAY_CARD |
| CardGroupView.SlotsIndependentOfBranch | Fampay/CardGroupView.swift:19-29 | both branches draw one view per card, in order, with the group's type or SMALL_DISPLAY_CARD; the flag changes only the branch |
| CardGroupView.RenderGroup | Fampay/CardGroupView.swift:19-29 | the group's i-th card view is the i-th card drawn with the group's effective design type |

## Left out

- The feed fetch and JSON decoding in `CardGroupViewModel`, and the refresh
  gesture and loading/error switch in `ContentView`: network I/O, asynchronous
  plumbing and floating-point gesture handling.
- SwiftUI layout and animation: padding, corner radius, shadow, spring
  animations, and slide offsets computed from the screen width. These are
  floating point and platform layout.
- The body of `imageDimensions(url:)`, including its force-unwrap of
  `URL(string:)`: a CoreGraphics call, kept as the abstract lookup. A URL that
  fails to parse traps there and is not modelled.
- `Color(hex:)`: not part of this model. Colours stay as hex strings.
- The load phase of an `AsyncImage` is a free parameter. It is not tied to
  `URL(string:)` succeeding, so the model admits a loaded picture for a URL that
  does not parse, although `AsyncImage(url: nil)` never loads.
- `AsyncImage`'s `@unknown default` case: it covers phases added in future
  platform versions, and the three known phases are modelled.
- The discarded title stack of `renderBigDisplayCard`, with its long-press
  handler and the `showReminderActions` toggle in it. That code is never
  returned, so it never runs.
- CardView.TapTarget: a tap on the padding around an HC3 card's content reaches
  the card-wide handler, which opens the link even while sliding. The model
  treats every HC3 tap as landing on the content, whose own handler takes it.
- `CardState` models one card view's state. SwiftUI's creation and destruction of
  `@State` storage per view identity is not modelled, and neither is the
  `ForEach`'s reliance on the optional `id` being unique.
- Swift `Int` is modelled as an unbounded integer. Image dimensions and angles
  are never added or multiplied, so wrap-around does not arise.
