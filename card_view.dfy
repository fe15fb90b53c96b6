/**
 * The pure presentation rules of a card view: which text it shows, what its
 * content area holds for each design type, and which background it draws.
 */
module CardView {
  import opened Wrappers
  import opened DesignTypes
  import opened CardModel

  // ---------------------------------------------------------------- text

  /** Optional chaining `formatted?.text`. */
  function TemplateText(formatted: Option<FormattedText>): Option<string> {
    match formatted
    case Some(f) => f.text
    case None => None
  }

  /** `formatted?.text ?? plain ?? ""`: the formatted text wins, then the plain one, then "". */
  function DisplayText(formatted: Option<FormattedText>, plain: Option<string>): (s: string)
    ensures TemplateText(formatted).Some? ==> s == TemplateText(formatted).value
    ensures TemplateText(formatted).None? && plain.Some? ==> s == plain.value
    ensures TemplateText(formatted).None? && plain.None? ==> s == ""
  {
    TemplateText(formatted).GetOr(plain.GetOr(""))
  }

  /** The first present candidate, or `fallback` when none is: a reference for a `??` chain. */
  function FirstPresent(candidates: seq<Option<string>>, fallback: string): string
    decreases |candidates|
  {
    if candidates == [] then fallback
    else if candidates[0].Some? then candidates[0].value
    else FirstPresent(candidates[1..], fallback)
  }

  /** The displayed text is the first present of the formatted and the plain text. */
  lemma DisplayTextIsFirstPresent(formatted: Option<FormattedText>, plain: Option<string>)
    ensures DisplayText(formatted, plain) == FirstPresent([TemplateText(formatted), plain], "")
  {
    var cands := [TemplateText(formatted), plain];
    assert cands[1..] == [plain];
    assert [plain][1..] == [];
    assert FirstPresent([plain], "") == plain.GetOr("");
  }

  /** The title a card shows: `formatted_title?.text ?? title ?? ""`. */
  function CardTitle(card: Card): (s: string)
    ensures s == FirstPresent([TemplateText(card.formattedTitle), card.title], "")
  {
    DisplayTextIsFirstPresent(card.formattedTitle, card.title);
    DisplayText(card.formattedTitle, card.title)
  }

  /** The description a card shows: `formatted_description?.text ?? description ?? ""`. */
  function CardDescription(card: Card): (s: string)
    ensures s == FirstPresent([TemplateText(card.formattedDescription), card.description], "")
  {
    DisplayTextIsFirstPresent(card.formattedDescription, card.description);
    DisplayText(card.formattedDescription, card.description)
  }

  /** The title reads only the two title fields, the description only the two description fields. */
  lemma TitleAndDescriptionIndependent(card: Card, other: Card)
    ensures CardTitle(card.(formattedDescription := other.formattedDescription,
                            description := other.description)) == CardTitle(card)
    ensures CardDescription(card.(formattedTitle := other.formattedTitle,
                                  title := other.title)) == CardDescription(card)
    ensures CardTitle(card) == CardDescription(card.(formattedDescription := card.formattedTitle,
                                                     description := card.title))
  {
  }

  // ------------------------------------------------------- remote images

  /** Pixel width and height, as `imageDimensions(url:)` reports them. */
  datatype Dimensions = Dimensions(width: int, height: int)

  /** How a loaded image is framed: an exact size, or filling a fixed height. */
  datatype ImageFrame = FixedSize(width: int, height: int) | FillHeight(fillHeight: nat)

  /** An `AsyncImage`: the URL, the frame of the loaded image, the placeholder's height. */
  datatype RemoteImage = RemoteImage(url: string, frame: ImageFrame, placeholderHeight: nat)

  /** The phases of an `AsyncImage` load. */
  datatype LoadPhase = Loading | Loaded | Failed

  /** What an `AsyncImage` shows in a phase. */
  datatype Shown = Picture(url: string, frame: ImageFrame) | PlaceholderImage(height: nat)

  /** The loaded image in its frame on success; the "placeholder" asset while loading or after failure. */
  function ShowRemoteImage(image: RemoteImage, phase: LoadPhase): (s: Shown)
    ensures s.Picture? <==> phase == Loaded
    ensures s.Picture? ==> s.url == image.url && s.frame == image.frame
    ensures s.PlaceholderImage? ==> s.height == image.placeholderHeight
  {
    match phase
    case Loaded => Picture(image.url, image.frame)
    case Loading => PlaceholderImage(image.placeholderHeight)
    case Failed => PlaceholderImage(image.placeholderHeight)
  }

  /** The `let imageUrl = bgImage.image_url` binding: the URL of a present image with a URL. */
  function ImageUrl(image: Option<CardImage>): Option<string> {
    match image
    case Some(i) => i.imageUrl
    case None => None
  }

  // --------------------------------------------------------- backgrounds

  datatype UnitPoint = Leading | Trailing

  /** The background drawn behind a card. Each carries the height it is framed to. */
  datatype Background =
    | NoBackground
    | SolidColor(hex: string, height: nat)
    | LinearGradient(colors: seq<string>, startPoint: UnitPoint, endPoint: UnitPoint, height: nat)
    | ImageBackground(image: RemoteImage)
    | ClearBox(height: nat)

  /**
   * The background of a card of design type `dt`. `lookup` stands for the
   * image-size lookup: Some(size) when the image's pixel size could be read.
   */
  function ResolveBackground(card: Card, dt: DesignType, lookup: string -> Option<Dimensions>): (b: Background)
    ensures b.SolidColor? <==> card.bgColor.Some?
    ensures b.LinearGradient? <==> card.bgColor.None? && card.bgGradient.Some?
    ensures (b.ImageBackground? || b.ClearBox?)
        <==> card.bgColor.None? && card.bgGradient.None? && ImageUrl(card.bgImage).Some?
    ensures b.ImageBackground? ==> b.image.placeholderHeight == BackgroundHeight(dt)
    ensures (b.SolidColor? || b.LinearGradient? || b.ClearBox?) ==> b.height == BackgroundHeight(dt)
  {
    if card.bgColor.Some? then
      SolidColor(card.bgColor.value, BackgroundHeight(dt))
    else if card.bgGradient.Some? then
      LinearGradient(card.bgGradient.value.colors, Leading, Trailing, BackgroundHeight(dt))
    else if ImageUrl(card.bgImage).Some? then
      var url := ImageUrl(card.bgImage).value;
      match lookup(url)
      case Some(size) => ImageBackground(RemoteImage(url, FixedSize(size.width, size.height), BackgroundHeight(dt)))
      case None => ClearBox(BackgroundHeight(dt))
    else
      NoBackground
  }

  /** A card's background sources, listed in precedence order. */
  datatype BackgroundSource = ColorSource(hex: string) | GradientSource(gradient: GradientModel) | ImageSource(url: string)

  function BackgroundSources(card: Card): seq<BackgroundSource> {
    (if card.bgColor.Some? then [ColorSource(card.bgColor.value)] else [])
    + (if card.bgGradient.Some? then [GradientSource(card.bgGradient.value)] else [])
    + (if ImageUrl(card.bgImage).Some? then [ImageSource(ImageUrl(card.bgImage).value)] else [])
  }

  /** How one source is drawn, on its own. */
  function DrawSource(src: BackgroundSource, dt: DesignType, lookup: string -> Option<Dimensions>): Background {
    match src
    case ColorSource(hex) => SolidColor(hex, BackgroundHeight(dt))
    case GradientSource(g) => LinearGradient(g.colors, Leading, Trailing, BackgroundHeight(dt))
    case ImageSource(url) =>
      match lookup(url)
      case Some(size) => ImageBackground(RemoteImage(url, FixedSize(size.width, size.height), BackgroundHeight(dt)))
      case None => ClearBox(BackgroundHeight(dt))
  }

  /** The background is the first present source, drawn; no source gives no background. */
  lemma BackgroundIsFirstSource(card: Card, dt: DesignType, lookup: string -> Option<Dimensions>)
    ensures var sources := BackgroundSources(card);
            ResolveBackground(card, dt, lookup) ==
              if sources == [] then NoBackground else DrawSource(sources[0], dt, lookup)
  {
  }

  /** A colour wins whatever the gradient and the image hold, for every design type. */
  lemma ColorWins(card: Card, dt: DesignType, lookup: string -> Option<Dimensions>,
                  gradient: Option<GradientModel>, image: Option<CardImage>)
    requires card.bgColor.Some?
    ensures ResolveBackground(card, dt, lookup) == SolidColor(card.bgColor.value, BackgroundHeight(dt))
    ensures ResolveBackground(card.(bgGradient := gradient, bgImage := image), dt, lookup)
         == ResolveBackground(card, dt, lookup)
  {
  }

  /**
   * Without a colour, a gradient wins over the image: its colours in order,
   * leading to trailing, and its angle plays no part.
   */
  lemma GradientWinsOverImage(card: Card, dt: DesignType, lookup: string -> Option<Dimensions>,
                              angle: Option<int>, image: Option<CardImage>)
    requires card.bgColor.None? && card.bgGradient.Some?
    ensures ResolveBackground(card, dt, lookup)
         == LinearGradient(card.bgGradient.value.colors, Leading, Trailing, BackgroundHeight(dt))
    ensures ResolveBackground(card.(bgGradient := Some(card.bgGradient.value.(angle := angle)),
                                    bgImage := image), dt, lookup)
         == ResolveBackground(card, dt, lookup)
  {
  }

  /**
   * Without colour and gradient, an image URL is drawn at exactly the looked-up
   * size, or as a clear box of the design type's height when the lookup fails.
   */
  lemma ImageBackgroundFollowsLookup(card: Card, dt: DesignType, lookup: string -> Option<Dimensions>)
    requires card.bgColor.None? && card.bgGradient.None? && ImageUrl(card.bgImage).Some?
    ensures var url := ImageUrl(card.bgImage).value;
            var b := ResolveBackground(card, dt, lookup);
            (lookup(url).Some? ==>
               b.ImageBackground? && b.image.url == url
               && b.image.frame == FixedSize(lookup(url).value.width, lookup(url).value.height))
            && (lookup(url).None? ==> b == ClearBox(BackgroundHeight(dt)))
  {
  }

  /** No background exactly when there is no colour, no gradient and no image URL. */
  lemma NoBackgroundExactlyWithoutSources(card: Card, dt: DesignType, lookup: string -> Option<Dimensions>)
    ensures ResolveBackground(card, dt, lookup) == NoBackground
        <==> card.bgColor.None? && card.bgGradient.None? && ImageUrl(card.bgImage).None?
  {
  }

  /** The same background with its nominal (non-image) height replaced by `h`. */
  function WithHeight(b: Background, h: nat): Background {
    match b
    case NoBackground => NoBackground
    case SolidColor(hex, _) => SolidColor(hex, h)
    case LinearGradient(colors, s, e, _) => LinearGradient(colors, s, e, h)
    case ImageBackground(RemoteImage(url, frame, _)) => ImageBackground(RemoteImage(url, frame, h))
    case ClearBox(_) => ClearBox(h)
  }

  /**
   * The design type picks no source and suppresses none: two design types
   * give the same background up to the nominal height.
   */
  lemma DesignTypeOnlySetsHeight(card: Card, d1: DesignType, d2: DesignType, lookup: string -> Option<Dimensions>)
    ensures ResolveBackground(card, d1, lookup) == WithHeight(ResolveBackground(card, d2, lookup), BackgroundHeight(d1))
  {
  }

  /**
   * What an image background shows in each load phase: the image at exactly
   * the looked-up size once loaded, otherwise the placeholder at the design type's height.
   */
  lemma ImageBackgroundPhases(card: Card, dt: DesignType, lookup: string -> Option<Dimensions>, phase: LoadPhase)
    requires ResolveBackground(card, dt, lookup).ImageBackground?
    ensures var url := ImageUrl(card.bgImage).value;
            var shown := ShowRemoteImage(ResolveBackground(card, dt, lookup).image, phase);
            ImageUrl(card.bgImage).Some? && lookup(url).Some?
            && (phase == Loaded ==> shown == Picture(url, FixedSize(lookup(url).value.width, lookup(url).value.height)))
            && (phase != Loaded ==> shown == PlaceholderImage(BackgroundHeight(dt)))
  {
  }

  // ------------------------------------------------------------- content

  /** The fixed height a loaded dynamic-width image is filled to. */
  const DynamicImageHeight: nat := 200

  /** The image of a dynamic-width card: present exactly when `bg_image.image_url` is. */
  function DynamicWidthImage(card: Card, dt: DesignType): (r: Option<RemoteImage>)
    ensures r.Some? <==> ImageUrl(card.bgImage).Some?
    ensures r.Some? ==>
              r.value.url == ImageUrl(card.bgImage).value
              && r.value.frame == FillHeight(DynamicImageHeight)
              && r.value.placeholderHeight == BackgroundHeight(dt)
  {
    match ImageUrl(card.bgImage)
    case Some(url) => Some(RemoteImage(url, FillHeight(DynamicImageHeight), BackgroundHeight(dt)))
    case None => None
  }

  /** The content area of a card, one shape per design type. */
  datatype Content =
    | TitleAndDescription(title: string, description: string, withArrow: bool)
    | ReminderActions
    | EmptyContent
    | DynamicImage(image: Option<RemoteImage>)

  /**
   * The content of a card. A big display card's render function returns only
   * its "Remind Later" / "Dismiss Now" button row; the title stack built before
   * it is discarded, so that card shows no text.
   */
  function CardContent(card: Card, dt: DesignType): (c: Content)
    ensures c.TitleAndDescription? <==> (dt == SmallDisplayCard || dt == SmallCardWithArrow)
    ensures c.ReminderActions? <==> dt == BigDisplayCard
    ensures c.EmptyContent? <==> dt == ImageCard
    ensures c.DynamicImage? <==> dt == DynamicWidthCard
  {
    match dt
    case SmallDisplayCard => TitleAndDescription(CardTitle(card), CardDescription(card), false)
    case BigDisplayCard => ReminderActions
    case ImageCard => EmptyContent
    case SmallCardWithArrow => TitleAndDescription(CardTitle(card), CardDescription(card), true)
    case DynamicWidthCard => DynamicImage(DynamicWidthImage(card, dt))
  }

  /** Only the two small variants show text, and then the card's title and description. */
  lemma ContentShowsTextOnlyForSmallCards(card: Card, dt: DesignType)
    ensures CardContent(card, dt).TitleAndDescription?
        <==> (dt == SmallDisplayCard || dt == SmallCardWithArrow)
    ensures CardContent(card, dt).TitleAndDescription? ==>
              CardContent(card, dt).title == FirstPresent([TemplateText(card.formattedTitle), card.title], "")
              && CardContent(card, dt).description
                 == FirstPresent([TemplateText(card.formattedDescription), card.description], "")
              && (CardContent(card, dt).withArrow <==> dt == SmallCardWithArrow)
  {
    DisplayTextIsFirstPresent(card.formattedTitle, card.title);
    DisplayTextIsFirstPresent(card.formattedDescription, card.description);
  }

  /**
   * A dynamic-width card with an image URL fills a 200-point height once loaded
   * and shows the placeholder at the same height otherwise; without a URL it shows nothing.
   */
  lemma DynamicWidthCardImage(card: Card, phase: LoadPhase)
    ensures var c := CardContent(card, DynamicWidthCard);
            c.DynamicImage?
            && (ImageUrl(card.bgImage).None? ==> c.image.None?)
            && (ImageUrl(card.bgImage).Some? ==>
                  c.image.Some?
                  && ShowRemoteImage(c.image.value, phase)
                     == if phase == Loaded then Picture(ImageUrl(card.bgImage).value, FillHeight(200))
                        else PlaceholderImage(200))
  {
  }

  /** Everything a card view draws, apart from gestures and layout padding. */
  datatype CardBody = CardBody(content: Content, background: Background)

  /**
   * A card's content and background. A dynamic-width card with an image URL and
   * no colour or gradient draws that image twice: as its content and as its background.
   */
  function RenderCard(card: Card, dt: DesignType, lookup: string -> Option<Dimensions>): (r: CardBody)
    ensures r.content.DynamicImage? <==> dt == DynamicWidthCard
    ensures dt == DynamicWidthCard && card.bgColor.None? && card.bgGradient.None? ==>
              (r.content.image.Some? <==> (r.background.ImageBackground? || r.background.ClearBox?))
    ensures r.content.DynamicImage? && r.background.ImageBackground? ==>
              r.content.image.Some? && r.content.image.value.url == r.background.image.url
  {
    CardBody(CardContent(card, dt), ResolveBackground(card, dt, lookup))
  }

  // --------------------------------------------------------------- links

  /**
   * `openURL`: the link opened is the card's URL when it parses as a URL
   * (`parses` stands for `URL(string:)` succeeding); nothing otherwise.
   */
  function LinkTarget(card: Card, parses: string -> bool): (r: Option<string>)
    ensures r.Some? <==> card.url.Some? && parses(card.url.value)
    ensures r.Some? ==> r.value == card.url.value
  {
    if card.url.Some? && parses(card.url.value) then Some(card.url.value) else None
  }

  /**
   * The link a tap on the card's content opens. A big display card's own tap
   * handler opens only while the card is not sliding; any other card's tap
   * reaches the card-wide handler, which always opens.
   */
  function TapTarget(card: Card, dt: DesignType, isSliding: bool, parses: string -> bool): (r: Option<string>)
    ensures r.Some? ==> r == LinkTarget(card, parses)
    ensures r.None? <==> (dt == BigDisplayCard && isSliding) || LinkTarget(card, parses).None?
  {
    if dt == BigDisplayCard && isSliding then None else LinkTarget(card, parses)
  }

  /** A tap opens a link exactly when the card has a parsable URL and is not a sliding big display card. */
  lemma TapOpensLinkExactly(card: Card, dt: DesignType, isSliding: bool, parses: string -> bool)
    ensures TapTarget(card, dt, isSliding, parses).Some?
        <==> card.url.Some? && parses(card.url.value) && !(dt == BigDisplayCard && isSliding)
    ensures TapTarget(card, dt, isSliding, parses).Some? ==>
              TapTarget(card, dt, isSliding, parses).value == card.url.value
    ensures dt != BigDisplayCard ==> TapTarget(card, dt, isSliding, parses) == TapTarget(card, dt, !isSliding, parses)
  {
  }
}
