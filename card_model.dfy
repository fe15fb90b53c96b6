/** The decoded feed records the card views consume (the `Codable` structs of the API model). */
module CardModel {
  import opened Wrappers
  import opened DesignTypes

  /** One styled span of a formatted text; the views shown never read the entities. */
  datatype Entity = Entity(
    text: Option<string>,
    color: Option<string>,
    url: Option<string>,
    fontStyle: Option<string>,
    entityType: Option<string>)

  datatype CallToAction = CallToAction(
    text: Option<string>,
    bgColor: Option<string>,
    url: Option<string>,
    textColor: Option<string>)

  /** A gradient background: hex colour strings in order, and an angle. */
  datatype GradientModel = GradientModel(colors: seq<string>, angle: Option<int>)

  datatype CardImage = CardImage(
    imageType: Option<string>,
    assetType: Option<string>,
    imageUrl: Option<string>)

  datatype FormattedText = FormattedText(text: Option<string>, entities: seq<Entity>)

  datatype Card = Card(
    id: Option<int>,
    name: Option<string>,
    formattedTitle: Option<FormattedText>,
    title: Option<string>,
    formattedDescription: Option<FormattedText>,
    description: Option<string>,
    icon: Option<CardImage>,
    url: Option<string>,
    bgImage: Option<CardImage>,
    bgColor: Option<string>,
    bgGradient: Option<GradientModel>,
    cta: Option<seq<CallToAction>>)

  /** A card group; `height` is a Swift `Double`, kept as a real and never read. */
  datatype CardGroup = CardGroup(
    id: Option<int>,
    name: Option<string>,
    designType: Option<DesignType>,
    cardType: Option<int>,
    cards: seq<Card>,
    height: Option<real>,
    isScrollable: Option<bool>)
}
