/**
 * The Adaptive Card payload that the submit handler composes, as values.
 * Each constructor except `Fact` stands for a JSON object whose "type" tag is
 * the constructor's own name ("AdaptiveCard", "ColumnSet", "Column", "Image",
 * "FactSet"), so the tag is not stored separately; a `Fact` is a plain
 * `{title, value}` object.
 */
module Cards {
  import opened Wrappers

  /** One row of a fact set: a label and the text shown beside it. */
  datatype Fact = Fact(title: string, value: string)

  /** The items a column may hold in this card. */
  datatype Item =
    | Image(altText: string, url: string, size: string)
    | FactSet(facts: seq<Fact>)

  datatype Column = Column(width: string, items: seq<Item>)

  /** The only body element the card uses. */
  datatype Element = ColumnSet(columns: seq<Column>)

  datatype Card = AdaptiveCard(version: string, body: seq<Element>, schema: string)

  /**
   * The bot framework's card factory. Its attachment envelope is not part of
   * this model, so it passes the card through unchanged.
   */
  function CardFactoryAdaptiveCard(card: Card): Card
  {
    card
  }

  /**
   * Reads the fact list back out of a card laid out as one column set whose
   * second column holds a single fact set; None for any other layout.
   */
  function CardFacts(card: Card): Option<seq<Fact>>
  {
    if |card.body| == 1 && |card.body[0].columns| == 2
       && |card.body[0].columns[1].items| == 1
       && card.body[0].columns[1].items[0].FactSet?
    then Some(card.body[0].columns[1].items[0].facts)
    else None
  }

  /**
   * Reads the icon url back out of a card laid out as one column set whose
   * first column holds a single image; None for any other layout.
   */
  function CardIconUrl(card: Card): Option<string>
  {
    if |card.body| == 1 && |card.body[0].columns| == 2
       && |card.body[0].columns[0].items| == 1
       && card.body[0].columns[0].items[0].Image?
    then Some(card.body[0].columns[0].items[0].url)
    else None
  }
}
