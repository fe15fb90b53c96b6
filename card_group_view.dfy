/** The layout decision of a card group view. */
module CardGroupView {
  import opened Wrappers
  import opened DesignTypes
  import opened CardModel
  import opened CardView

  /** One card view of a group: the card and the design type it is drawn with. */
  datatype CardSlot = CardSlot(card: Card, designType: DesignType)

  /** The body of a group: a horizontally scrolling row, or a fixed row. Both are horizontal. */
  datatype GroupBody = HorizontalScroll(slots: seq<CardSlot>) | FixedRow(slots: seq<CardSlot>)

  /** `is_scrollable == true && design_type != .DYNAMIC_WIDTH_CARD`, with nil unequal to every case. */
  function ScrollsHorizontally(g: CardGroup): (r: bool)
    ensures r ==> g.isScrollable == Some(true)
    ensures g.designType == Some(DynamicWidthCard) ==> !r
  {
    g.isScrollable == Some(true) && g.designType != Some(DynamicWidthCard)
  }

  /** `design_type ?? .SMALL_DISPLAY_CARD`. */
  function CardDesignType(g: CardGroup): (dt: DesignType)
    ensures g.designType.Some? ==> dt == g.designType.value
    ensures g.designType.None? ==> dt == SmallDisplayCard
  {
    g.designType.GetOr(SmallDisplayCard)
  }

  /** The `ForEach`: one slot per card, in list order, all with design type `dt`. */
  function CardSlots(cards: seq<Card>, dt: DesignType): (r: seq<CardSlot>)
    ensures |r| == |cards|
    ensures forall i :: 0 <= i < |r| ==> r[i].card == cards[i] && r[i].designType == dt
  {
    if cards == [] then [] else [CardSlot(cards[0], dt)] + CardSlots(cards[1..], dt)
  }

  /** The body of `CardGroupView`: one card view per card, in order, in either branch. */
  function GroupLayout(g: CardGroup): (b: GroupBody)
    ensures |b.slots| == |g.cards|
    ensures forall i :: 0 <= i < |b.slots| ==>
              b.slots[i].card == g.cards[i] && b.slots[i].designType == CardDesignType(g)
  {
    var slots := CardSlots(g.cards, CardDesignType(g));
    if ScrollsHorizontally(g) then HorizontalScroll(slots) else FixedRow(slots)
  }

  /** A group scrolls exactly when its flag is true and it is not a dynamic-width group. */
  lemma ScrollsExactly(g: CardGroup)
    ensures GroupLayout(g).HorizontalScroll?
        <==> g.isScrollable == Some(true) && g.designType != Some(DynamicWidthCard)
  {
  }

  /** A nil or false `is_scrollable` never scrolls. */
  lemma UnsetFlagNeverScrolls(g: CardGroup)
    requires g.isScrollable.None? || g.isScrollable == Some(false)
    ensures GroupLayout(g).FixedRow?
  {
  }

  /** A dynamic-width group never scrolls, whatever its flag says. */
  lemma DynamicWidthNeverScrolls(g: CardGroup, flag: Option<bool>)
    requires g.designType == Some(DynamicWidthCard)
    ensures GroupLayout(g.(isScrollable := flag)).FixedRow?
  {
  }

  /** A scrollable group without a design type scrolls, with small display cards. */
  lemma NilDesignTypeScrolls(g: CardGroup)
    requires g.designType.None? && g.isScrollable == Some(true)
    ensures GroupLayout(g).HorizontalScroll?
    ensures forall i :: 0 <= i < |GroupLayout(g).slots| ==>
              GroupLayout(g).slots[i].designType == SmallDisplayCard
  {
  }

  /**
   * Either branch draws one view per card, in list order, with the group's
   * design type (small display when absent); the flag changes only the branch.
   */
  lemma SlotsIndependentOfBranch(g: CardGroup, flag: Option<bool>)
    ensures var slots := GroupLayout(g).slots;
            |slots| == |g.cards|
            && (forall i :: 0 <= i < |slots| ==>
                  slots[i].card == g.cards[i]
                  && slots[i].designType == (if g.designType.Some? then g.designType.value else SmallDisplayCard))
    ensures GroupLayout(g.(isScrollable := flag)).slots == GroupLayout(g).slots
  {
  }

  /** Everything each card view of a group draws, in list order. */
  function RenderGroup(g: CardGroup, lookup: string -> Option<Dimensions>): (r: seq<CardBody>)
    ensures |r| == |g.cards|
    ensures forall i :: 0 <= i < |r| ==> r[i] == RenderCard(g.cards[i], CardDesignType(g), lookup)
  {
    var slots := GroupLayout(g).slots;
    seq(|slots|, i requires 0 <= i < |slots| => RenderCard(slots[i].card, slots[i].designType, lookup))
  }
}
