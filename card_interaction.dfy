/**
 * The per-card interaction state of a card view: the three `@State` flags
 * and the gesture and button handlers that change them.
 */
module CardInteraction {
  import opened Wrappers
  import opened DesignTypes
  import opened CardModel
  import opened CardView

  /** The three flags, as one value. */
  datatype Flags = Flags(showReminderActions: bool, isSliding: bool, isDismissed: bool)

  /** A card view starts with every flag false. */
  const Initial: Flags := Flags(false, false, false)

  /** The events that reach a card view. */
  datatype Gesture =
    | LongPress           // a long press held for a second, ended
    | Tap
    | RemindLaterPressed  // the "Remind Later" button
    | DismissNowPressed   // the "Dismiss Now" button

  /**
   * The flags after one event. Only a big display card carries the long-press
   * recogniser, which toggles `isSliding`, and only its content holds the two
   * buttons, which run `remindLater` and `dismissCard`. A tap changes no flag,
   * so a card of any other type never changes its flags.
   */
  function Step(f: Flags, dt: DesignType, g: Gesture): (r: Flags)
    ensures r.showReminderActions == f.showReminderActions
    ensures f.isDismissed ==> r.isDismissed
    ensures dt != BigDisplayCard ==> r == f
  {
    if dt != BigDisplayCard then f
    else
      match g
      case LongPress => f.(isSliding := !f.isSliding)
      case Tap => f
      case RemindLaterPressed => f.(isSliding := false)
      case DismissNowPressed => f.(isDismissed := true)
  }

  /**
   * The flags after a sequence of events, first to last: a dismissed card
   * stays dismissed, and a card of a type other than big display keeps its flags.
   */
  function Run(f: Flags, dt: DesignType, gs: seq<Gesture>): (r: Flags)
    ensures f.isDismissed ==> r.isDismissed
    ensures dt != BigDisplayCard ==> r == f
    decreases |gs|
  {
    if gs == [] then f else Run(Step(f, dt, gs[0]), dt, gs[1..])
  }

  /** Two long presses on a card restore its flags. */
  lemma LongPressTwiceRestores(f: Flags, dt: DesignType)
    ensures Step(Step(f, dt, LongPress), dt, LongPress) == f
  {
  }

  /** No event changes `showReminderActions`, so every card keeps it false. */
  lemma {:induction false} RunKeepsReminderActions(f: Flags, dt: DesignType, gs: seq<Gesture>)
    ensures Run(f, dt, gs).showReminderActions == f.showReminderActions
    decreases |gs|
  {
    if gs != [] {
      RunKeepsReminderActions(Step(f, dt, gs[0]), dt, gs[1..]);
    }
  }

  /**
   * A card ends dismissed exactly when it started dismissed or it is a big
   * display card whose "Dismiss Now" button was pressed.
   */
  lemma {:induction false} RunDismissed(f: Flags, dt: DesignType, gs: seq<Gesture>)
    ensures Run(f, dt, gs).isDismissed
        <==> f.isDismissed || (dt == BigDisplayCard && DismissNowPressed in gs)
    decreases |gs|
  {
    if gs != [] {
      RunDismissed(Step(f, dt, gs[0]), dt, gs[1..]);
      assert gs == [gs[0]] + gs[1..];
    }
  }

  /** After only long presses, a big display card slides exactly when it flipped an odd number of times. */
  lemma {:induction false} LongPressParity(f: Flags, gs: seq<Gesture>)
    requires forall i :: 0 <= i < |gs| ==> gs[i] == LongPress
    ensures Run(f, BigDisplayCard, gs) == f.(isSliding := f.isSliding != (|gs| % 2 == 1))
    decreases |gs|
  {
    if gs != [] {
      LongPressParity(Step(f, BigDisplayCard, gs[0]), gs[1..]);
    }
  }

  /**
   * Revealing and then dismissing a big display card leaves it sliding, so a
   * tap opens nothing; one more long press stops the slide, and a tap then
   * opens the link although the card is dismissed, as `isDismissed` is never read.
   */
  lemma DismissedCardNavigation(card: Card, parses: string -> bool)
    ensures var f := Run(Initial, BigDisplayCard, [LongPress, DismissNowPressed]);
            f.isDismissed && f.isSliding && TapTarget(card, BigDisplayCard, f.isSliding, parses).None?
    ensures var f := Run(Initial, BigDisplayCard, [LongPress, DismissNowPressed, LongPress]);
            f.isDismissed && !f.isSliding
            && TapTarget(card, BigDisplayCard, f.isSliding, parses) == LinkTarget(card, parses)
  {
  }

  /** One card view's interaction state. */
  class CardState {
    const card: Card
    const designType: DesignType
    var showReminderActions: bool
    var isSliding: bool
    var isDismissed: bool

    function Current(): Flags
      reads this
    {
      Flags(showReminderActions, isSliding, isDismissed)
    }

    constructor (card: Card, designType: DesignType)
      ensures this.card == card && this.designType == designType
      ensures Current() == Initial
    {
      this.card := card;
      this.designType := designType;
      showReminderActions := false;
      isSliding := false;
      isDismissed := false;
    }

    /** The end of a one-second long press: a big display card toggles `isSliding`. */
    method OnLongPressEnded()
      modifies this`isSliding
      ensures isSliding == if designType == BigDisplayCard then !old(isSliding) else old(isSliding)
      ensures Current() == Step(old(Current()), designType, LongPress)
    {
      if designType == BigDisplayCard {
        isSliding := !isSliding;
      }
    }

    /** `openURL`: the link handed to the system, if the card's URL parses. */
    method OpenURL(parses: string -> bool) returns (link: Option<string>)
      ensures link == LinkTarget(card, parses)
    {
      link := None;
      if card.url.Some? {
        var url := card.url.value;
        if parses(url) {
          link := Some(url);
        }
      }
    }

    /** A tap: a big display card opens its link only while not sliding; other cards always try. */
    method OnTap(parses: string -> bool) returns (link: Option<string>)
      ensures link == TapTarget(card, designType, isSliding, parses)
      ensures link.Some? ==> card.url == Some(link.value)
    {
      if designType == BigDisplayCard {
        if !isSliding {
          link := OpenURL(parses);
        } else {
          link := None;
        }
      } else {
        link := OpenURL(parses);
      }
    }

    /** `dismissCard`: sets `isDismissed` and nothing else. */
    method DismissCard()
      modifies this`isDismissed
      ensures isDismissed
      ensures isSliding == old(isSliding) && showReminderActions == old(showReminderActions)
      ensures designType == BigDisplayCard ==> Current() == Step(old(Current()), designType, DismissNowPressed)
    {
      isDismissed := true;
    }

    /** `remindLater`: clears `isSliding` and nothing else. */
    method RemindLater()
      modifies this`isSliding
      ensures !isSliding
      ensures isDismissed == old(isDismissed) && showReminderActions == old(showReminderActions)
      ensures designType == BigDisplayCard ==> Current() == Step(old(Current()), designType, RemindLaterPressed)
    {
      isSliding := false;
    }

    /**
     * Dispatches one event to its handler. Only a big display card has the
     * long-press recogniser and the buttons; only a tap opens a link.
     */
    method Handle(g: Gesture, parses: string -> bool) returns (link: Option<string>)
      modifies this`isSliding, this`isDismissed
      ensures Current() == Step(old(Current()), designType, g)
      ensures link == if g == Tap then TapTarget(card, designType, isSliding, parses) else None
    {
      link := None;
      if g == Tap {
        link := OnTap(parses);
      } else if designType == BigDisplayCard {
        match g
        case LongPress => OnLongPressEnded();
        case RemindLaterPressed => RemindLater();
        case DismissNowPressed => DismissCard();
      }
    }
  }
}
