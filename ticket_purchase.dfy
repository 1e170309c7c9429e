/**
 * The event catalogue of the purchase screen: how each event is classified
 * (Sold Out / Few Left / Available), when its buy button is enabled and what
 * it says, and the single "purchase in progress" slot the screen keeps.
 * Purchasing only toggles that slot: no inventory is ever decremented.
 */
module Purchase {
  import opened Wrappers

  /** One entry of the catalogue. The picture URL is presentation only. */
  datatype Event = Event(
    id: int,
    name: string,
    price: int,
    remainingTickets: int,
    totalTickets: int,
    date: string)

  /** What every catalogue entry satisfies. */
  predicate WellFormed(e: Event) {
    0 <= e.remainingTickets <= e.totalTickets && 0 < e.totalTickets
  }

  /** The fixed catalogue the screen renders; nothing ever writes to it. */
  function MockEvents(): (events: seq<Event>)
    ensures |events| == 3
    ensures forall i :: 0 <= i < |events| ==> WellFormed(events[i])
    ensures forall i, j :: 0 <= i < j < |events| ==> events[i].id != events[j].id
  {
    [ Event(1, "Tech Conference 2025", 50, 25, 100, "March 15, 2025"),
      Event(2, "Blockchain Summit", 75, 5, 50, "April 22, 2025"),
      Event(3, "Developer Meetup", 25, 0, 30, "May 10, 2025") ]
  }

  /** The three badges an event can carry. */
  datatype Status = SoldOut | FewLeft | Available {
    /** The badge's words; each badge has its own. */
    function Text(): (t: string)
      ensures (t == "Sold Out") == SoldOut?
      ensures (t == "Few Left") == FewLeft?
      ensures (t == "Available") == Available?
    {
      match this
      case SoldOut => "Sold Out"
      case FewLeft => "Few Left"
      case Available => "Available"
    }

    /** The badge's colour: red, yellow or green, one per badge. */
    function Color(): (c: string)
      ensures (c == "red") == SoldOut?
      ensures (c == "yellow") == FewLeft?
      ensures (c == "green") == Available?
    {
      match this
      case SoldOut => "red"
      case FewLeft => "yellow"
      case Available => "green"
    }
  }

  /** The badge's percentage, `(remaining / total) * 100`, as an exact rational. */
  ghost function Percentage(remaining: int, total: int): real
    requires total != 0
  {
    (remaining as real / total as real) * 100.0
  }

  /** `percentage <= 20` decided on integers. A zero total makes the division
      +Infinity (false), -Infinity (true) or NaN (false) for a positive,
      negative or zero numerator. */
  predicate AtMostTwentyPercent(remaining: int, total: int) {
    if total > 0 then 5 * remaining <= total
    else if total < 0 then 5 * remaining >= total
    else remaining < 0
  }

  /** The integer test agrees with the rational percentage for every non-zero total. */
  lemma AtMostTwentyPercentIsPercentage(remaining: int, total: int)
    requires total != 0
    ensures AtMostTwentyPercent(remaining, total) <==> Percentage(remaining, total) <= 20.0
  {
    var t := total as real;
    var q := remaining as real / t;
    assert q * t == remaining as real;
    assert Percentage(remaining, total) <= 20.0 <==> q - 0.2 <= 0.0;
    assert (q - 0.2) * t == remaining as real - 0.2 * t;
    SignOfProduct(q - 0.2, t);
  }

  /** Multiplying by a non-zero factor keeps or flips the sign with it. */
  lemma SignOfProduct(a: real, c: real)
    requires c != 0.0
    ensures c > 0.0 ==> (a <= 0.0 <==> a * c <= 0.0)
    ensures c < 0.0 ==> (a <= 0.0 <==> a * c >= 0.0)
  {
    if a > 0.0 && c > 0.0 {
      assert a * c > 0.0;
    } else if a > 0.0 && c < 0.0 {
      assert a * c < 0.0;
    }
  }

  /** `getAvailabilityStatus`: zero remaining wins over the percentage rule. */
  function AvailabilityStatus(remaining: int, total: int): (s: Status)
    ensures s == SoldOut <==> remaining == 0
    ensures 0 < total && remaining != 0 ==>
              (s == FewLeft <==> remaining * 100 <= 20 * total)
    ensures 0 < total && remaining != 0 ==>
              (s == Available <==> remaining * 100 > 20 * total)
  {
    if remaining == 0 then SoldOut
    else if AtMostTwentyPercent(remaining, total) then FewLeft
    else Available
  }

  /** For every non-zero total, of either sign, the classification is exactly
      the source's percentage test, checked after the sold-out test. */
  lemma AvailabilityMatchesPercentage(remaining: int, total: int)
    requires total != 0
    ensures AvailabilityStatus(remaining, total) ==
              if remaining == 0 then SoldOut
              else if Percentage(remaining, total) <= 20.0 then FewLeft
              else Available
  {
    AtMostTwentyPercentIsPercentage(remaining, total);
  }

  /** Exactly one badge applies to a well-formed event. */
  lemma AvailabilityPartition(e: Event)
    requires WellFormed(e)
    ensures var s := AvailabilityStatus(e.remainingTickets, e.totalTickets);
            (s == SoldOut) == (e.remainingTickets == 0)
            && (s == FewLeft) == (0 < e.remainingTickets && 5 * e.remainingTickets <= e.totalTickets)
            && (s == Available) == (5 * e.remainingTickets > e.totalTickets)
  {
  }

  /** The catalogue's three events carry one badge each: 25 of 100 left is
      Available, 5 of 50 is Few Left, 0 of 30 is Sold Out. */
  lemma MockEventBadges()
    ensures forall e :: e in MockEvents() ==>
              AvailabilityStatus(e.remainingTickets, e.totalTickets).Text() ==
                if e.id == 1 then "Available" else if e.id == 2 then "Few Left" else "Sold Out"
  {
  }

  /** What the card of one event shows about buying it. */
  datatype Card = Card(status: Status, buyDisabled: bool, spinner: bool, buttonText: string)

  /** One card of the catalogue, given the loading slot. */
  function CardFor(e: Event, loading: Option<int>): (c: Card)
    ensures c.status == AvailabilityStatus(e.remainingTickets, e.totalTickets)
    ensures c.buyDisabled <==> e.remainingTickets == 0 || loading == Some(e.id)
    ensures c.buttonText == "Buy Now" <==> !c.buyDisabled
    ensures c.buttonText == "Sold Out" <==> e.remainingTickets == 0
    ensures c.buttonText == "Purchasing..." <==> c.spinner && e.remainingTickets != 0
    ensures c.spinner <==> loading == Some(e.id)
    ensures c.spinner ==> c.buyDisabled
  {
    var purchasing := loading == Some(e.id);
    Card(AvailabilityStatus(e.remainingTickets, e.totalTickets),
         e.remainingTickets == 0 || purchasing,
         purchasing,
         if e.remainingTickets == 0 then "Sold Out"
         else if purchasing then "Purchasing..."
         else "Buy Now")
  }

  /** The slot names one event: every other card looks as if nothing were loading. */
  lemma SlotIsolatesOtherEvents(e: Event, id: int)
    requires e.id != id
    ensures CardFor(e, Some(id)) == CardFor(e, None)
  {
  }

  /** A user action on the screen: a click on the buy button of the event at
      `index`, or the simulated contract call finishing. */
  datatype Action = ClickBuy(index: nat) | PurchaseDone

  /** A click reaches `handlePurchase` only through an enabled button. */
  predicate Allowed(events: seq<Event>, loading: Option<int>, a: Action) {
    match a
    case ClickBuy(i) => i < |events| && !CardFor(events[i], loading).buyDisabled
    case PurchaseDone => true
  }

  /** The loading slot after one action. */
  function Apply(events: seq<Event>, loading: Option<int>, a: Action): Option<int>
    requires Allowed(events, loading, a)
  {
    match a
    case ClickBuy(i) => Some(events[i].id)
    case PurchaseDone => None
  }

  /** Every action of the trace is allowed in the state it meets. */
  predicate Admissible(events: seq<Event>, loading: Option<int>, trace: seq<Action>)
    decreases |trace|
  {
    trace == [] ||
    (Allowed(events, loading, trace[0]) &&
     Admissible(events, Apply(events, loading, trace[0]), trace[1..]))
  }

  /** The loading slot after an admissible trace. */
  function Run(events: seq<Event>, loading: Option<int>, trace: seq<Action>): Option<int>
    requires Admissible(events, loading, trace)
    decreases |trace|
  {
    if trace == [] then loading
    else Run(events, Apply(events, loading, trace[0]), trace[1..])
  }

  /** The slot is empty or names an event that still has tickets. */
  predicate SlotOnAvailableEvent(events: seq<Event>, loading: Option<int>) {
    loading.Some? ==>
      exists i :: 0 <= i < |events| && events[i].id == loading.value && events[i].remainingTickets != 0
  }

  /** Whatever the user clicks, a sold-out event is never the one being purchased. */
  lemma {:induction false} RunKeepsSlotOnAvailableEvent(
    events: seq<Event>, loading: Option<int>, trace: seq<Action>)
    requires SlotOnAvailableEvent(events, loading)
    requires Admissible(events, loading, trace)
    ensures SlotOnAvailableEvent(events, Run(events, loading, trace))
    decreases |trace|
  {
    if trace != [] {
      var next := Apply(events, loading, trace[0]);
      if trace[0].ClickBuy? {
        var i := trace[0].index;
        assert events[i].id == next.value && events[i].remainingTickets != 0;
      }
      RunKeepsSlotOnAvailableEvent(events, next, trace[1..]);
    }
  }

  /** The purchase screen: the catalogue and its one loading slot. */
  class TicketPurchase {
    const events: seq<Event>
    var isLoading: Option<int>

    constructor ()
      ensures events == MockEvents() && isLoading == None
    {
      events := MockEvents();
      isLoading := None;
    }

    /** The card rendered for the event at `index`. */
    function CardAt(index: nat): (c: Card)
      reads this
      requires index < |events|
    {
      CardFor(events[index], isLoading)
    }

    /** `handlePurchase`: marks the event as being purchased; the price only
        feeds the confirmation alert. */
    method HandlePurchase(eventId: int, price: int)
      modifies this`isLoading
      ensures isLoading == Some(eventId)
      ensures forall i :: 0 <= i < |events| && events[i].id == eventId ==> CardAt(i).buyDisabled
    {
      isLoading := Some(eventId);
    }

    /** The timer callback of `handlePurchase`: clears the slot, whichever
        event it held. */
    method CompletePurchase()
      modifies this`isLoading
      ensures isLoading == None
      ensures forall i :: 0 <= i < |events| ==>
                (CardAt(i).buyDisabled <==> events[i].remainingTickets == 0)
    {
      isLoading := None;
    }
  }
}
