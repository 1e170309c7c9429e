/**
 * The ticket-management panel: look up the ticket of a wallet address, then
 * transfer it to a recipient. Both calls are simulated: a search always
 * finds the same fixed ticket, whatever address was typed, and a transfer
 * simply forgets the ticket. Each handler is split into the click (start)
 * and its timer callback (complete).
 */
module Management {
  import opened Wrappers

  datatype TicketType = TicketType(
    eventName: string,
    ticketId: string,
    purchaseDate: string,
    price: string,
    transferrable: bool)

  /** The ticket every search "finds". */
  const MockUserTicket := TicketType("Tech Conference 2025", "#TKT-001", "Feb 15, 2025", "50 STX", true)

  /** The panel's four state slots. */
  datatype Panel = Panel(
    searchAddress: string,
    transferRecipient: string,
    userTicket: Option<TicketType>,
    isLoading: bool)

  const Initial := Panel("", "", None, false)

  // ---------------------------------------------------------------------
  // What the panel shows

  /** The search button: `!searchAddress || isLoading` disables it. */
  predicate SearchEnabled(p: Panel) {
    p.searchAddress != "" && !p.isLoading
  }

  /** The "Ticket Found!" card and the whole transfer form (recipient input
      and button) exist only while a ticket is held. */
  predicate TransferFormShown(p: Panel) {
    p.userTicket.Some?
  }

  /** The transfer button: `!transferRecipient || isLoading` disables it. */
  predicate TransferDisabled(p: Panel) {
    p.transferRecipient == "" || p.isLoading
  }

  /** The transfer button can be clicked: it is rendered and not disabled. */
  predicate TransferClickable(p: Panel) {
    TransferFormShown(p) && !TransferDisabled(p)
  }

  // ---------------------------------------------------------------------
  // Transitions

  function AfterSearchStart(p: Panel): (r: Panel)
    ensures r.isLoading && !SearchEnabled(r) && !TransferClickable(r)
    ensures r.(isLoading := p.isLoading) == p
  {
    p.(isLoading := true)
  }

  /** The search timer: the fixed ticket, independent of the address typed. */
  function AfterSearchDone(p: Panel): (r: Panel)
    ensures r.userTicket == Some(MockUserTicket) && !r.isLoading
    ensures r.searchAddress == p.searchAddress && r.transferRecipient == p.transferRecipient
    ensures TransferFormShown(r)
  {
    p.(userTicket := Some(MockUserTicket), isLoading := false)
  }

  function AfterTransferStart(p: Panel): (r: Panel)
    ensures r.isLoading && !SearchEnabled(r) && TransferDisabled(r)
    ensures r.(isLoading := p.isLoading) == p
  {
    p.(isLoading := true)
  }

  /** The transfer timer: the ticket and the recipient are forgotten. */
  function AfterTransferDone(p: Panel): (r: Panel)
    ensures r.userTicket.None? && r.transferRecipient == "" && !r.isLoading
    ensures r.searchAddress == p.searchAddress
    ensures !TransferFormShown(r) && SearchEnabled(r) == (p.searchAddress != "")
  {
    p.(userTicket := None, transferRecipient := "", isLoading := false)
  }

  /** A completed search followed by a completed transfer ends with no
      ticket, no recipient and nothing loading, the typed address kept. */
  lemma SearchThenTransferClears(p: Panel)
    ensures AfterTransferDone(AfterTransferStart(AfterSearchDone(AfterSearchStart(p))))
              == Panel(p.searchAddress, "", None, false)
  {
  }

  // ---------------------------------------------------------------------
  // Runs of the panel

  /** What the user and the timers can do to the panel. */
  datatype Action =
    | TypeAddress(address: string)
    | TypeRecipient(recipient: string)
    | ClickSearch
    | SearchDone
    | ClickTransfer
    | TransferDone

  /** Typing and clicking go through the rendered, enabled controls;
      timer callbacks may fire at any time. */
  predicate Allowed(p: Panel, a: Action) {
    match a
    case TypeAddress(_) => true
    case TypeRecipient(_) => TransferFormShown(p)
    case ClickSearch => SearchEnabled(p)
    case SearchDone => true
    case ClickTransfer => TransferClickable(p)
    case TransferDone => true
  }

  function Step(p: Panel, a: Action): Panel {
    match a
    case TypeAddress(s) => p.(searchAddress := s)
    case TypeRecipient(s) => p.(transferRecipient := s)
    case ClickSearch => AfterSearchStart(p)
    case SearchDone => AfterSearchDone(p)
    case ClickTransfer => AfterTransferStart(p)
    case TransferDone => AfterTransferDone(p)
  }

  predicate Admissible(p: Panel, trace: seq<Action>)
    decreases |trace|
  {
    trace == [] || (Allowed(p, trace[0]) && Admissible(Step(p, trace[0]), trace[1..]))
  }

  function Run(p: Panel, trace: seq<Action>): Panel
    decreases |trace|
  {
    if trace == [] then p else Run(Step(p, trace[0]), trace[1..])
  }

  /** The panel only ever holds the fixed ticket, and a recipient can only
      have been typed while a ticket is held. */
  predicate Reachable(p: Panel) {
    (p.userTicket.None? || p.userTicket == Some(MockUserTicket))
    && (p.transferRecipient != "" ==> p.userTicket.Some?)
  }

  /** Every run of the panel through its controls keeps `Reachable`. */
  lemma {:induction false} RunKeepsReachable(p: Panel, trace: seq<Action>)
    requires Reachable(p) && Admissible(p, trace)
    ensures Reachable(Run(p, trace))
    decreases |trace|
  {
    if trace != [] {
      RunKeepsReachable(Step(p, trace[0]), trace[1..]);
    }
  }

  /** The search and transfer handlers never touch the typed address: only
      typing into the address field changes it. */
  lemma {:induction false} RunKeepsSearchAddress(p: Panel, trace: seq<Action>)
    requires forall i :: 0 <= i < |trace| ==> !trace[i].TypeAddress?
    ensures Run(p, trace).searchAddress == p.searchAddress
    decreases |trace|
  {
    if trace != [] {
      RunKeepsSearchAddress(Step(p, trace[0]), trace[1..]);
    }
  }

  /** In a reachable panel the transfer button is clickable exactly when a
      recipient is typed and nothing loads: the ticket is then always held. */
  lemma ReachableTransferClickable(p: Panel)
    requires Reachable(p)
    ensures TransferClickable(p) <==> p.transferRecipient != "" && !p.isLoading
  {
  }

  /** The panel as a component with four state slots. */
  class TicketManagement {
    var searchAddress: string
    var transferRecipient: string
    var userTicket: Option<TicketType>
    var isLoading: bool

    function State(): Panel
      reads this
    {
      Panel(searchAddress, transferRecipient, userTicket, isLoading)
    }

    constructor ()
      ensures State() == Initial
    {
      searchAddress, transferRecipient, userTicket, isLoading := "", "", None, false;
    }

    /** The address input's `onChange`. */
    method SetSearchAddress(address: string)
      modifies this
      ensures State() == old(State()).(searchAddress := address)
    {
      searchAddress := address;
    }

    /** The recipient input's `onChange`. */
    method SetTransferRecipient(recipient: string)
      modifies this
      ensures State() == old(State()).(transferRecipient := recipient)
    {
      transferRecipient := recipient;
    }

    /** `handleSearch`, up to its timer. */
    method HandleSearch()
      modifies this
      ensures State() == AfterSearchStart(old(State()))
      ensures isLoading && searchAddress == old(searchAddress)
    {
      isLoading := true;
    }

    /** The timer callback of `handleSearch`. */
    method CompleteSearch()
      modifies this
      ensures State() == AfterSearchDone(old(State()))
      ensures userTicket == Some(MockUserTicket) && !isLoading
    {
      userTicket := Some(MockUserTicket);
      isLoading := false;
    }

    /** `handleTransfer`, up to its timer. */
    method HandleTransfer()
      modifies this
      ensures State() == AfterTransferStart(old(State()))
      ensures isLoading && searchAddress == old(searchAddress)
    {
      isLoading := true;
    }

    /** The timer callback of `handleTransfer` (its alert is not modelled). */
    method CompleteTransfer()
      modifies this
      ensures State() == AfterTransferDone(old(State()))
      ensures userTicket.None? && transferRecipient == "" && !isLoading
    {
      userTicket := None;
      transferRecipient := "";
      isLoading := false;
    }
  }
}
