/**
 * The interactive demo of the technology section: the same search-then-
 * transfer cycle as the ticket-management panel, with the ticket held as a
 * bare identifier string and stricter controls (the recipient input is
 * disabled without a ticket and the transfer button checks for one).
 */
module Specs {
  import opened Wrappers
  import opened Js

  /** The identifier every search "finds". */
  const SampleTicketId := "SAMPLE_TICKET_ID"

  /** The demo's four state slots. */
  datatype Demo = Demo(
    searchAddress: string,
    transferRecipient: string,
    userTicket: Option<string>,
    isLoading: bool)

  const Initial := Demo("", "", None, false)

  // ---------------------------------------------------------------------
  // What the demo shows

  /** `!searchAddress || isLoading` disables the search button. */
  predicate SearchEnabled(d: Demo) {
    d.searchAddress != "" && !d.isLoading
  }

  /** `!userTicket` disables the recipient input. */
  predicate RecipientInputDisabled(d: Demo) {
    !Truthy(d.userTicket)
  }

  /** `!transferRecipient || !userTicket || isLoading` disables the transfer button. */
  predicate TransferEnabled(d: Demo) {
    d.transferRecipient != "" && Truthy(d.userTicket) && !d.isLoading
  }

  /** `!userTicket` shows the "search for a ticket first" hint. */
  predicate SearchFirstHintShown(d: Demo) {
    !Truthy(d.userTicket)
  }

  /** The hint is shown exactly when the recipient input is disabled, and an
      enabled transfer button means the input is usable. */
  lemma HintMatchesDisabledInput(d: Demo)
    ensures SearchFirstHintShown(d) <==> RecipientInputDisabled(d)
    ensures TransferEnabled(d) ==> !RecipientInputDisabled(d) && !SearchFirstHintShown(d)
  {
  }

  // ---------------------------------------------------------------------
  // Transitions

  function AfterSearchStart(d: Demo): (r: Demo)
    ensures r.isLoading && !SearchEnabled(r) && !TransferEnabled(r)
    ensures r.(isLoading := d.isLoading) == d
  {
    d.(isLoading := true)
  }

  /** The search timer: the sample identifier, whatever address was typed. */
  function AfterSearchDone(d: Demo): (r: Demo)
    ensures r.userTicket == Some(SampleTicketId) && !r.isLoading
    ensures r.searchAddress == d.searchAddress && r.transferRecipient == d.transferRecipient
    ensures !RecipientInputDisabled(r) && !SearchFirstHintShown(r)
  {
    d.(userTicket := Some(SampleTicketId), isLoading := false)
  }

  function AfterTransferStart(d: Demo): (r: Demo)
    ensures r.isLoading && !SearchEnabled(r) && !TransferEnabled(r)
    ensures r.(isLoading := d.isLoading) == d
  {
    d.(isLoading := true)
  }

  /** The transfer timer: the ticket and the recipient are forgotten. */
  function AfterTransferDone(d: Demo): (r: Demo)
    ensures r.userTicket.None? && r.transferRecipient == "" && !r.isLoading
    ensures r.searchAddress == d.searchAddress
    ensures RecipientInputDisabled(r) && SearchFirstHintShown(r) && !TransferEnabled(r)
  {
    d.(userTicket := None, transferRecipient := "", isLoading := false)
  }

  // ---------------------------------------------------------------------
  // Runs of the demo

  datatype Action =
    | TypeAddress(address: string)
    | TypeRecipient(recipient: string)
    | ClickSearch
    | SearchDone
    | ClickTransfer
    | TransferDone

  /** Typing and clicking go through enabled controls; timer callbacks may
      fire at any time. */
  predicate Allowed(d: Demo, a: Action) {
    match a
    case TypeAddress(_) => true
    case TypeRecipient(_) => !RecipientInputDisabled(d)
    case ClickSearch => SearchEnabled(d)
    case SearchDone => true
    case ClickTransfer => TransferEnabled(d)
    case TransferDone => true
  }

  function Step(d: Demo, a: Action): Demo {
    match a
    case TypeAddress(s) => d.(searchAddress := s)
    case TypeRecipient(s) => d.(transferRecipient := s)
    case ClickSearch => AfterSearchStart(d)
    case SearchDone => AfterSearchDone(d)
    case ClickTransfer => AfterTransferStart(d)
    case TransferDone => AfterTransferDone(d)
  }

  predicate Admissible(d: Demo, trace: seq<Action>)
    decreases |trace|
  {
    trace == [] || (Allowed(d, trace[0]) && Admissible(Step(d, trace[0]), trace[1..]))
  }

  function Run(d: Demo, trace: seq<Action>): Demo
    decreases |trace|
  {
    if trace == [] then d else Run(Step(d, trace[0]), trace[1..])
  }

  /** The demo only ever holds the sample identifier (so holding one and
      `userTicket` being truthy coincide), and a recipient can only have been
      typed while one is held. */
  predicate Reachable(d: Demo) {
    (d.userTicket.None? || d.userTicket == Some(SampleTicketId))
    && (d.transferRecipient != "" ==> d.userTicket.Some?)
  }

  /** Every run of the demo through its controls keeps `Reachable`. */
  lemma {:induction false} RunKeepsReachable(d: Demo, trace: seq<Action>)
    requires Reachable(d) && Admissible(d, trace)
    ensures Reachable(Run(d, trace))
    decreases |trace|
  {
    if trace != [] {
      RunKeepsReachable(Step(d, trace[0]), trace[1..]);
    }
  }

  /** The handlers never touch the typed address: only typing changes it. */
  lemma {:induction false} RunKeepsSearchAddress(d: Demo, trace: seq<Action>)
    requires forall i :: 0 <= i < |trace| ==> !trace[i].TypeAddress?
    ensures Run(d, trace).searchAddress == d.searchAddress
    decreases |trace|
  {
    if trace != [] {
      RunKeepsSearchAddress(Step(d, trace[0]), trace[1..]);
    }
  }

  /** In a reachable demo the extra ticket check of the transfer button never
      decides anything: a typed recipient already implies a held ticket. */
  lemma ReachableTransferEnabled(d: Demo)
    requires Reachable(d)
    ensures TransferEnabled(d) <==> d.transferRecipient != "" && !d.isLoading
  {
  }

  /** The demo as a component with four state slots. */
  class TechSpecs {
    var searchAddress: string
    var transferRecipient: string
    var userTicket: Option<string>
    var isLoading: bool

    function State(): Demo
      reads this
    {
      Demo(searchAddress, transferRecipient, userTicket, isLoading)
    }

    constructor ()
      ensures State() == Initial
    {
      searchAddress, transferRecipient, userTicket, isLoading := "", "", None, false;
    }

    /** The address input's `onChange`. */
    method SetSearchAddress(address: string)
      modifies this
      ensures State() == old(State()).(searchAddress := address)
    {
      searchAddress := address;
    }

    /** The recipient input's `onChange`. */
    method SetTransferRecipient(recipient: string)
      modifies this
      ensures State() == old(State()).(transferRecipient := recipient)
    {
      transferRecipient := recipient;
    }

    /** `handleSearch`, up to its timer (its log line is not modelled). */
    method HandleSearch()
      modifies this
      ensures State() == AfterSearchStart(old(State()))
      ensures isLoading && searchAddress == old(searchAddress)
    {
      isLoading := true;
    }

    /** The timer callback of `handleSearch`. */
    method CompleteSearch()
      modifies this
      ensures State() == AfterSearchDone(old(State()))
      ensures userTicket == Some(SampleTicketId) && !isLoading
    {
      userTicket := Some(SampleTicketId);
      isLoading := false;
    }

    /** `handleTransfer`, up to its timer. */
    method HandleTransfer()
      modifies this
      ensures State() == AfterTransferStart(old(State()))
      ensures isLoading && searchAddress == old(searchAddress)
    {
      isLoading := true;
    }

    /** The timer callback of `handleTransfer`. */
    method CompleteTransfer()
      modifies this
      ensures State() == AfterTransferDone(old(State()))
      ensures userTicket.None? && transferRecipient == "" && !isLoading
    {
      userTicket := None;
      transferRecipient := "";
      isLoading := false;
    }
  }
}
