# smart-booking: the client's state rules in Dafny

This project models the logic inside the React components of a blockchain
event-ticketing client. Everything else in that client is presentation.
Four components are covered:

- **TicketPurchase** (`ticket_purchase.dfy`, module `Purchase`): the fixed
  event catalogue and the Sold Out / Few Left / Available badge. It also
  covers when each buy button is disabled and what it says, and the single
  "purchase in progress" slot. Purchasing only toggles that slot. No
  inventory is decremented anywhere.
- **WalletConnect** (`wallet_connect.dfy`, module `Wallet`): detection of an
  injected Stacks wallet and the button's four state slots (`isSignedIn`,
  `userData`, `isLoading`, `error`). It models the mount-time session check,
  `handleConnect` with its `onFinish`/`onCancel` callbacks, `handleSignOut`,
  the shortened address, and which of the three renderings is shown.
- **TicketManagement** (`ticket_management.dfy`, module `Management`): look up
  the ticket of an address, then transfer it. A search always "finds" the
  same fixed ticket, and a transfer forgets it.
- **TechSpecs** (`tech_specs.dfy`, module `Specs`): the same cycle with a
  string ticket id and stricter controls.

`js.dfy` models the two pieces of JavaScript semantics the components rely
on: truthiness of an optional string, and `String.prototype.slice`.
`wrappers.dfy` holds `Option`, which stands for `null`/`undefined`.

The components share one shape:

- A class holds the component's `useState` slots as fields.
- Every handler is a method, and every `setTimeout` callback is a separate
  `Complete…` method.
- In the three components with four slots, a datatype mirror of the state
  (`State()`) lets each method's effect be stated as a pure transition
  function of the old state, and those functions carry the contracts.
  TicketPurchase has a single slot, so its methods state the new slot and
  the buttons it enables directly.
- Lemmas over arbitrary runs of user actions prove the invariants. A run is
  a sequence of clicks, typing, timer callbacks and, for the wallet button,
  library callbacks. In TicketPurchase, TicketManagement and TechSpecs a run
  is admissible when it only uses controls that are rendered and enabled.
  The wallet button's invariant holds over every run, without that
  restriction.

Values that come from the browser or from the `@stacks/connect` library are
parameters:

- the `window` globals that are probed;
- what the library reports at mount (`AuthStatus`);
- what the library reports when `onFinish` fires: a signed-in session with
  the user data it loads, no session, or a throw (`FinishReport`);
- whether `showConnect` throws;
- whether `signUserOut` throws.

## Model

| member | source | states |
|---|---|---|
| Purchase.MockEvents | src/components/TicketPurchase.tsx:5-33 | the catalogue has three events with distinct ids, each with `0 <= remainingTickets <= totalTickets` and `totalTickets > 0` |
| Purchase.MockEventBadges | src/components/TicketPurchase.tsx:78-79 | the catalogue renders as Available (25/100), Few Left (5/50) and Sold Out (0/30) |
| Purchase.Status.Text | src/components/TicketPurchase.tsx:51-53 | the badge words "Sold Out", "Few Left" and "Available" each identify exactly one badge |
| Purchase.Status.Color | src/components/TicketPurchase.tsx:51-53 | the badge colours red, yellow and green each identify exactly one badge |
| Purchase.Percentage | src/components/TicketPurchase.tsx:50 | the badge's percentage `(remaining / total) * 100` as an exact rational (a definition, no contract of its own) |
| Purchase.AtMostTwentyPercent | src/components/TicketPurchase.tsx:50-52 | the test `percentage <= 20` decided on integers, with JavaScript's Infinity/NaN results for a zero total (a definition; its agreement with the percentage is AtMostTwentyPercentIsPercentage) |
| Purchase.AvailabilityStatus | src/components/TicketPurchase.tsx:49-54 | Sold Out exactly when `remaining == 0`, checked first; for a positive total and non-zero remaining, Few Left iff `remaining*100 <= 20*total`, otherwise Available |
| Purchase.AtMostTwentyPercentIsPercentage | src/components/TicketPurchase.tsx:50-52 | the integer test used by the model equals the source's `(remaining/total)*100 <= 20` over exact rationals, for every non-zero total of either sign |
| Purchase.AvailabilityMatchesPercentage | src/components/TicketPurchase.tsx:49-54 | the classification equals "sold out if zero, else Few Left if the percentage is at most 20, else Available" with the percentage as written |
| Purchase.AvailabilityPartition | src/components/TicketPurchase.tsx:49-54 | for a well-formed event exactly one badge applies: Sold Out iff 0 left, Few Left iff `0 < 5*remaining <= total`, Available iff `5*remaining > total` |
| Purchase.CardFor | src/components/TicketPurchase.tsx:125-137 | the buy button is disabled iff sold out or the loading slot holds this event's id; the spinner shows iff the slot holds this event's id; the text is "Buy Now" exactly when the button is enabled, "Sold Out" exactly when sold out, and "Purchasing..." exactly when loading this event and not sold out |
| Purchase.SlotIsolatesOtherEvents | src/components/TicketPurchase.tsx:127-137 | a loading slot naming another event leaves this event's card exactly as when nothing loads |
| Purchase.RunKeepsSlotOnAvailableEvent | src/components/TicketPurchase.tsx:39-47 | across any run of enabled buy clicks and completions, the loading slot is empty or names an event with tickets left |
| Purchase.TicketPurchase.constructor | src/components/TicketPurchase.tsx:35-37 | the screen starts on the fixed catalogue with nothing loading |
| Purchase.TicketPurchase.HandlePurchase | src/components/TicketPurchase.tsx:39-40 | the slot holds the clicked event's id and that event's button is disabled; only the slot changes, and the catalogue is a constant |
| Purchase.TicketPurchase.CompletePurchase | src/components/TicketPurchase.tsx:43-46 | the slot is cleared, whichever event it held, and every button is again disabled only if its event is sold out |
| Wallet.CheckWalletAvailability | src/components/wallet-connect.tsx:40-56 | Hiro is reported iff `StacksProvider` is present, Xverse iff `XverseProviders` and its `StacksProvider` are, Leather iff `btc` or `LeatherProvider` is; a wallet is found iff any of the three is reported |
| Wallet.Testnet | src/components/wallet-connect.tsx:127 | `profile?.stxAddress?.testnet`: missing when the profile or the address record is missing, else the record's testnet entry (a definition, used by DisplayAddress's contract) |
| Wallet.Mainnet | src/components/wallet-connect.tsx:128 | `profile?.stxAddress?.mainnet`: missing when the profile or the address record is missing, else the record's mainnet entry (a definition, used by DisplayAddress's contract) |
| Wallet.DisplayAddress | src/components/wallet-connect.tsx:126-128 | the testnet address if it is a non-empty string, else the mainnet address if it is, else the empty string |
| Wallet.FormatAddress | src/components/wallet-connect.tsx:112-115 | `""` for `""`; otherwise `s[..min(6,n)] + "..." + s[max(0,n-4)..]`, derived from JavaScript `slice` semantics, of length between 5 and 13 |
| Wallet.FormatAddressLong | src/components/wallet-connect.tsx:112-115 | an address of 10 or more characters shortens to exactly 13 characters that keep its first six and last four |
| Wallet.AfterAuthCheck | src/components/wallet-connect.tsx:16-38 | the mount check sets the user data to the pending or stored sign-in's data and the flag with it, keeps both otherwise, sets the authentication error only when the library throws, and always stops loading |
| Wallet.AfterConnect | src/components/wallet-connect.tsx:58-101 | the prompt is opened iff a wallet is detected; with no wallet the "no wallet" error is set and loading stops; if the prompt throws, the "failed to connect" error is set; loading continues iff the prompt opened without throwing; an error is left iff loading stopped; the signed-in flag and user data are never touched |
| Wallet.AfterFinish | src/components/wallet-connect.tsx:78-88 | the user data and the signed-in flag are set only when the session reports signed in; loading stops unless the library throws, in which case nothing changes (the callback has no catch); the error is kept |
| Wallet.FinishThrowKeepsLoading | src/components/wallet-connect.tsx:78-88 | a connect whose `onFinish` throws leaves the button on the loading view |
| Wallet.AfterCancel | src/components/wallet-connect.tsx:89-92 | only loading stops; the signed-in flag, the user data and the error are untouched |
| Wallet.AfterSignOut | src/components/wallet-connect.tsx:103-107 | if `signUserOut` throws, the state is unchanged (no catch, so no setter runs); otherwise not signed in, no user data, no error; loading is unchanged in both cases |
| Wallet.SignOutIdempotent | src/components/wallet-connect.tsx:103-107 | when `signUserOut` returns normally, signing out twice gives the same state as signing out once |
| Wallet.Render | src/components/wallet-connect.tsx:117-192 | the loading button iff loading; otherwise the signed-in view iff signed in with user data, showing the shortened display address of that data (at most 13 characters); otherwise an enabled connect button whose alert shows the error text iff it is a non-empty string |
| Wallet.NoWalletShowsAlert | src/components/wallet-connect.tsx:63-69 | connecting from a signed-out state in any window where detection finds no wallet never opens the prompt and renders the connect button with the "no wallet" alert |
| Wallet.ConnectThenFinishShowsAddress | src/components/wallet-connect.tsx:72-88 | with a wallet present, a connect finished by a signed-in session renders the shortened address of the loaded user data |
| Wallet.ConnectThenCancelRestoresView | src/components/wallet-connect.tsx:58-92 | with a wallet present, a cancelled connect restores the state before the click, minus any earlier error |
| Wallet.RunKeepsConsistent | src/components/wallet-connect.tsx:16-107 | across any run of checks, connects, callbacks and sign-outs, `isSignedIn` holds iff user data is present, so the signed-in view appears iff signed in and not loading |
| Wallet.WalletConnect.constructor | src/components/wallet-connect.tsx:11-14 | the button starts not signed in, with no user data, loading and with no error |
| Wallet.WalletConnect.CheckAuthStatus | src/components/wallet-connect.tsx:16-35 | the new state is the mount-check transition of the old state, and loading has stopped |
| Wallet.WalletConnect.HandleConnect | src/components/wallet-connect.tsx:58-101 | the new state and the prompt flag are those of the connect transition; the signed-in flag and user data are unchanged; without the prompt, the "no wallet" error is set and loading has stopped |
| Wallet.WalletConnect.OnFinish | src/components/wallet-connect.tsx:78-88 | the new state is the finish transition of the old state; the error is kept, and a throwing library leaves loading as it was |
| Wallet.WalletConnect.OnCancel | src/components/wallet-connect.tsx:89-92 | the new state is the cancel transition; the signed-in flag and user data are unchanged |
| Wallet.WalletConnect.HandleSignOut | src/components/wallet-connect.tsx:103-110 | the new state is the sign-out transition: unchanged if `signUserOut` throws, else not signed in, no user data, no error |
| Management.SearchEnabled | src/components/TicketManagement.tsx:103 | the search button is enabled iff an address is typed and nothing loads (a definition, used by the transitions' contracts) |
| Management.TransferFormShown | src/components/TicketManagement.tsx:171 | the transfer form (recipient input and button) is rendered iff a ticket is held; the "Ticket Found!" card uses the same test at line 115 (a definition) |
| Management.TransferDisabled | src/components/TicketManagement.tsx:197 | the transfer button is disabled iff the recipient is empty or something loads (a definition) |
| Management.TransferClickable | src/components/TicketManagement.tsx:171-197 | the transfer button can be clicked iff it is rendered and not disabled (a definition; see ReachableTransferClickable) |
| Management.AfterSearchStart | src/components/TicketManagement.tsx:28-29 | only the loading flag changes, and it is set; both buttons are then disabled |
| Management.AfterSearchDone | src/components/TicketManagement.tsx:30-33 | the fixed mock ticket is held, whatever address was typed, and loading stops; address and recipient are kept; the transfer form is shown |
| Management.AfterTransferStart | src/components/TicketManagement.tsx:36-37 | only the loading flag changes, and it is set; both buttons are then disabled |
| Management.AfterTransferDone | src/components/TicketManagement.tsx:38-43 | no ticket, empty recipient, not loading, address kept; the transfer form disappears and the search button is enabled iff an address is typed |
| Management.SearchThenTransferClears | src/components/TicketManagement.tsx:28-44 | a completed search followed by a completed transfer leaves no ticket, no recipient and nothing loading, with the typed address kept |
| Management.RunKeepsReachable | src/components/TicketManagement.tsx:171-197 | across any run through the rendered, enabled controls, the only ticket ever held is the mock ticket, and a typed recipient implies a held ticket |
| Management.RunKeepsSearchAddress | src/components/TicketManagement.tsx:28-44 | no sequence of searches, transfers, completions and recipient edits changes the typed address |
| Management.ReachableTransferClickable | src/components/TicketManagement.tsx:171-197 | in a reachable state the transfer button can be clicked iff a recipient is typed and nothing loads |
| Management.TicketManagement.constructor | src/components/TicketManagement.tsx:15-18 | empty address, empty recipient, no ticket, not loading |
| Management.TicketManagement.SetSearchAddress | src/components/TicketManagement.tsx:94-97 | only the address changes, to the typed text |
| Management.TicketManagement.SetTransferRecipient | src/components/TicketManagement.tsx:186-189 | only the recipient changes, to the typed text |
| Management.TicketManagement.HandleSearch | src/components/TicketManagement.tsx:28-29 | the new state is the search-start transition: loading, address unchanged |
| Management.TicketManagement.CompleteSearch | src/components/TicketManagement.tsx:30-33 | the new state is the search-done transition: the mock ticket is held and loading stops |
| Management.TicketManagement.HandleTransfer | src/components/TicketManagement.tsx:36-37 | the new state is the transfer-start transition: loading, address unchanged |
| Management.TicketManagement.CompleteTransfer | src/components/TicketManagement.tsx:38-43 | the new state is the transfer-done transition: no ticket, empty recipient, not loading |
| Specs.SearchEnabled | src/components/TechSpecs.tsx:199 | the search button is enabled iff an address is typed and nothing loads (a definition) |
| Specs.RecipientInputDisabled | src/components/TechSpecs.tsx:227 | the recipient input is disabled iff the ticket is missing or empty (a definition) |
| Specs.TransferEnabled | src/components/TechSpecs.tsx:232 | the transfer button is enabled iff a recipient is typed, a non-empty ticket is held and nothing loads (a definition) |
| Specs.SearchFirstHintShown | src/components/TechSpecs.tsx:246-250 | the "search first" hint is shown iff the ticket is missing or empty (a definition) |
| Specs.HintMatchesDisabledInput | src/components/TechSpecs.tsx:222-250 | the "search first" hint is shown exactly when the recipient input is disabled, and an enabled transfer button implies neither |
| Specs.AfterSearchStart | src/components/TechSpecs.tsx:75-76 | only the loading flag changes, and it is set; both buttons are then disabled |
| Specs.AfterSearchDone | src/components/TechSpecs.tsx:80-83 | the ticket is `"SAMPLE_TICKET_ID"` whatever address was typed, and loading stops; the recipient input is enabled and the hint hidden |
| Specs.AfterTransferStart | src/components/TechSpecs.tsx:90-91 | only the loading flag changes, and it is set; both buttons are then disabled |
| Specs.AfterTransferDone | src/components/TechSpecs.tsx:97-101 | no ticket, empty recipient, not loading, address kept; the recipient input is disabled, the hint shown and the transfer button disabled |
| Specs.RunKeepsReachable | src/components/TechSpecs.tsx:222-232 | across any run through enabled controls, the only ticket ever held is the sample id, and a typed recipient implies a held ticket |
| Specs.RunKeepsSearchAddress | src/components/TechSpecs.tsx:75-106 | no sequence of searches, transfers, completions and recipient edits changes the typed address |
| Specs.ReachableTransferEnabled | src/components/TechSpecs.tsx:230-232 | in a reachable state the button's extra ticket check never decides anything: it is enabled iff a recipient is typed and nothing loads |
| Specs.TechSpecs.constructor | src/components/TechSpecs.tsx:69-72 | empty address, empty recipient, no ticket, not loading |
| Specs.TechSpecs.SetSearchAddress | src/components/TechSpecs.tsx:190-193 | only the address changes, to the typed text |
| Specs.TechSpecs.SetTransferRecipient | src/components/TechSpecs.tsx:222-225 | only the recipient changes, to the typed text |
| Specs.TechSpecs.HandleSearch | src/components/TechSpecs.tsx:75-76 | the new state is the search-start transition: loading, address unchanged |
| Specs.TechSpecs.CompleteSearch | src/components/TechSpecs.tsx:80-83 | the new state is the search-done transition: the sample id is held and loading stops |
| Specs.TechSpecs.HandleTransfer | src/components/TechSpecs.tsx:90-91 | the new state is the transfer-start transition: loading, address unchanged |
| Specs.TechSpecs.CompleteTransfer | src/components/TechSpecs.tsx:97-101 | the new state is the transfer-done transition: no ticket, empty recipient, not loading |
| Js.Truthy | src/components/wallet-connect.tsx:113 | an optional string is truthy iff it is present and not empty (a definition, used by DisplayAddress's and Render's contracts) |
| Js.RelativeIndex | src/components/wallet-connect.tsx:114 | a `slice` argument becomes a position within the string, never past its length; a non-negative index is capped at the length, a negative one counts back from the end and stops at 0 (otherwise a definition, used by Slice's contract) |
| Js.Slice | src/components/wallet-connect.tsx:114 | `slice(start, end)` with non-negative arguments is the clamped subsequence; when the relative positions cross it is empty |
| Js.SliceFrom | src/components/wallet-connect.tsx:114 | `slice(start)` with a negative start keeps the last `-start` characters, or the whole string if it is shorter |

## Left out

- Rendering, styling, animation and icons are pure view. Only the facts a
  handler or guard depends on are modelled: badge, button state and text,
  which view is shown, and hint visibility.
- Timer delays and overlapping timers are not modelled. Each `setTimeout`
  callback is a separate step that a run may take at any point. The model
  does not tie a completion to the click that scheduled it.
- The `@stacks/connect` calls (`showConnect`, `isSignInPending`,
  `handlePendingSignIn`, `isUserSignedIn`, `loadUserData`, `signUserOut`) are
  foreign code. Their outcomes are parameters.
- `window.location.reload` after sign-out, `alert`, `console.log`,
  `navigator.clipboard` (`copyToClipboard` in TicketManagement) and the
  `window` probing itself are browser I/O.
- The `selectedEvent` slot of TicketPurchase is never read or written after
  it is declared.
- The `catch` branches of the TechSpecs handlers are not modelled, because
  `console.log` and scheduling a timer do not throw.
- Js.Slice: positions count Dafny characters (Unicode code points), while
  JavaScript's `slice` counts UTF-16 code units. The two agree on strings
  without characters outside the Basic Multilingual Plane, such as the
  ASCII addresses a Stacks wallet returns.
- Js.SliceFrom: counts positions in characters, not UTF-16 code units, as
  `Js.Slice` does; the same agreement on ASCII strings holds.
- Wallet.FormatAddress: the six leading and four trailing positions are
  characters, not UTF-16 code units, so for an address containing
  characters outside the Basic Multilingual Plane (an emoji, say) the model
  keeps more of it than the browser would. Stacks addresses are ASCII, where
  the two agree.
- Purchase.AvailabilityStatus: the badge percentage is computed in floating
  point in the source. The model decides it exactly over rationals, with
  division by a zero total following JavaScript's Infinity/NaN rules.
  Rounding is not modelled, and the progress-bar width is left out as
  presentation.
- `userData` in WalletConnect is untyped in the source. The model keeps only
  the optional chain `profile.stxAddress.{testnet,mainnet}` and assumes
  those are strings when present.
- Inventory decrement, rollback and ticket ownership change are not
  modelled: the code does none of them.
- `src/lib/wallet.ts` is a thin wrapper over the wallet library with no
  logic of its own, and `src/App.tsx` only composes components.
- The static-content components (Hero, Features, HowItWorks, Footer,
  EventInfo) and the Navbar menu toggle have no logic.
