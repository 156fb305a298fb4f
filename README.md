# Crypto Balance Finder — state engine

A Dafny model of the state engine inside the React component `CryptoBalanceFinder`.
The component is a simulated "scanner". A repeating tick counts up to 1,000,000
"scanned" addresses. It shows a feed of random fake addresses and now and then
"finds" a random amount, which is added to a virtual balance. The user can
withdraw from that balance to an address-shaped string. An accepted withdrawal
runs a progress bar on a second timer, then debits the balance and records the
withdrawal in a history.

Layout:

- `draws.dfy` (`Draws`): the random draws. `Math.floor(Math.random() * n)` is
  `Pick`, and `randomAmount` is `RandomAmount`. Each `Math.random()` value is a
  `real` parameter in [0, 1).
- `addresses.dfy` (`Addresses`):
  - the three character classes and three shapes of `validateAddress`, and the
    predicate `ValidAddress` built from them;
  - `generateAddress` as a loop method (`GenerateAddress`);
  - the proof that a generated feed address is never a valid address.
- `pattern.dfy` (`AddressPattern`): an independent reference reading of the
  regular expression in `validateAddress`. It is a small regex syntax tree with a
  matching relation. The lemma `AddressRegexIsValidAddress` proves that the
  literal pattern accepts exactly the strings `ValidAddress` accepts.
- `engine.dfy` (`Engine`): the component's state as a value (`State`) and one
  function per operation: scan tick, find, start, stop, reset, withdrawal
  submit and withdrawal progress tick.
- `runs.dfy` (`Runs`): sessions as sequences of events. It proves that:
  - the state invariant holds in every reachable state;
  - the scan counter is monotone until a reset;
  - a stopped scan stays stopped until an explicit start;
  - until a reset, the ledger balances: balance plus withdrawn total equals the
    starting balance, plus the starting withdrawn total, plus the credited finds.
- `timeline.dfy` (`Timeline`): how a withdrawal unfolds over progress ticks. It
  commits on the eleventh tick, exactly once. It also holds two overdraft cases
  and a worked scenario.
- `finder.dfy` (`Finder`): the component as one class, `CryptoBalanceFinder`,
  whose fields are the component's state variables. Every handler and timer
  callback is a method that updates the fields in place. Each method is proved
  to follow the matching `Engine` function. Each also keeps the invariant,
  except the helper `HandleFound`, which `Tick` calls in the middle of its update.

Money is in integer cents, so the component's `toFixed(2)` rounding after each
credit and debit is exact. Timers are explicit calls:
- `Tick` is one firing of the 100 ms scan interval;
- `ProgressTick(k, now)` is one firing of the k-th live 300 ms withdrawal interval.

Randomness and the clock are parameters.

How the code behaves, as modelled:

- `resetScan` also sets `totalFound` to 0 (`CryptoBalanceFinder.jsx:88`). The
  withdrawal history, the live withdrawal intervals and `lastFound` survive it.
- The amount guard rejects only an empty amount or one above the balance
  (`:102`). Zero and negative amounts are accepted.
- A withdrawal commits on the eleventh progress tick, not the tenth. The check
  `p >= 100` (`:110`) runs before the bar is moved up (`:124`).
- The commit debits the amount captured at submit time without checking the
  balance again (`:112-113`). The balance can therefore go below zero:
  - a reset during a withdrawal drives it below zero
    (`Timeline.ResetDuringWithdrawalOverdraws`);
  - so does submitting the whole balance twice (`Timeline.DoubleSubmitOverdraws`).

  A non-negative balance is therefore not part of the invariant.
- The Confirm button is never disabled, so several withdrawal intervals can run
  at once. They share one progress bar. The model keeps the list of live
  intervals (`transfers`), each with the wallet and amount it captured.
- A tick that reaches the cap stops the scan but still adds its feed entry and
  credits its find (`:47-61`).

## Model

| member | source | states |
|---|---|---|
| `Draws.Pick` | CryptoBalanceFinder.jsx:48 | `Math.floor(Math.random() * n)` is an index below `n` (the scan increment is below 800, a digit index below 16) |
| `Draws.RandomAmount` | CryptoBalanceFinder.jsx:42 | `randomAmount` yields 1.00 to 1000.00 (100 to 100000 cents), the nearest cent to `random * 999 + 1` |
| `Addresses.IsBase58Char` | CryptoBalanceFinder.jsx:93 | the class `[1-9A-HJ-NP-Za-km-z]` is exactly the ASCII letters and digits other than 0, O, I and l |
| `Addresses.IsTailChar` | CryptoBalanceFinder.jsx:93 | the class `[a-zA-HJ-NP-Z0-9]` is exactly the ASCII letters and digits other than I and O |
| `Addresses.GenerateAddress` | CryptoBalanceFinder.jsx:34-40 | `generateAddress` returns `0x` followed by 38 characters, each the `GeneratorChars` digit its random draw picks; the result is never a valid address |
| `Addresses.GeneratedIsNeverValid` | CryptoBalanceFinder.jsx:34-40 | a 40-character `0x…` feed address fails `validateAddress`: too short for the hex shape, and its leading `0` fits neither the prefixed nor the Base58 shape |
| `Addresses.ValidAddress` | CryptoBalanceFinder.jsx:92-95 | `validateAddress`: holds exactly when the whole string has one of the three shapes; equal to the literal regex by `AddressRegexIsValidAddress`; every accepted string is 26 to 44 ASCII letters and digits |
| `Addresses.NotAnAddressIsInvalid` | CryptoBalanceFinder.jsx:92-95 | the string `not-an-address` is rejected |
| `AddressPattern.HexBranchMatches` | CryptoBalanceFinder.jsx:93 | the alternative `0x[a-fA-F0-9]{40}` matches exactly the hex-shaped strings |
| `AddressPattern.PrefixedBranchMatches` | CryptoBalanceFinder.jsx:93 | the alternative of a `bc1`, `1` or `3` prefix and 25 to 39 characters of `[a-zA-HJ-NP-Z0-9]` matches exactly the prefixed-shaped strings |
| `AddressPattern.Base58BranchMatches` | CryptoBalanceFinder.jsx:93 | the alternative `[1-9A-HJ-NP-Za-km-z]{32,44}` matches exactly the Base58-shaped strings |
| `AddressPattern.AddressRegexIsValidAddress` | CryptoBalanceFinder.jsx:92-95 | the anchored three-way pattern, read as a regular expression, accepts a string exactly when `ValidAddress` does |
| `Engine.NextScanned` | CryptoBalanceFinder.jsx:47-51 | the new count never exceeds 1,000,000, never falls below the old one, is the old count plus `inc` or the cap, and is the cap exactly when the sum reaches it |
| `Engine.PushEntry` | CryptoBalanceFinder.jsx:54-60 | the feed becomes the new entry followed by the first `min(25, n)` old entries in their order, so at most 26 entries |
| `Engine.ScanTick` | CryptoBalanceFinder.jsx:46-61 | a tick advances the count to `min(prev + inc, cap)`, leaves scanning on exactly while below the cap, pushes the new entry, credits a find (count +1, balance + amount, banner) and changes neither without one; the withdrawal side is unchanged |
| `Engine.StartScan` | CryptoBalanceFinder.jsx:76-79 | scanning is on and the banner cleared; every other variable is unchanged |
| `Engine.StopScan` | CryptoBalanceFinder.jsx:80-82 | scanning is off; every other variable is unchanged |
| `Engine.HandleFound` | CryptoBalanceFinder.jsx:67-74 | a find raises the find count by exactly one and the balance by exactly the amount, and sets the last find and the banner; every other variable is unchanged |
| `Engine.ResetScan` | CryptoBalanceFinder.jsx:83-90 | after a reset every scan variable and the balance are at their initial values; the withdrawal history, bar, status, message, live intervals and last find are kept |
| `Engine.SubmitWithdraw` | CryptoBalanceFinder.jsx:97-107 | an invalid address sets only the invalid-address status; otherwise a missing amount or one above the balance sets only the amount status; the request is in progress exactly when both guards pass, with the bar at 0 and one more live interval; the balance and history never change |
| `Engine.Commit` | CryptoBalanceFinder.jsx:110-122 | the commit lowers the balance by exactly the captured amount and puts one record `{wallet, amount, time}` in front of the otherwise unchanged history; it clears the status and shows the success message; every other variable is unchanged |
| `Engine.ProgressTick` | CryptoBalanceFinder.jsx:108-126 | the bar becomes `min(p + 10, 100)`; below 100 nothing else changes; at 100 or more the interval's captured amount is debited, its record goes in front of the history, the interval ends, the status clears and the success message shows; the scan side is unchanged |
| `Runs.StepKeepsInvariant` | CryptoBalanceFinder.jsx:44-127 | every action and timer firing keeps the invariant: count within [0, 1,000,000], feed of at most 26 generated addresses, found amounts within range, bar a multiple of 10 within [0, 100], every live or recorded withdrawal to a valid address |
| `Runs.RunKeepsInvariant` | CryptoBalanceFinder.jsx:44-127 | the invariant holds after any sequence of actions and timer firings |
| `Runs.ScannedNeverDecreases` | CryptoBalanceFinder.jsx:47-51 | until a reset, the scan count never goes down and never exceeds 1,000,000 |
| `Runs.StoppedStaysStopped` | CryptoBalanceFinder.jsx:44-65 | once scanning is off (by the cap or by stop) it stays off until an explicit start, and without a reset the count and the feed stay as they are |
| `Runs.LedgerBalances` | CryptoBalanceFinder.jsx:67-70 | until a reset, each find raises the find count by one, and balance plus withdrawn total grows by exactly the amounts found |
| `Timeline.QuietTicks` | CryptoBalanceFinder.jsx:109-124 | while the bar stays at or below 100 after each tick, progress ticks only move the bar up by 10 each |
| `Timeline.SplitTicks` | CryptoBalanceFinder.jsx:108-126 | `a` progress ticks followed by `b` more are `a + b` ticks |
| `Timeline.WithdrawalCommitsOnEleventhTick` | CryptoBalanceFinder.jsx:106-126 | an accepted withdrawal moves the bar 0, 10, …, 100 over ten ticks without touching balance or history, commits on the eleventh (balance minus the amount, its record first in the history, interval ended), and later ticks change nothing |
| `Timeline.ResetDuringWithdrawalOverdraws` | CryptoBalanceFinder.jsx:83-90 | a reset while a withdrawal is in flight leaves the balance at minus the amount once it commits |
| `Timeline.DoubleSubmitOverdraws` | CryptoBalanceFinder.jsx:102 | the whole balance can be submitted twice; both withdrawals commit and the balance ends at minus its old value |
| `Timeline.DiscoverThenWithdraw` | CryptoBalanceFinder.jsx:67-127 | from a fresh session a 50.00 find gives balance 50.00 and one find; a 30.00 withdrawal completes leaving 20.00 and one record; a further 25.00 request is refused as excessive and leaves 20.00 |
| `Timeline.ScanControlsIdempotent` | CryptoBalanceFinder.jsx:76-90 | stop twice is stop once, start twice is start once, reset twice is reset once; start touches only scanning and the banner, stop only scanning |
| `Finder.CryptoBalanceFinder.constructor` | CryptoBalanceFinder.jsx:13-30 | the fields start at the `useState` initial values |
| `Finder.CryptoBalanceFinder.StartScan` | CryptoBalanceFinder.jsx:76-79 | the fields move as `Engine.StartScan` says, keeping the invariant |
| `Finder.CryptoBalanceFinder.StopScan` | CryptoBalanceFinder.jsx:80-82 | the fields move as `Engine.StopScan` says |
| `Finder.CryptoBalanceFinder.ResetScan` | CryptoBalanceFinder.jsx:83-90 | the fields move as `Engine.ResetScan` says, keeping the invariant |
| `Finder.CryptoBalanceFinder.HandleFound` | CryptoBalanceFinder.jsx:67-74 | the fields move as `Engine.HandleFound` says: find count +1, balance + amount, last find and banner set |
| `Finder.CryptoBalanceFinder.Tick` | CryptoBalanceFinder.jsx:46-61 | the in-place tick generates the address from its draws, draws the amount of a find, and moves the fields as `Engine.ScanTick` says, keeping the invariant |
| `Finder.CryptoBalanceFinder.SubmitWithdraw` | CryptoBalanceFinder.jsx:97-107 | the fields move as `Engine.SubmitWithdraw` says, keeping the invariant |
| `Finder.CryptoBalanceFinder.ProgressTick` | CryptoBalanceFinder.jsx:108-126 | the fields move as `Engine.ProgressTick` says, keeping the invariant |

## Left out

- Presentation: the JSX markup, styling and framer-motion animation (`CryptoBalanceFinder.jsx:129-401`). The modal open/close flags `withdrawModal` and `premiumModal` are left out too. They only show or hide markup, and closing the dialog does not stop a running withdrawal interval.
- The premium modal and its `plan`, `method` and `purchaseStep` state (`:314-399`). It is a static selection, and "Confirm Purchase" only sets a flag.
- Probabilities: the find chance `Math.random() < 0.002` (`:56`) is not modelled. A tick simply receives an optional amount draw. The model does not capture the uniform distribution of draws either, only their ranges.
- Floating point: `parseFloat`, `toFixed` and the binary representation of amounts (`:42`, `:68-70`, `:102`, `:112-113`). Amounts are exact cents. An amount typed with more than two decimals is not modelled. Neither are amounts so large or so small that `parseFloat` yields an infinity.
- Amount text: the amount field is a number input, so its value is either empty or a number. It is modelled as an optional pre-parsed number of cents. How the browser parses the text is not modelled.
- Timing: the interval periods (100 ms, 300 ms) and the timeouts that clear the banner and the success message after 2.5 s and 3 s (`:46`, `:62`, `:73`, `:108`, `:122`, `:126`). Ticks are explicit calls. The banner and message stay set until the next change.
- Scheduling: the interleaving of the scan interval with several withdrawal intervals is an arbitrary sequence of events. `Timeline` lets the oldest live interval fire, which is one possible schedule.
- React semantics: state updates are applied at once and in program order.
  - Side effects inside updater functions run exactly once. The source calls `stopScan` inside `setScanned` (`:50`) and `handleFound` inside `setAddresses` (`:58`). A development-mode double invocation of updaters is not modelled.
  - The effect's interval registration and cleanup (`:44-65`) is modelled only as "a tick can happen exactly while scanning".
- The timestamp `new Date().toLocaleString()` (`:117`) is an opaque string parameter `now`.
- Text of the status lines, banner and success message: these are datatype values, not the emoji strings.
