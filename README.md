# IDM send form — a Dafny model

IDM.TO is a single web page. A user picks one of their connected wallet accounts, types a
recipient address and a free-text message, optionally ticks "Tip" and enters an ether amount,
and presses "Send Message". The message travels as the data of an ordinary transaction. This
project models the logic of that page (`src/app/page.tsx`) and proves properties of it:

- **Request derivation** (`Page.PrepareArgs`): the arguments the page hands to the wallet
  library's transaction preparation. Sender, recipient and hex-encoded message are passed
  through. The value is `parseEther(amount)` when the tip box is ticked and `0` otherwise.
- **Validation ladder** (`Page.Validate`): four checks in a fixed order, and the first one that
  fails decides the error toast. A message is blank when JavaScript's `trim` leaves nothing.
  `JsString.Trim` models that function with the real ECMAScript whitespace and line-terminator
  set.
- **Submission controller**: `sendMessage` is asynchronous. It runs to its first `await`, is
  resumed when the wallet settles the send, and is resumed again when the receipt wait
  settles. `Page.Session` holds the form, the `isLoading` flag, where the invocation is
  suspended, and three observable traces: toasts, network calls, and errors written to the
  console. The pure step functions (`SendMessageStart`, `Submitted`, `HashSettled`,
  `ReceiptSettled`, `Step`, `Run`) define each transition. `Page.Consistent` is the invariant
  that every run keeps. `Page.App` is the component as a mutable object: one field per state
  cell and per trace, with imperative methods, each proved to perform its step function and to
  keep `Valid()`.
- **Sender sync effect** (`Page.WithSyncedSender`, `Page.App.SyncSender`): a connected,
  non-empty account address replaces the selected sender.
- **Gas-fee presenter** (`Page.GasFeeDisplay`): the spinner, the amount text and the
  "(likely to fail)" marker, with the 10^14 wei threshold.

The four viem functions (`isAddress`, `toHex`, `parseEther`, `formatEther`) are foreign code.
They are fields of a `Viem.Lib` record, and every definition that uses them takes the record
as a parameter. Every property is therefore proved for all possible implementations of them.
The same holds for `toFixed4`, which stands for `Number.parseFloat(...).toFixed(4)`. The
wallet and the network are inputs of the events:

- the prepared request (`Option<Request>`);
- whether a public client exists;
- how the send settles (`Settled<Hash>`);
- how the receipt wait settles (`Settled<Receipt>`).

Behaviour of the page that is easy to misread:

- The code never validates the tip amount: no rejection checks it, and `parseEther` is
  applied to the amount text during rendering.
- The Send button is disabled only while `isLoading` is true, not when simulation failed.
  Pressing it with a valid form and no prepared request shows no toast at all. It only logs
  "Simulation failed." (`SubmissionWithoutRequest`, `SimulationFailure`).
- Without a public client the receipt wait is skipped (optional chaining), and the attempt
  succeeds as soon as the hash arrives.
- The receipt is never inspected. A resolved receipt wait counts as success even when the
  receipt records a reverted transaction.

## Model

| member | source | states |
|---|---|---|
| `JsString.LeadingTrimmable` | src/app/page.tsx:72 | the count of leading whitespace characters: all characters before it are whitespace, the one at it is not |
| `JsString.TrimStart` | src/app/page.tsx:72 | trimming the start leaves exactly the suffix after the leading whitespace |
| `JsString.TrimEnd` | src/app/page.tsx:72 | trimming the end leaves a prefix; everything after it is whitespace and its last character is not |
| `JsString.Trim` | src/app/page.tsx:72 | `message.trim()` is the slice between leading and trailing whitespace; it neither starts nor ends with whitespace; it is empty iff every character is whitespace |
| `JsString.TrimIdempotent` | src/app/page.tsx:72 | trimming a trimmed string changes nothing |
| `Page.PrepareArgs` | src/app/page.tsx:52-57 | the arguments of `usePrepareTransactionRequest`: `from`, `to`, `toHex(message)` and the tip value; its contract is carried by `TipOffCarriesNoValue`, `TipOnCarriesParsedAmount` and `ArgsFollowForm` |
| `Page.TipOffCarriesNoValue` | src/app/page.tsx:56 | with tip off the request value is 0, whatever the amount text says |
| `Page.TipOnCarriesParsedAmount` | src/app/page.tsx:56 | with tip on the value is `parseEther(amount)` |
| `Page.ArgsFollowForm` | src/app/page.tsx:52-55 | account, to and data are `from`, `to` and `toHex(message)` |
| `Page.WithSyncedSender` | src/app/page.tsx:48-50 | only `from` changes, and only to a present, non-empty address |
| `Page.RejectionText` | src/app/page.tsx:61-73 | the four error-toast texts, one per failing check; used by `Toast.Text` and stated for the empty recipient by `EmptyRecipient` |
| `Page.Validate` | src/app/page.tsx:60-75 | each rejection holds iff its check is the first to fail (no wallet, empty recipient, invalid recipient, all-whitespace message), and the form passes iff both addresses are valid and the message has a non-whitespace character |
| `Page.Toast.Kind` | src/app/page.tsx:61-89 | `toast.error` for validation and failure, the loading and success stages of `toast.promise`; stated for a scenario by `EmptyRecipient` |
| `Page.Toast.Text` | src/app/page.tsx:61-88 | the text of each toast: the rejection text, or the loading, success and error texts of `toast.promise`; stated for a scenario by `EmptyRecipient` |
| `Page.SendMessageStart` | src/app/page.tsx:59-97 | `sendMessage` up to its first `await`: the validation ladder, then the `try` block; its contract is carried by `RejectedSubmission`, `SubmissionWithoutRequest`, `SubmissionWithRequest` and `StartKeepsConsistent` |
| `Page.Submitted` | src/app/page.tsx:77-96 | the `try` block: flag up, then either the send plus loading toast, or the thrown error caught, logged and the flag dropped by `finally`; see `SubmissionWithRequest`, `SubmissionWithoutRequest`, `SubmittedKeepsConsistent` |
| `Page.Finish` | src/app/page.tsx:80-96 | the end of an attempt: the success or error toast of `toast.promise`, the logged error, the `finally` dropping the flag; see `SendSettlement`, `ReceiptSettlement`, `FinishKeepsConsistent` |
| `Page.HashSettled` | src/app/page.tsx:82-83 | resumption after `sendTransactionAsync`: the receipt wait for the hash when a public client exists, otherwise the end of the attempt; see `SendSettlement`, `HashSettledKeepsConsistent` |
| `Page.ReceiptSettled` | src/app/page.tsx:83-96 | resumption after `waitForTransactionReceipt`: the end of the attempt, success whatever the receipt says; see `ReceiptSettlement`, `ReceiptSettledKeepsConsistent` |
| `Page.Step` | src/app/page.tsx:48-97 | one event: a form edit, an account change, a press (ignored while the button is disabled, `disabled={isLoading}` at line 232), or a settlement; see `PressIgnoredWhileLoading`, `StepKeepsConsistent` |
| `Page.Run` | src/app/page.tsx:48-97 | a sequence of events applied in order; see `RunKeepsConsistent`, `EveryRunIsConsistent`, `SuccessfulSend` |
| `Page.RejectedSubmission` | src/app/page.tsx:60-75 | a rejected press appends exactly one error toast for the first failing check, makes no call, logs nothing, leaves `isLoading` false |
| `Page.SubmissionWithoutRequest` | src/app/page.tsx:77-96 | valid form, no prepared request: no toast, no call, "Simulation failed." logged, flag down afterwards |
| `Page.SubmissionWithRequest` | src/app/page.tsx:77-90 | valid form with a request: exactly that request is sent, the loading toast shows, the flag is up while the hash is awaited |
| `Page.PressIgnoredWhileLoading` | src/app/page.tsx:229-235 | while `isLoading` is true a press changes nothing (button disabled) |
| `Page.SendSettlement` | src/app/page.tsx:80-96 | a hash with a public client starts the receipt wait for that hash; otherwise exactly one success or error toast, the rejection logged on error, flag down |
| `Page.ReceiptSettlement` | src/app/page.tsx:83-96 | the receipt wait ends the attempt with exactly one success or error toast, no further call, flag down |
| `Page.InitialConsistent` | src/app/page.tsx:41-46 | the initial state (placeholder sender, empty fields, flag down) satisfies the invariant |
| `Page.RejectionKeepsConsistent` | src/app/page.tsx:60-75 | a validation toast keeps the invariant |
| `Page.SubmittedKeepsConsistent` | src/app/page.tsx:77-96 | the try block's first part keeps the invariant |
| `Page.StartKeepsConsistent` | src/app/page.tsx:59-97 | the synchronous part of `sendMessage` keeps the invariant |
| `Page.FinishKeepsConsistent` | src/app/page.tsx:80-96 | closing an attempt keeps the invariant |
| `Page.HashSettledKeepsConsistent` | src/app/page.tsx:82-83 | the resumption after the send keeps the invariant |
| `Page.ReceiptSettledKeepsConsistent` | src/app/page.tsx:83-96 | the resumption after the receipt keeps the invariant |
| `Page.StepKeepsConsistent` | src/app/page.tsx:48-97 | every event (edit, account change, press, settlement) keeps the invariant |
| `Page.RunKeepsConsistent` | src/app/page.tsx:48-97 | every event sequence keeps the invariant |
| `Page.SettledToastsBalance` | src/app/page.tsx:80-90 | in finished attempts, loading toasts equal success toasts plus send-error toasts |
| `Page.EveryRunIsConsistent` | src/app/page.tsx:59-97 | in every run: loading toasts = success + error toasts + (1 if loading); each send has its own loading toast; each receipt wait directly follows a send; the flag is up iff an invocation is suspended |
| `Page.SuccessfulSend` | src/app/page.tsx:59-97 | valid addresses and "hello", send and receipt succeed: calls are send then wait for that hash, toasts are loading then success, flag down |
| `Page.EmptyRecipient` | src/app/page.tsx:64-67 | an empty recipient yields one "Please enter a to address." toast and no call |
| `Page.Fee` | src/app/page.tsx:214-218 | the fee `maxFeePerGas * gas` in wei; its threshold and display are stated by `FeeAmount` and `GasFeeDisplay` |
| `Page.FeeAmount` | src/app/page.tsx:213-220 | the amount text starts with `-` iff no request, `<` iff the fee is below 10^14 wei, `~` iff it is 10^14 wei or more |
| `Page.GasFeeDisplay` | src/app/page.tsx:204-226 | spinner iff fetching and then no text; otherwise exactly one of " - ETH" (no request), " <0.0001 ETH" (fee < 10^14), " ~…ETH" (fee ≥ 10^14), all ending in " ETH"; "(likely to fail)" iff not fetching and no request |
| `Page.SimulationFailure` | src/app/page.tsx:79-93 | with no request the fee line reads " - ETH" with the marker, and a press makes no call and adds at most the validation toast |
| `Page.App.constructor` | src/app/page.tsx:41-46 | the component starts in the initial state |
| `Page.App.SetFrom` | src/app/page.tsx:111 | the listbox sets `from` and nothing else |
| `Page.App.SetTo` | src/app/page.tsx:155-158 | the recipient input sets `to` and nothing else |
| `Page.App.SetMessage` | src/app/page.tsx:170-173 | the textarea sets `message` and nothing else |
| `Page.App.SetTip` | src/app/page.tsx:178-179 | the checkbox sets `tip` and nothing else |
| `Page.App.SetAmount` | src/app/page.tsx:195-198 | the amount input sets the amount text and nothing else |
| `Page.App.SyncSender` | src/app/page.tsx:48-50 | the effect performs `WithSyncedSender` and keeps the invariant |
| `Page.App.SendMessage` | src/app/page.tsx:59-97 | the imperative ladder and try block perform `SendMessageStart` and keep the invariant |
| `Page.App.ShowRejection` | src/app/page.tsx:60-75 | one error toast is appended and nothing else changes |
| `Page.App.Submit` | src/app/page.tsx:77-96 | performs `Submitted` and keeps the invariant |
| `Page.App.PressSendButton` | src/app/page.tsx:229-235 | a click runs `sendMessage` only when not loading |
| `Page.App.FinishAttempt` | src/app/page.tsx:80-96 | performs `Finish`: the terminal toast, the logged error, flag down |
| `Page.App.OnSendSettled` | src/app/page.tsx:82-83 | performs `HashSettled` and keeps the invariant |
| `Page.App.OnReceiptSettled` | src/app/page.tsx:83-96 | performs `ReceiptSettled` and keeps the invariant |

## Left out

- The bodies of viem's `isAddress`, `toHex`, `parseEther` and `formatEther` are not modelled. They are foreign code (EIP-55 checksums, UTF-8 hex encoding, decimal conversion), kept uninterpreted in the `Lib` record.
- The digits of the `~` amount are not modelled, because `Number.parseFloat(...).toFixed(4)` is floating point. The `toFixed4` parameter stands for it.
- A `parseEther` that throws on a malformed amount is not modelled: the model's `parseEther` is total. In the page such a throw would be a render error, not a `sendMessage` path.
- Preparation of the transaction request is not modelled: refetching on input change, the `isFetching` flag, stale responses. That all belongs to the wallet and query libraries. The prepared request, `isFetching` and the presence of a public client are inputs.
- `Request` carries only `gas` and `maxFeePerGas`, the fields the page reads. The other fields of the prepared request are not modelled. The send call records that request value.
- Network-side behaviour of `sendTransactionAsync` and `waitForTransactionReceipt` is not modelled. Only how they settle is an input.
- react-hot-toast's toast ids, in-place replacement and timing are not modelled. The loading toast's replacement is recorded as a further log entry. The first argument of `console.error` is a constant and is dropped; only the error is logged.
- The relative order of the send call and the loading toast is not captured, because they are in separate traces. In the code the send call is issued first, when the argument of `toast.promise` is evaluated.
- Page.App.SendMessage: requires `!isLoading`. A second concurrent invocation cannot be represented, because the disabled button rules it out.
- Page.App.SetFrom: accepts any string. The listbox offers only the connected addresses, and that list is not modelled.
- The button label ("Sending..." / "Send Message"), the JSX layout, the footer links, the theme toggle (src/components/TopBar.tsx), providers and network configuration (src/app/providers.tsx, src/wagmi.ts, src/app/layout.tsx) and styling (tailwind.config.js) are not modelled. They are presentation or configuration with no logic to state.
- React's batching of state updates is not modelled: `setIsLoading` takes effect immediately.
- JsString.Trim: takes a sequence of Unicode scalar values, while JavaScript strings are UTF-16 code units and may hold lone surrogates; such strings are not representable. A lone surrogate is never whitespace, so `trim` would keep it like any other character.
