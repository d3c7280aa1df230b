/** The send-message form of the IDM page (src/app/page.tsx): the arguments
    derived for the wallet's transaction preparation, the validation ladder
    and the send / receipt / toast sequence of `sendMessage`, the sender
    sync effect, and the gas-fee display.

    `sendMessage` is asynchronous. It runs without interruption up to its
    first `await` and is resumed twice more: once when the wallet settles the
    send (a transaction hash or a rejection), and once when the receipt wait
    settles. The session below records where the invocation is suspended, and
    each resumption is one step function. The class `App` at the end holds
    the same state in fields and updates it step by step; each of its methods
    is proved to agree with the step function it performs. */
module Page {
  import opened Viem
  import opened JsString

  datatype Option<T> = None | Some(value: T)

  /* ---------------------------------------------------------------------
     Form state and the derived transaction request
     --------------------------------------------------------------------- */

  /** The five `useState` cells the input handlers write. `amount` is the
      tip amount text (the source calls it `value`). */
  datatype Form = Form(from: string, to: string, message: string, tip: bool, amount: string)

  /** What `from` holds before a wallet address is known. */
  const SenderPlaceholder: string := "Select a wallet"

  const InitialForm: Form := Form(SenderPlaceholder, "", "", false, "")

  /** The arguments handed to `usePrepareTransactionRequest`. */
  datatype TxArgs = TxArgs(account: string, to: string, data: Hex, value: int)

  /** The request derivation: sender, recipient and hex-encoded message are
      passed through, and the value is the parsed tip amount only when the
      tip box is ticked. */
  function PrepareArgs(lib: Lib, f: Form): TxArgs
  {
    TxArgs(f.from, f.to, lib.toHex(f.message), if f.tip then lib.parseEther(f.amount) else 0)
  }

  /** With the tip box off, the request carries no value, and the amount
      text has no influence on the request at all. */
  lemma TipOffCarriesNoValue(lib: Lib, f: Form, otherAmount: string)
    requires !f.tip
    ensures PrepareArgs(lib, f).value == 0
    ensures PrepareArgs(lib, f.(amount := otherAmount)) == PrepareArgs(lib, f)
  {
  }

  /** With the tip box on, the value is the amount text parsed as ether. */
  lemma TipOnCarriesParsedAmount(lib: Lib, f: Form)
    requires f.tip
    ensures PrepareArgs(lib, f).value == lib.parseEther(f.amount)
  {
  }

  /** Account, recipient and data come straight from the form. */
  lemma ArgsFollowForm(lib: Lib, f: Form)
    ensures var args := PrepareArgs(lib, f);
      args.account == f.from && args.to == f.to && args.data == lib.toHex(f.message)
  {
  }

  /** The sender sync effect: a connected, non-empty account address becomes
      the selected sender; otherwise the selection stays. */
  function WithSyncedSender(f: Form, address: Option<string>): (g: Form)
    ensures g.(from := f.from) == f
    ensures g.from == (if address.Some? && address.value != "" then address.value else f.from)
  {
    if address.Some? && address.value != "" then f.(from := address.value) else f
  }

  /* ---------------------------------------------------------------------
     Validation ladder
     --------------------------------------------------------------------- */

  datatype Rejection = NoWallet | NoRecipient | InvalidRecipient | EmptyMessage

  function RejectionText(r: Rejection): string
  {
    match r
    case NoWallet => "Please select a wallet."
    case NoRecipient => "Please enter a to address."
    case InvalidRecipient => "Please enter a valid to address."
    case EmptyMessage => "Please enter a message."
  }

  /** The checks at the top of `sendMessage`, in order; the first one that
      fails decides the rejection. A message is blank, and rejected, exactly
      when every one of its characters is JavaScript whitespace. */
  function Validate(lib: Lib, f: Form): (r: Option<Rejection>)
    ensures r == Some(NoWallet) <==> f.from == "" || !lib.isAddress(f.from)
    ensures r == Some(NoRecipient) <==> f.from != "" && lib.isAddress(f.from) && f.to == ""
    ensures r == Some(InvalidRecipient) <==>
      f.from != "" && lib.isAddress(f.from) && f.to != "" && !lib.isAddress(f.to)
    ensures r == Some(EmptyMessage) <==>
      f.from != "" && lib.isAddress(f.from) && f.to != "" && lib.isAddress(f.to)
      && forall i :: 0 <= i < |f.message| ==> IsTrimmable(f.message[i])
    ensures r == None <==>
      f.from != "" && lib.isAddress(f.from) && f.to != "" && lib.isAddress(f.to)
      && exists i :: 0 <= i < |f.message| && !IsTrimmable(f.message[i])
  {
    if f.from == "" || !lib.isAddress(f.from) then Some(NoWallet)
    else if f.to == "" then Some(NoRecipient)
    else if !lib.isAddress(f.to) then Some(InvalidRecipient)
    else if Trim(f.message) == "" then Some(EmptyMessage)
    else None
  }

  /* ---------------------------------------------------------------------
     Notifications, network calls and the session
     --------------------------------------------------------------------- */

  datatype ToastKind = ErrorToast | LoadingToast | SuccessToast

  /** One notification shown by react-hot-toast: a validation error, or one
      of the three stages of `toast.promise`. The loading toast is later
      replaced in place by its success or error toast; here the replacement
      is recorded as a further entry. */
  datatype Toast = Invalid(reason: Rejection) | Sending | Sent | SendFailed
  {
    function Kind(): ToastKind
    {
      match this
      case Invalid(_) => ErrorToast
      case Sending => LoadingToast
      case Sent => SuccessToast
      case SendFailed => ErrorToast
    }

    function Text(): string
    {
      match this
      case Invalid(r) => RejectionText(r)
      case Sending => "Sending message..."
      case Sent => "Message sent successfully!"
      case SendFailed => "Failed to send message."
    }
  }

  /** The fields of the prepared request the page reads. */
  datatype Request = Request(gas: nat, maxFeePerGas: nat)

  type Hash = Hex

  /** A transaction receipt; the page never looks inside it. */
  datatype Receipt = Receipt(reverted: bool)

  /** The two network calls `sendMessage` makes. */
  datatype Call = SendTransaction(request: Request) | WaitForReceipt(hash: Hash)

  /** How a promise the page awaits settles. */
  datatype Settled<T> = Resolved(value: T) | Rejected(reason: string)

  /** Where the running `sendMessage`, if any, is suspended. The presence of
      a public client is captured when the invocation starts. */
  datatype Suspension = Idle | AwaitingHash(hasPublicClient: bool) | AwaitingReceipt(hash: Hash)

  /** The error thrown, caught and logged when no prepared request exists. */
  const SimulationFailed: string := "Simulation failed."

  /** The page's state: the form, the loading flag, the suspended
      invocation, and the observable traces (toasts, network calls, and
      the errors written by `console.error`). */
  datatype Session = Session(
    form: Form,
    isLoading: bool,
    suspension: Suspension,
    toasts: seq<Toast>,
    calls: seq<Call>,
    errors: seq<string>)

  const InitialSession: Session := Session(InitialForm, false, Idle, [], [], [])

  /** `sendMessage` up to its first suspension. A rejected form shows one
      error toast and nothing else happens. */
  function SendMessageStart(lib: Lib, s: Session, txRequest: Option<Request>, hasPublicClient: bool): Session
  {
    match Validate(lib, s.form)
    case Some(r) => s.(toasts := s.toasts + [Invalid(r)])
    case None => Submitted(s, txRequest, hasPublicClient)
  }

  /** The `try` block of `sendMessage`, entered with a valid form. The flag
      goes up; without a prepared request the thrown error is logged and
      `finally` drops the flag at once; with one, the send is issued, the
      loading toast shown, and the invocation waits for the hash. */
  function Submitted(s: Session, txRequest: Option<Request>, hasPublicClient: bool): Session
  {
    match txRequest
    case None => s.(isLoading := false, errors := s.errors + [SimulationFailed])
    case Some(req) =>
      s.(isLoading := true, suspension := AwaitingHash(hasPublicClient),
         calls := s.calls + [SendTransaction(req)], toasts := s.toasts + [Sending])
  }

  /** The end of an attempt that got past validation: the promise's success
      or error toast, the logged error on failure, and the `finally` that
      drops the loading flag. */
  function Finish(s: Session, outcome: Settled<()>): Session
  {
    match outcome
    case Resolved(_) => s.(isLoading := false, suspension := Idle, toasts := s.toasts + [Sent])
    case Rejected(reason) =>
      s.(isLoading := false, suspension := Idle, toasts := s.toasts + [SendFailed],
         errors := s.errors + [reason])
  }

  /** Resumption after the wallet settles the send. A hash leads to the
      receipt wait when a public client exists; without one the optional
      call yields nothing and the attempt succeeds. */
  function HashSettled(s: Session, outcome: Settled<Hash>): Session
    requires s.suspension.AwaitingHash?
  {
    match outcome
    case Rejected(reason) => Finish(s, Rejected(reason))
    case Resolved(hash) =>
      if s.suspension.hasPublicClient then
        s.(suspension := AwaitingReceipt(hash), calls := s.calls + [WaitForReceipt(hash)])
      else
        Finish(s, Resolved(()))
  }

  /** Resumption after the receipt wait settles. Any receipt, reverted or
      not, counts as success. */
  function ReceiptSettled(s: Session, outcome: Settled<Receipt>): Session
    requires s.suspension.AwaitingReceipt?
  {
    match outcome
    case Rejected(reason) => Finish(s, Rejected(reason))
    case Resolved(_) => Finish(s, Resolved(()))
  }

  /** Everything that can happen to the page. A settlement only arrives for
      a pending await, so one that does not match the suspension is ignored. */
  datatype Event =
    | EditForm(form: Form)
    | ConnectAccount(address: Option<string>)
    | PressSend(txRequest: Option<Request>, hasPublicClient: bool)
    | SendSettles(hashOutcome: Settled<Hash>)
    | ReceiptSettles(receiptOutcome: Settled<Receipt>)

  function Step(lib: Lib, s: Session, e: Event): Session
  {
    match e
    case EditForm(f) => s.(form := f)
    case ConnectAccount(address) => s.(form := WithSyncedSender(s.form, address))
    case PressSend(txRequest, hasPublicClient) =>
      // The Send button is disabled while the flag is up.
      if s.isLoading then s else SendMessageStart(lib, s, txRequest, hasPublicClient)
    case SendSettles(outcome) =>
      if s.suspension.AwaitingHash? then HashSettled(s, outcome) else s
    case ReceiptSettles(outcome) =>
      if s.suspension.AwaitingReceipt? then ReceiptSettled(s, outcome) else s
  }

  function Run(lib: Lib, s: Session, events: seq<Event>): Session
    decreases |events|
  {
    if events == [] then s else Run(lib, Step(lib, s, events[0]), events[1..])
  }

  /* ---------------------------------------------------------------------
     What each step does
     --------------------------------------------------------------------- */

  /** A rejected submission shows exactly the error toast of the first
      failing check, makes no network call, logs nothing and leaves the
      loading flag down. */
  lemma RejectedSubmission(lib: Lib, s: Session, txRequest: Option<Request>, hasPublicClient: bool, r: Rejection)
    requires !s.isLoading && Validate(lib, s.form) == Some(r)
    ensures var s' := Step(lib, s, PressSend(txRequest, hasPublicClient));
      s'.toasts == s.toasts + [Invalid(r)] && Invalid(r).Kind() == ErrorToast
      && s'.calls == s.calls && s'.errors == s.errors
      && !s'.isLoading && s'.suspension == s.suspension && s'.form == s.form
  {
  }

  /** A valid submission without a prepared request makes no call, shows no
      toast, logs "Simulation failed." and ends with the flag down. */
  lemma SubmissionWithoutRequest(lib: Lib, s: Session, hasPublicClient: bool)
    requires !s.isLoading && Validate(lib, s.form) == None
    ensures var s' := Step(lib, s, PressSend(None, hasPublicClient));
      s'.toasts == s.toasts && s'.calls == s.calls && s'.errors == s.errors + [SimulationFailed]
      && !s'.isLoading && s'.suspension == s.suspension
  {
  }

  /** A valid submission with a prepared request sends exactly that request,
      shows the loading toast and waits for the hash with the flag up. */
  lemma SubmissionWithRequest(lib: Lib, s: Session, req: Request, hasPublicClient: bool)
    requires !s.isLoading && Validate(lib, s.form) == None
    ensures var s' := Step(lib, s, PressSend(Some(req), hasPublicClient));
      s'.calls == s.calls + [SendTransaction(req)] && s'.toasts == s.toasts + [Sending]
      && s'.errors == s.errors && s'.isLoading && s'.suspension == AwaitingHash(hasPublicClient)
  {
  }

  /** While the flag is up, the disabled Send button starts nothing. */
  lemma PressIgnoredWhileLoading(lib: Lib, s: Session, txRequest: Option<Request>, hasPublicClient: bool)
    requires s.isLoading
    ensures Step(lib, s, PressSend(txRequest, hasPublicClient)) == s
  {
  }

  /** A send that settles either ends the attempt with one success or one
      error toast and the flag down, or, given a hash and a public client,
      starts the receipt wait for that very hash. */
  lemma SendSettlement(s: Session, outcome: Settled<Hash>)
    requires s.suspension.AwaitingHash?
    ensures var s' := HashSettled(s, outcome);
      if outcome.Resolved? && s.suspension.hasPublicClient then
        s'.calls == s.calls + [WaitForReceipt(outcome.value)] && s'.toasts == s.toasts
        && s'.suspension == AwaitingReceipt(outcome.value) && s'.isLoading == s.isLoading
      else
        s'.calls == s.calls && !s'.isLoading && s'.suspension == Idle
        && s'.toasts == s.toasts + [if outcome.Resolved? then Sent else SendFailed]
        && s'.errors == s.errors + (if outcome.Resolved? then [] else [outcome.reason])
  {
  }

  /** The receipt wait ends the attempt: one success or one error toast,
      no further call, and the flag down. */
  lemma ReceiptSettlement(s: Session, outcome: Settled<Receipt>)
    requires s.suspension.AwaitingReceipt?
    ensures var s' := ReceiptSettled(s, outcome);
      s'.calls == s.calls && !s'.isLoading && s'.suspension == Idle
      && s'.toasts == s.toasts + [if outcome.Resolved? then Sent else SendFailed]
      && s'.errors == s.errors + (if outcome.Resolved? then [] else [outcome.reason])
  {
  }

  /* ---------------------------------------------------------------------
     Invariants of every run
     --------------------------------------------------------------------- */

  /** The toasts of finished attempts, read from the end: each attempt left
      one validation toast, nothing at all (no prepared request), or the
      loading toast followed by exactly one success or error toast. */
  predicate AttemptsSettled(t: seq<Toast>)
    decreases |t|
  {
    if t == [] then true
    else if t[|t| - 1].Invalid? then AttemptsSettled(t[..|t| - 1])
    else
      |t| >= 2 && t[|t| - 2] == Sending
      && (t[|t| - 1] == Sent || t[|t| - 1] == SendFailed)
      && AttemptsSettled(t[..|t| - 2])
  }

  /** Every receipt wait comes right after a send. */
  predicate ReceiptWaitFollowsSend(c: seq<Call>)
  {
    forall i :: 0 <= i < |c| && c[i].WaitForReceipt? ==> 0 < i && c[i - 1].SendTransaction?
  }

  function SendCount(c: seq<Call>): nat
    decreases |c|
  {
    if c == [] then 0
    else SendCount(c[..|c| - 1]) + (if c[|c| - 1].SendTransaction? then 1 else 0)
  }

  /** What holds of the page at every moment: the loading flag is up exactly
      while an invocation is suspended; the toasts are settled attempts,
      followed by one open loading toast while the flag is up; each send
      has its own loading toast; and the last call is the one being waited
      for. */
  predicate Consistent(s: Session)
  {
    (s.isLoading <==> !s.suspension.Idle?)
    && (if s.isLoading then
          |s.toasts| > 0 && s.toasts[|s.toasts| - 1] == Sending
          && AttemptsSettled(s.toasts[..|s.toasts| - 1])
        else AttemptsSettled(s.toasts))
    && ReceiptWaitFollowsSend(s.calls)
    && SendCount(s.calls) == multiset(s.toasts)[Sending]
    && (s.suspension.AwaitingHash? ==>
          |s.calls| > 0 && s.calls[|s.calls| - 1].SendTransaction?)
    && (s.suspension.AwaitingReceipt? ==>
          |s.calls| > 0 && s.calls[|s.calls| - 1] == WaitForReceipt(s.suspension.hash))
  }

  lemma InitialConsistent()
    ensures Consistent(InitialSession)
  {
  }

  lemma AppendToast(t: seq<Toast>, x: Toast)
    ensures (t + [x])[..|t|] == t
    ensures multiset(t + [x])[Sending] == multiset(t)[Sending] + (if x == Sending then 1 else 0)
  {
    assert (t + [x])[..|t|] == t;
  }

  lemma AppendCall(c: seq<Call>, x: Call)
    requires ReceiptWaitFollowsSend(c)
    requires x.WaitForReceipt? ==> |c| > 0 && c[|c| - 1].SendTransaction?
    ensures ReceiptWaitFollowsSend(c + [x])
    ensures SendCount(c + [x]) == SendCount(c) + (if x.SendTransaction? then 1 else 0)
  {
    assert (c + [x])[..|c|] == c;
  }

  /** Closing the open loading toast with a success or error toast leaves
      only settled attempts. */
  lemma CloseAttempt(t: seq<Toast>, x: Toast)
    requires |t| > 0 && t[|t| - 1] == Sending && AttemptsSettled(t[..|t| - 1])
    requires x == Sent || x == SendFailed
    ensures AttemptsSettled(t + [x])
    ensures multiset(t + [x])[Sending] == multiset(t)[Sending]
  {
    var u := t + [x];
    assert u[..|u| - 1] == t;
    assert u[..|u| - 2] == t[..|t| - 1];
  }

  lemma RejectionKeepsConsistent(s: Session, r: Rejection)
    requires Consistent(s) && !s.isLoading
    ensures Consistent(s.(toasts := s.toasts + [Invalid(r)]))
  {
    AppendToast(s.toasts, Invalid(r));
  }

  lemma SubmittedKeepsConsistent(s: Session, txRequest: Option<Request>, hasPublicClient: bool)
    requires Consistent(s) && !s.isLoading
    ensures Consistent(Submitted(s, txRequest, hasPublicClient))
  {
    if txRequest.Some? {
      AppendToast(s.toasts, Sending);
      AppendCall(s.calls, SendTransaction(txRequest.value));
    }
  }

  lemma StartKeepsConsistent(lib: Lib, s: Session, txRequest: Option<Request>, hasPublicClient: bool)
    requires Consistent(s) && !s.isLoading
    ensures Consistent(SendMessageStart(lib, s, txRequest, hasPublicClient))
  {
    match Validate(lib, s.form)
    case Some(r) => RejectionKeepsConsistent(s, r);
    case None => SubmittedKeepsConsistent(s, txRequest, hasPublicClient);
  }

  lemma FinishKeepsConsistent(s: Session, outcome: Settled<()>)
    requires Consistent(s) && s.isLoading
    ensures Consistent(Finish(s, outcome))
  {
    CloseAttempt(s.toasts, if outcome.Resolved? then Sent else SendFailed);
  }

  lemma HashSettledKeepsConsistent(s: Session, outcome: Settled<Hash>)
    requires Consistent(s) && s.suspension.AwaitingHash?
    ensures Consistent(HashSettled(s, outcome))
  {
    match outcome
    case Rejected(reason) => FinishKeepsConsistent(s, Rejected(reason));
    case Resolved(hash) =>
      if s.suspension.hasPublicClient {
        AppendCall(s.calls, WaitForReceipt(hash));
      } else {
        FinishKeepsConsistent(s, Resolved(()));
      }
  }

  lemma ReceiptSettledKeepsConsistent(s: Session, outcome: Settled<Receipt>)
    requires Consistent(s) && s.suspension.AwaitingReceipt?
    ensures Consistent(ReceiptSettled(s, outcome))
  {
    match outcome
    case Rejected(reason) => FinishKeepsConsistent(s, Rejected(reason));
    case Resolved(_) => FinishKeepsConsistent(s, Resolved(()));
  }

  lemma StepKeepsConsistent(lib: Lib, s: Session, e: Event)
    requires Consistent(s)
    ensures Consistent(Step(lib, s, e))
  {
    match e
    case EditForm(_) =>
    case ConnectAccount(_) =>
    case PressSend(txRequest, hasPublicClient) =>
      if !s.isLoading { StartKeepsConsistent(lib, s, txRequest, hasPublicClient); }
    case SendSettles(outcome) =>
      if s.suspension.AwaitingHash? { HashSettledKeepsConsistent(s, outcome); }
    case ReceiptSettles(outcome) =>
      if s.suspension.AwaitingReceipt? { ReceiptSettledKeepsConsistent(s, outcome); }
  }

  lemma {:induction false} RunKeepsConsistent(lib: Lib, s: Session, events: seq<Event>)
    requires Consistent(s)
    ensures Consistent(Run(lib, s, events))
    decreases |events|
  {
    if events != [] {
      StepKeepsConsistent(lib, s, events[0]);
      RunKeepsConsistent(lib, Step(lib, s, events[0]), events[1..]);
    }
  }

  lemma BalanceAppend(p: seq<Toast>, u: seq<Toast>)
    requires multiset(p)[Sending] == multiset(p)[Sent] + multiset(p)[SendFailed]
    requires multiset(u)[Sending] == multiset(u)[Sent] + multiset(u)[SendFailed]
    ensures multiset(p + u)[Sending] == multiset(p + u)[Sent] + multiset(p + u)[SendFailed]
  {
    assert multiset(p + u) == multiset(p) + multiset(u);
  }

  /** Where the last of a non-empty list of settled attempts starts. The
      attempts before it are settled, and it is balanced on its own. */
  function LastAttemptStart(t: seq<Toast>): (k: nat)
    requires t != [] && AttemptsSettled(t)
    ensures k < |t| && AttemptsSettled(t[..k])
    ensures multiset(t[k..])[Sending] == multiset(t[k..])[Sent] + multiset(t[k..])[SendFailed]
  {
    var n := |t|;
    if t[n - 1].Invalid? then
      assert t[n - 1..] == [t[n - 1]];
      n - 1
    else
      assert t[n - 2..] == [Sending, t[n - 1]];
      n - 2
  }

  /** In settled attempts every loading toast was closed by exactly one
      success or error toast. */
  lemma {:induction false} SettledToastsBalance(t: seq<Toast>)
    requires AttemptsSettled(t)
    ensures multiset(t)[Sending] == multiset(t)[Sent] + multiset(t)[SendFailed]
    decreases |t|
  {
    if t != [] {
      var k := LastAttemptStart(t);
      SettledToastsBalance(t[..k]);
      assert t == t[..k] + t[k..];
      BalanceAppend(t[..k], t[k..]);
    }
  }

  /** Whatever happens from the start: at most one attempt is in flight (it
      is the one open loading toast, present exactly while the flag is up);
      every other loading toast was followed by one success or one error
      toast; every send has its loading toast; every receipt wait follows a
      send; and the flag is down whenever no invocation is suspended. */
  lemma EveryRunIsConsistent(lib: Lib, events: seq<Event>)
    ensures var s := Run(lib, InitialSession, events);
      multiset(s.toasts)[Sending]
        == multiset(s.toasts)[Sent] + multiset(s.toasts)[SendFailed] + (if s.isLoading then 1 else 0)
      && SendCount(s.calls) == multiset(s.toasts)[Sending]
      && ReceiptWaitFollowsSend(s.calls)
      && (s.isLoading <==> !s.suspension.Idle?)
  {
    InitialConsistent();
    RunKeepsConsistent(lib, InitialSession, events);
    var s := Run(lib, InitialSession, events);
    if s.isLoading {
      var open := s.toasts[..|s.toasts| - 1];
      SettledToastsBalance(open);
      assert s.toasts == open + [Sending];
    } else {
      SettledToastsBalance(s.toasts);
    }
  }

  /* ---------------------------------------------------------------------
     End-to-end scenarios
     --------------------------------------------------------------------- */

  /** Valid addresses, message "hello", tip off, a prepared request, a
      public client, and a send and receipt that both succeed: the page
      sends the request, waits for the receipt of the returned hash, and
      ends idle with the loading toast followed by one success toast. */
  lemma SuccessfulSend(lib: Lib, from: string, to: string, req: Request, hash: Hash, receipt: Receipt)
    requires from != "" && lib.isAddress(from) && to != "" && lib.isAddress(to)
    ensures var s0 := InitialSession.(form := Form(from, to, "hello", false, ""));
      var s1 := Step(lib, s0, PressSend(Some(req), true));
      var s2 := Step(lib, s1, SendSettles(Resolved(hash)));
      var s3 := Step(lib, s2, ReceiptSettles(Resolved(receipt)));
      s3.calls == [SendTransaction(req), WaitForReceipt(hash)]
      && s3.toasts == [Sending, Sent] && s3.errors == []
      && !s3.isLoading && s3.suspension == Idle
  {
    var f := Form(from, to, "hello", false, "");
    assert !IsTrimmable(f.message[0]);
    assert Validate(lib, f) == None;
    var s0 := InitialSession.(form := f);
    var s1 := Step(lib, s0, PressSend(Some(req), true));
    assert s1 == s0.(isLoading := true, suspension := AwaitingHash(true),
                     calls := [SendTransaction(req)], toasts := [Sending]);
    var s2 := Step(lib, s1, SendSettles(Resolved(hash)));
    assert s2 == s1.(suspension := AwaitingReceipt(hash),
                     calls := [SendTransaction(req), WaitForReceipt(hash)]);
  }

  /** An empty recipient: one "Please enter a to address." toast and no
      network call, whatever the prepared request and client are. */
  lemma EmptyRecipient(lib: Lib, from: string, message: string, txRequest: Option<Request>, hasPublicClient: bool)
    requires from != "" && lib.isAddress(from)
    ensures var s := Step(lib, InitialSession.(form := Form(from, "", message, false, "")),
                          PressSend(txRequest, hasPublicClient));
      s.calls == [] && s.toasts == [Invalid(NoRecipient)]
      && s.toasts[0].Kind() == ErrorToast && s.toasts[0].Text() == "Please enter a to address." && !s.isLoading
  {
  }

  /* ---------------------------------------------------------------------
     Gas-fee display
     --------------------------------------------------------------------- */

  /** 10^14 wei, that is 0.0001 ether: fees below it show as "<0.0001". */
  const NegligibleFee: nat := 100_000_000_000_000

  function Fee(req: Request): nat
  {
    req.maxFeePerGas * req.gas
  }

  /** The three fragments of the gas-fee line: the spinner, the amount text
      and the "(likely to fail)" marker. */
  datatype FeeDisplay = FeeDisplay(spinner: bool, text: Option<string>, likelyToFail: bool)

  predicate EndsWith(s: string, suffix: string)
  {
    |suffix| <= |s| && s[|s| - |suffix|..] == suffix
  }

  /** The text between the leading space and " ETH" on the gas-fee line. */
  function FeeAmount(lib: Lib, toFixed4: string -> string, txRequest: Option<Request>): (a: string)
    ensures |a| >= 1
    ensures a[0] == '-' <==> txRequest.None?
    ensures a[0] == '<' <==> txRequest.Some? && Fee(txRequest.value) < NegligibleFee
    ensures a[0] == '~' <==> txRequest.Some? && Fee(txRequest.value) >= NegligibleFee
  {
    match txRequest
    case Some(req) =>
      if Fee(req) < NegligibleFee then "<0.0001"
      else "~" + toFixed4(lib.formatEther(Fee(req)))
    case None => "-"
  }

  /** The gas-fee line. `toFixed4` stands for `Number.parseFloat(...).toFixed(4)`
      applied to the ether string. While the request is being prepared only
      the spinner shows. Otherwise exactly one of three texts shows, each
      starting with a space and ending in " ETH": "-" with the
      "(likely to fail)" marker when there is no request, "<0.0001" when the
      fee is below 10^14 wei, and a "~" amount from 10^14 wei on. */
  function GasFeeDisplay(lib: Lib, toFixed4: string -> string, isFetching: bool, txRequest: Option<Request>): (d: FeeDisplay)
    ensures d.spinner == isFetching
    ensures d.text.None? == isFetching
    ensures d.likelyToFail == (!isFetching && txRequest.None?)
    ensures d.text.Some? ==> |d.text.value| >= 2 && d.text.value[0] == ' ' && EndsWith(d.text.value, " ETH")
    ensures d.text == Some(" - ETH") <==> !isFetching && txRequest.None?
    ensures d.text == Some(" <0.0001 ETH") <==>
      !isFetching && txRequest.Some? && Fee(txRequest.value) < NegligibleFee
    ensures (d.text.Some? && d.text.value[1] == '~') <==>
      !isFetching && txRequest.Some? && Fee(txRequest.value) >= NegligibleFee
    ensures !isFetching && txRequest.Some? && Fee(txRequest.value) >= NegligibleFee ==>
      d.text == Some(" ~" + toFixed4(lib.formatEther(Fee(txRequest.value))) + " ETH")
  {
    if isFetching then FeeDisplay(true, None, false)
    else
      var amount := FeeAmount(lib, toFixed4, txRequest);
      var text := " " + amount + " ETH";
      assert text[1] == amount[0];
      assert text[|text| - 4..] == " ETH";
      assert " - ETH"[1] == '-' && " <0.0001 ETH"[1] == '<';
      assert txRequest.None? ==> text == " - ETH";
      assert txRequest.Some? && Fee(txRequest.value) < NegligibleFee ==> text == " <0.0001 ETH";
      assert txRequest.Some? && Fee(txRequest.value) >= NegligibleFee ==>
        text == " ~" + toFixed4(lib.formatEther(Fee(txRequest.value))) + " ETH";
      FeeDisplay(false, Some(text), txRequest.None?)
  }

  /** A failed simulation: the fee line reads " - ETH (likely to fail)" and
      pressing Send makes no network call and shows no toast. */
  lemma SimulationFailure(lib: Lib, toFixed4: string -> string, s: Session, hasPublicClient: bool)
    requires !s.isLoading
    ensures GasFeeDisplay(lib, toFixed4, false, None) == FeeDisplay(false, Some(" - ETH"), true)
    ensures var s' := Step(lib, s, PressSend(None, hasPublicClient));
      s'.calls == s.calls && s'.toasts == s.toasts + (if Validate(lib, s.form).Some? then [Invalid(Validate(lib, s.form).value)] else [])
  {
  }

  /* ---------------------------------------------------------------------
     The page as a mutable object
     --------------------------------------------------------------------- */

  /** The component's state cells and the traces of what it did, updated in
      place by the handlers below. */
  class App {
    var from: string
    var to: string
    var message: string
    var tip: bool
    var amount: string
    var isLoading: bool
    var suspension: Suspension
    var toasts: seq<Toast>
    var calls: seq<Call>
    var errors: seq<string>

    function Snapshot(): Session
      reads this
    {
      Session(Form(from, to, message, tip, amount), isLoading, suspension, toasts, calls, errors)
    }

    ghost predicate Valid()
      reads this
    {
      Consistent(Snapshot())
    }

    constructor ()
      ensures Valid() && Snapshot() == InitialSession
    {
      from, to, message, tip, amount := SenderPlaceholder, "", "", false, "";
      isLoading, suspension := false, Idle;
      toasts, calls, errors := [], [], [];
    }

    /** The Listbox's `onChange`. */
    method SetFrom(v: string)
      requires Valid()
      modifies this
      ensures Valid() && Snapshot() == old(Snapshot()).(form := old(Snapshot()).form.(from := v))
    {
      from := v;
    }

    /** The recipient input's `onChange`. */
    method SetTo(v: string)
      requires Valid()
      modifies this
      ensures Valid() && Snapshot() == old(Snapshot()).(form := old(Snapshot()).form.(to := v))
    {
      to := v;
    }

    /** The message textarea's `onChange`. */
    method SetMessage(v: string)
      requires Valid()
      modifies this
      ensures Valid() && Snapshot() == old(Snapshot()).(form := old(Snapshot()).form.(message := v))
    {
      message := v;
    }

    /** The tip checkbox's `onChange`. */
    method SetTip(v: bool)
      requires Valid()
      modifies this
      ensures Valid() && Snapshot() == old(Snapshot()).(form := old(Snapshot()).form.(tip := v))
    {
      tip := v;
    }

    /** The amount input's `onChange`. */
    method SetAmount(v: string)
      requires Valid()
      modifies this
      ensures Valid() && Snapshot() == old(Snapshot()).(form := old(Snapshot()).form.(amount := v))
    {
      amount := v;
    }

    /** The effect that runs when the connected account changes. */
    method SyncSender(address: Option<string>)
      requires Valid()
      modifies this
      ensures Valid() && Snapshot() == old(Snapshot()).(form := WithSyncedSender(old(Snapshot()).form, address))
    {
      if address.Some? && address.value != "" {
        from := address.value;
      }
    }

    /** `sendMessage` up to its first suspension. Its only caller is the Send
        button, which is disabled while the flag is up. */
    method SendMessage(lib: Lib, txRequest: Option<Request>, hasPublicClient: bool)
      requires Valid() && !isLoading
      modifies this
      ensures Snapshot() == SendMessageStart(lib, old(Snapshot()), txRequest, hasPublicClient)
      ensures Valid()
    {
      ghost var verdict := Validate(lib, Snapshot().form);
      if from == "" || !lib.isAddress(from) {
        assert verdict == Some(NoWallet);
        ShowRejection(NoWallet);
        return;
      }
      if to == "" {
        assert verdict == Some(NoRecipient);
        ShowRejection(NoRecipient);
        return;
      }
      if !lib.isAddress(to) {
        assert verdict == Some(InvalidRecipient);
        ShowRejection(InvalidRecipient);
        return;
      }
      if Trim(message) == "" {
        assert verdict == Some(EmptyMessage);
        ShowRejection(EmptyMessage);
        return;
      }
      assert verdict == None;
      Submit(txRequest, hasPublicClient);
    }

    /** `toast.error(...)` followed by `return`. */
    method ShowRejection(r: Rejection)
      requires Valid() && !isLoading
      modifies this
      ensures Snapshot() == old(Snapshot()).(toasts := old(toasts) + [Invalid(r)])
      ensures Valid()
    {
      ghost var after := Snapshot().(toasts := toasts + [Invalid(r)]);
      RejectionKeepsConsistent(Snapshot(), r);
      toasts := toasts + [Invalid(r)];
      assert Snapshot() == after;
    }

    /** The `try` / `catch` / `finally` part of `sendMessage`, entered once
        the form is valid. */
    method Submit(txRequest: Option<Request>, hasPublicClient: bool)
      requires Valid() && !isLoading
      modifies this
      ensures Snapshot() == Submitted(old(Snapshot()), txRequest, hasPublicClient)
      ensures Valid()
    {
      ghost var after := Submitted(Snapshot(), txRequest, hasPublicClient);
      SubmittedKeepsConsistent(Snapshot(), txRequest, hasPublicClient);
      isLoading := true;
      if txRequest.Some? {
        calls := calls + [SendTransaction(txRequest.value)];
        toasts := toasts + [Sending];
        suspension := AwaitingHash(hasPublicClient);
        assert Snapshot() == after;
        return;
      }
      // No prepared request: the thrown error is caught and logged, and
      // `finally` drops the flag.
      errors := errors + [SimulationFailed];
      isLoading := false;
      assert Snapshot() == after;
    }

    /** A click on the Send button. */
    method PressSendButton(lib: Lib, txRequest: Option<Request>, hasPublicClient: bool)
      requires Valid()
      modifies this
      ensures Snapshot() == Step(lib, old(Snapshot()), PressSend(txRequest, hasPublicClient))
      ensures Valid()
    {
      if !isLoading {
        SendMessage(lib, txRequest, hasPublicClient);
      }
    }

    /** Common tail of an attempt past validation: the promise's toast, the
        logged error, and the `finally`. */
    method FinishAttempt(outcome: Settled<()>)
      requires Valid() && isLoading
      modifies this
      ensures Snapshot() == Finish(old(Snapshot()), outcome)
      ensures Valid()
    {
      ghost var after := Finish(Snapshot(), outcome);
      FinishKeepsConsistent(Snapshot(), outcome);
      if outcome.Resolved? {
        toasts := toasts + [Sent];
      } else {
        toasts := toasts + [SendFailed];
        errors := errors + [outcome.reason];
      }
      isLoading, suspension := false, Idle;
      assert Snapshot() == after;
    }

    /** `sendMessage` resumed when the wallet settles the send. */
    method OnSendSettled(outcome: Settled<Hash>)
      requires Valid() && suspension.AwaitingHash?
      modifies this
      ensures Snapshot() == HashSettled(old(Snapshot()), outcome)
      ensures Valid()
    {
      HashSettledKeepsConsistent(Snapshot(), outcome);
      if outcome.Rejected? {
        FinishAttempt(Rejected(outcome.reason));
      } else if suspension.hasPublicClient {
        ghost var after := HashSettled(Snapshot(), outcome);
        calls := calls + [WaitForReceipt(outcome.value)];
        suspension := AwaitingReceipt(outcome.value);
        assert Snapshot() == after;
      } else {
        FinishAttempt(Resolved(()));
      }
    }

    /** `sendMessage` resumed when the receipt wait settles. */
    method OnReceiptSettled(outcome: Settled<Receipt>)
      requires Valid() && suspension.AwaitingReceipt?
      modifies this
      ensures Snapshot() == ReceiptSettled(old(Snapshot()), outcome)
      ensures Valid()
    {
      if outcome.Rejected? {
        FinishAttempt(Rejected(outcome.reason));
      } else {
        FinishAttempt(Resolved(()));
      }
    }
  }
}
