/**
 * One run of `avaxToEth` or `ethToAvax`: Circle's CCTP burn-and-mint transfer of USDC
 * between the Avalanche Fuji and Ethereum Goerli test networks. The run approves the token
 * messenger, burns with `depositForBurn`, takes the message bytes from the burn receipt's
 * `MessageSent(bytes)` log, polls the attestation service for the signature, and calls
 * `receiveMessage` on the destination chain, starting and completing one step of the progress
 * record around each. Any throw ends the run, leaving the current step in progress.
 */
module Bridge {
  import opened JsText
  import opened Steps
  import opened Polling

  const AvaxMessenger: string := "0xeb08f243e5d3fcff26a9e38ae5520a669f4019d0"
  const AvaxUsdc: string := "0x5425890298aed601595a70ab815c96711a31bc65"
  const EthTransmitter: string := "0x26413e8157cd32011e726065a5462e97dd4d03d9"
  const EthMessenger: string := "0xd0c3da58f55358142b8d3e06c1c30c5c6114efe8"
  const EthUsdc: string := "0x07865c6e87b9f70255377e024ace6630c1eaa37f"
  const AvaxTransmitter: string := "0xa9fb1b3009dcb79e2fe346c16a604b8fa8ae0a79"
  const MessageSentSignature: string := "MessageSent(bytes)"
  const PrivateKeyMissing: string := "Metamask private key is undefined"
  const InfuraKeyMissing: string := "Infura API key is undefined"
  const ApprovalConfirmed: string := "Approval has been confirmed: "
  const BurnConfirmed: string := "Burn has been confirmed: "
  const MessageRetrieved: string := "Message has been retrieved."
  const SignatureRetrieved: string := "Attestation signature retrieved."
  const Transferred: string := "USDC transferred to destination chain."

  datatype Direction = AvaxToEth | EthToAvax

  /** The test-network contracts a direction uses, and the CCTP domain of its destination. */
  datatype Route = Route(messenger: string, usdc: string, transmitter: string, destinationDomain: nat)

  function RouteOf(d: Direction): Route {
    match d
    case AvaxToEth =>
      Route(AvaxMessenger, AvaxUsdc,
            EthTransmitter, 0)
    case EthToAvax =>
      Route(EthMessenger, EthUsdc,
            AvaxTransmitter, 1)
  }

  /** The contract calls a run makes, with their arguments. */
  datatype ContractCall =
    | Approve(token: string, spender: string, amount: string)
    | DepositForBurn(messenger: string, amount: string, destinationDomain: nat, mintRecipient: string, burnToken: string)
    | ReceiveMessage(transmitter: string, message: string, attestation: Option<string>)

  /** A call sent with `estimateGas` and `send`: it throws, or gives its hash and the receipts `waitForTransaction` then fetches. */
  datatype TxAttempt = TxThrows | Sent(hash: string, receipts: seq<ReceiptReply>)

  /**
   * Everything a run learns from outside: whether the two keys are configured, whether
   * setting up the signer from the key throws, the web3 utilities it uses, and the answers of
   * the chains and of the attestation service.
   */
  datatype BridgeWorld = BridgeWorld(
    privateKeyDefined: bool,
    infuraKeyDefined: bool,
    signerThrows: bool,
    padLeft: string -> string,               // web3.utils.padLeft(address, 64)
    keccak256: string -> string,
    decodeBytes: string -> Option<string>,   // abi.decodeParameters(["bytes"], data)[0]; None when it throws
    approveTx: TxAttempt,
    burnTx: TxAttempt,
    burnReceipt: ReceiptReply,               // the burn receipt, fetched again for its logs
    attestations: string -> seq<AttestationReply>,   // the service's replies for a message hash
    receiveTx: TxAttempt)

  datatype BridgeOutcome =
    | KeyMissing(alert: string)                          // a key is not configured: nothing is done
    | Failed(step: Step)                                 // a throw during the step
    | Stalled(step: Step)                                // the step's poll never ended
    | Bridged(message: string, attestation: Option<string>)

  /**
   * A run: how it ended, the updates it made to the progress record, and the calls it sent
   * (a call whose `estimateGas` or `send` threw never reached the chain and is not among them).
   */
  datatype Run = Run(outcome: BridgeOutcome, updates: seq<Update>, calls: seq<ContractCall>)

  /** How waiting for a sent call ended. */
  datatype Confirmation = Confirmed(hash: string) | ConfirmThrew | ConfirmWaiting

  /**
   * A call, then `waitForTransaction` on its hash; the receipt itself is only logged. It is
   * confirmed exactly when it was sent and some fetch, after only pending ones, returned a
   * receipt (or null).
   */
  function Confirm(tx: TxAttempt): (c: Confirmation)
    ensures c.Confirmed? <==> tx.Sent? && exists k :: 0 <= k < |tx.receipts| && Settles(tx.receipts, k)
    ensures c.Confirmed? ==> c.hash == tx.hash
    ensures c.ConfirmThrew? <==> tx.TxThrows? || exists k :: 0 <= k < |tx.receipts| && ThrowsAfterPending(tx.receipts, k)
  {
    match tx
    case TxThrows => ConfirmThrew
    case Sent(hash, receipts) =>
      match WaitFrom(receipts, 0)
      case Returned(_, fetches) =>
        assert Settles(receipts, fetches - 1);
        Confirmed(hash)
      case Threw(fetches) =>
        assert ThrowsAfterPending(receipts, fetches - 1);
        ConfirmThrew
      case StillWaiting => ConfirmWaiting
  }

  /** Fetch k returns a receipt that ends the wait, after pending ones only. */
  predicate Settles(receipts: seq<ReceiptReply>, k: nat)
    requires k < |receipts|
  {
    receipts[k].Fetched? && !Pending(receipts[k]) && forall j :: 0 <= j < k ==> Pending(receipts[j])
  }

  /** Fetch k throws, after pending ones only. */
  predicate ThrowsAfterPending(receipts: seq<ReceiptReply>, k: nat)
    requires k < |receipts|
  {
    receipts[k] == FetchThrows && forall j :: 0 <= j < k ==> Pending(receipts[j])
  }

  /** The call as the page records it: there exactly when `estimateGas` and `send` resolved. */
  function Sending(tx: TxAttempt, call: ContractCall): (sent: seq<ContractCall>)
    ensures sent == [call] <==> tx.Sent?
    ensures sent == [] <==> tx.TxThrows?
  {
    if tx.Sent? then [call] else []
  }

  /** The outcome of a step whose call was not confirmed. */
  function Halt(c: Confirmation, s: Step): BridgeOutcome {
    if c.ConfirmThrew? then Failed(s) else Stalled(s)
  }

  /** The topic-0 hash of the `MessageSent(bytes)` event. */
  function MessageSentTopic(w: BridgeWorld): string {
    w.keccak256(MessageSentSignature)
  }

  /**
   * Step 3: the message bytes, decoded from the data of the first log of the burn receipt
   * whose topic 0 is the `MessageSent` hash; `None` when the fetch throws, the receipt is null,
   * no log matches (reading `.data` of undefined throws), or decoding throws.
   */
  function MessageOf(w: BridgeWorld): Option<string> {
    match w.burnReceipt
    case FetchThrows => None
    case Fetched(None) => None
    case Fetched(Some(receipt)) =>
      match FindLog(receipt.logs, MessageSentTopic(w))
      case None => None
      case Some(log) => w.decodeBytes(log.data)
  }

  /** Step 4's polls of the attestation service at `keccak256(message)`. */
  function SignatureOf(w: BridgeWorld, message: string): Attestation {
    AttestationFrom(w.attestations(w.keccak256(message)), 0)
  }

  /** The amount a run sends: `(x * 1e6).toFixed(0)`. */
  function BaseUnitsText(amount: JsNumber): string {
    ToFixed0(TimesMillion(amount))
  }

  // ------------------------------------------------------------ the run, step by step

  /**
   * What a run does: the keys are checked before anything else; then step 1 is started and
   * the signer and contracts are set up (a throw there fails step 1).
   */
  function BridgeRun(d: Direction, amount: JsNumber, wallet: string, w: BridgeWorld): Run {
    if !w.privateKeyDefined then Run(KeyMissing(PrivateKeyMissing), [], [])
    else if !w.infuraKeyDefined then Run(KeyMissing(InfuraKeyMissing), [], [])
    else FromApprove(d, amount, wallet, w)
  }

  /** Step 1: approve the messenger to take the amount. */
  function FromApprove(d: Direction, amount: JsNumber, wallet: string, w: BridgeWorld): Run {
    var us := [Update.Start(ApproveTokens, None)];
    if w.signerThrows then Run(Failed(ApproveTokens), us, [])
    else
      var route := RouteOf(d);
      var calls := Sending(w.approveTx, Approve(route.usdc, route.messenger, BaseUnitsText(amount)));
      var approved := Confirm(w.approveTx);
      if !approved.Confirmed? then Run(Halt(approved, ApproveTokens), us, calls)
      else
        FromBurn(d, amount, wallet, w,
                 us + [Update.Complete(ApproveTokens, ApprovalConfirmed + approved.hash),
                       Update.Start(BurnTokens, None)],
                 calls)
  }

  /** Step 2: burn the amount, naming the destination domain and the padded, lower-cased wallet. */
  function FromBurn(d: Direction, amount: JsNumber, wallet: string, w: BridgeWorld,
                    us: seq<Update>, calls: seq<ContractCall>): Run
  {
    var route := RouteOf(d);
    var calls := calls + Sending(w.burnTx, DepositForBurn(route.messenger, BaseUnitsText(amount), route.destinationDomain,
                                                          ToLower(w.padLeft(wallet)), route.usdc));
    var burnt := Confirm(w.burnTx);
    if !burnt.Confirmed? then Run(Halt(burnt, BurnTokens), us, calls)
    else
      FromMessage(d, w,
                  us + [Update.Complete(BurnTokens, BurnConfirmed + burnt.hash),
                        Update.Start(RetrieveMessage, None)],
                  calls)
  }

  /** Step 3: the message bytes from the burn receipt. */
  function FromMessage(d: Direction, w: BridgeWorld, us: seq<Update>, calls: seq<ContractCall>): Run {
    match MessageOf(w)
    case None => Run(Failed(RetrieveMessage), us, calls)
    case Some(message) =>
      FromSignature(d, w, message,
                    us + [Update.Complete(RetrieveMessage, MessageRetrieved),
                          Update.Start(FetchSignature, None)],
                    calls)
  }

  /** Step 4: poll the attestation service at the message's hash. */
  function FromSignature(d: Direction, w: BridgeWorld, message: string, us: seq<Update>, calls: seq<ContractCall>): Run {
    match SignatureOf(w, message)
    case PollThrew(_) => Run(Failed(FetchSignature), us, calls)
    case StillPending => Run(Stalled(FetchSignature), us, calls)
    case Attested(signature, _) =>
      FromReceive(d, w, message, signature,
                  us + [Update.Complete(FetchSignature, SignatureRetrieved),
                        Update.Start(TransferFunds, None)],
                  calls)
  }

  /**
   * Step 5: `receiveMessage` with the message and signature on the destination chain. A
   * transfer to Ethereum then starts the campaign-deposit step, which `depositFunds` completes.
   */
  function FromReceive(d: Direction, w: BridgeWorld, message: string, signature: Option<string>,
                       us: seq<Update>, calls: seq<ContractCall>): Run
  {
    var calls := calls + Sending(w.receiveTx, ReceiveMessage(RouteOf(d).transmitter, message, signature));
    var received := Confirm(w.receiveTx);
    if !received.Confirmed? then Run(Halt(received, TransferFunds), us, calls)
    else
      var us := us + [Update.Complete(TransferFunds, Transferred)];
      Run(Bridged(message, signature), if d == AvaxToEth then us + [Update.Start(ApproveAndDeposit, None)] else us, calls)
  }

  // ------------------------------------------------------------ the run's updates

  /**
   * The updates of a run are ordered, and their number tells how far it got: a run that ends
   * in step s has started s and completed every step before it.
   */
  predicate Shaped(d: Direction, r: Run) {
    && InOrder(r.updates)
    && (r.outcome.Failed? || r.outcome.Stalled? ==> |r.updates| == 2 * IndexOf(r.outcome.step) + 1)
    && (r.outcome.Bridged? ==> |r.updates| == if d == AvaxToEth then 11 else 10)
    && (r.outcome.KeyMissing? ==> r.updates == [])
  }

  /** An ordered list of updates extended by the next one is still ordered. */
  lemma {:induction false} InOrderSnoc(us: seq<Update>, u: Update)
    requires InOrder(us) && |us| < 2 * StepCount
    requires u.step == StepAt(|us| / 2) && (u.Start? <==> |us| % 2 == 0) && (u.Start? ==> u.text.None?)
    ensures InOrder(us + [u])
  {
    var vs := us + [u];
    forall i | 0 <= i < |vs|
      ensures vs[i].step == StepAt(i / 2) && (vs[i].Start? <==> i % 2 == 0) && (vs[i].Start? ==> vs[i].text.None?)
    {
      if i < |us| {
        assert vs[i] == us[i];
      }
    }
  }

  lemma {:induction false} ReceiveShaped(d: Direction, w: BridgeWorld, message: string, signature: Option<string>,
                      us: seq<Update>, calls: seq<ContractCall>)
    requires InOrder(us) && |us| == 9
    ensures Shaped(d, FromReceive(d, w, message, signature, us, calls))
  {
    var done := Update.Complete(TransferFunds, Transferred);
    InOrderSnoc(us, done);
    if d == AvaxToEth {
      InOrderSnoc(us + [done], Update.Start(ApproveAndDeposit, None));
    }
  }

  lemma {:induction false} SignatureShaped(d: Direction, w: BridgeWorld, message: string, us: seq<Update>, calls: seq<ContractCall>)
    requires InOrder(us) && |us| == 7
    ensures Shaped(d, FromSignature(d, w, message, us, calls))
  {
    match SignatureOf(w, message)
    case Attested(signature, _) =>
      var done := Update.Complete(FetchSignature, SignatureRetrieved);
      InOrderSnoc(us, done);
      InOrderSnoc(us + [done], Update.Start(TransferFunds, None));
      assert us + [done] + [Update.Start(TransferFunds, None)] == us + [done, Update.Start(TransferFunds, None)];
      ReceiveShaped(d, w, message, signature, us + [done, Update.Start(TransferFunds, None)], calls);
    case _ =>
  }

  lemma {:induction false} MessageShaped(d: Direction, w: BridgeWorld, us: seq<Update>, calls: seq<ContractCall>)
    requires InOrder(us) && |us| == 5
    ensures Shaped(d, FromMessage(d, w, us, calls))
  {
    match MessageOf(w)
    case Some(message) =>
      var done := Update.Complete(RetrieveMessage, MessageRetrieved);
      InOrderSnoc(us, done);
      InOrderSnoc(us + [done], Update.Start(FetchSignature, None));
      assert us + [done] + [Update.Start(FetchSignature, None)] == us + [done, Update.Start(FetchSignature, None)];
      SignatureShaped(d, w, message, us + [done, Update.Start(FetchSignature, None)], calls);
    case None =>
  }

  lemma {:induction false} BurnShaped(d: Direction, amount: JsNumber, wallet: string, w: BridgeWorld, us: seq<Update>, calls: seq<ContractCall>)
    requires InOrder(us) && |us| == 3
    ensures Shaped(d, FromBurn(d, amount, wallet, w, us, calls))
  {
    var burnt := Confirm(w.burnTx);
    if burnt.Confirmed? {
      var done := Update.Complete(BurnTokens, BurnConfirmed + burnt.hash);
      InOrderSnoc(us, done);
      InOrderSnoc(us + [done], Update.Start(RetrieveMessage, None));
      assert us + [done] + [Update.Start(RetrieveMessage, None)] == us + [done, Update.Start(RetrieveMessage, None)];
      var route := RouteOf(d);
      var calls' := calls + Sending(w.burnTx, DepositForBurn(route.messenger, BaseUnitsText(amount), route.destinationDomain,
                                                             ToLower(w.padLeft(wallet)), route.usdc));
      MessageShaped(d, w, us + [done, Update.Start(RetrieveMessage, None)], calls');
    }
  }

  lemma {:induction false} ApproveShaped(d: Direction, amount: JsNumber, wallet: string, w: BridgeWorld)
    ensures Shaped(d, FromApprove(d, amount, wallet, w))
  {
    var first := [Update.Start(ApproveTokens, None)];
    var approved := Confirm(w.approveTx);
    var route := RouteOf(d);
    var calls := Sending(w.approveTx, Approve(route.usdc, route.messenger, BaseUnitsText(amount)));
    if w.signerThrows {
      HaltedInApproval(d, Run(Failed(ApproveTokens), first, []));
    } else if !approved.Confirmed? {
      HaltedInApproval(d, Run(Halt(approved, ApproveTokens), first, calls));
    } else {
      var us := first + [Update.Complete(ApproveTokens, ApprovalConfirmed + approved.hash),
                         Update.Start(BurnTokens, None)];
      ApprovedInOrder(first, us, approved.hash);
      assert FromApprove(d, amount, wallet, w) == FromBurn(d, amount, wallet, w, us, calls);
      BurnShaped(d, amount, wallet, w, us, calls);
    }
  }

  /** A run that ends in step 1 has made the single update starting it. */
  lemma {:induction false} HaltedInApproval(d: Direction, r: Run)
    requires r.updates == [Update.Start(ApproveTokens, None)]
    requires r.outcome == Failed(ApproveTokens) || r.outcome == Stalled(ApproveTokens)
    ensures Shaped(d, r)
  {
    InOrderSnoc([], Update.Start(ApproveTokens, None));
    assert [] + r.updates == r.updates;
  }

  /** Starting step 1, completing it and starting step 2 are ordered updates. */
  lemma {:induction false} ApprovedInOrder(first: seq<Update>, us: seq<Update>, hash: string)
    requires first == [Update.Start(ApproveTokens, None)]
    requires us == first + [Update.Complete(ApproveTokens, ApprovalConfirmed + hash), Update.Start(BurnTokens, None)]
    ensures InOrder(us) && |us| == 3
  {
    var done := Update.Complete(ApproveTokens, ApprovalConfirmed + hash);
    InOrderSnoc([], Update.Start(ApproveTokens, None));
    assert [] + first == first;
    InOrderSnoc(first, done);
    InOrderSnoc(first + [done], Update.Start(BurnTokens, None));
    assert first + [done] + [Update.Start(BurnTokens, None)] == us;
  }

  /**
   * Every run makes ordered updates: step k + 1 is started only once step k is complete. A
   * run that fails or stalls in step s has made 2·index(s) + 1 updates; a transfer makes 10,
   * and a transfer to Ethereum one more, starting the deposit step.
   */
  lemma {:induction false} RunShaped(d: Direction, amount: JsNumber, wallet: string, w: BridgeWorld)
    ensures Shaped(d, BridgeRun(d, amount, wallet, w))
  {
    if w.privateKeyDefined && w.infuraKeyDefined {
      ApproveShaped(d, amount, wallet, w);
    }
  }

  // ------------------------------------------------------------ what a run achieves

  /** The calls of a transfer: approve, burn, and receive the message with its signature. */
  function TransferCalls(d: Direction, amount: JsNumber, wallet: string, w: BridgeWorld,
                         message: string, signature: Option<string>): seq<ContractCall>
  {
    var route := RouteOf(d);
    [Approve(route.usdc, route.messenger, BaseUnitsText(amount)),
     DepositForBurn(route.messenger, BaseUnitsText(amount), route.destinationDomain, ToLower(w.padLeft(wallet)), route.usdc),
     ReceiveMessage(route.transmitter, message, signature)]
  }

  /** Steps 3 to 5 go right: the message is found, its attestation completes, and receiving it is confirmed. */
  predicate MintGoesRight(w: BridgeWorld) {
    MessageOf(w).Some? && SignatureOf(w, MessageOf(w).value).Attested? && Confirm(w.receiveTx).Confirmed?
  }

  /** Everything a transfer needs goes right: keys, setup, the three calls, the message and its attestation. */
  predicate AllGoesRight(w: BridgeWorld) {
    && w.privateKeyDefined && w.infuraKeyDefined && !w.signerThrows
    && Confirm(w.approveTx).Confirmed? && Confirm(w.burnTx).Confirmed? && MintGoesRight(w)
  }

  /** The `receiveMessage` call, sent once the message and its attestation are known and its `send` goes through. */
  function ReceiveCallOf(d: Direction, w: BridgeWorld): seq<ContractCall> {
    if MessageOf(w).Some? && SignatureOf(w, MessageOf(w).value).Attested? && w.receiveTx.Sent? then
      [ReceiveMessage(RouteOf(d).transmitter, MessageOf(w).value, SignatureOf(w, MessageOf(w).value).signature)]
    else []
  }

  /** The calls and the outcome of steps 3 to 5. */
  lemma {:induction false} MessageStageFacts(d: Direction, w: BridgeWorld, us: seq<Update>, calls: seq<ContractCall>)
    ensures var r := FromMessage(d, w, us, calls);
      && r.calls == calls + ReceiveCallOf(d, w)
      && (r.outcome.Bridged? <==> MintGoesRight(w))
      && (r.outcome.Bridged? ==> r.outcome == Bridged(MessageOf(w).value, SignatureOf(w, MessageOf(w).value).signature))
  {
  }

  /** The calls and the outcome of steps 2 to 5. */
  lemma {:induction false} BurnStageFacts(d: Direction, amount: JsNumber, wallet: string, w: BridgeWorld, us: seq<Update>, calls: seq<ContractCall>)
    ensures var r := FromBurn(d, amount, wallet, w, us, calls); var route := RouteOf(d);
      && r.calls == calls + Sending(w.burnTx, DepositForBurn(route.messenger, BaseUnitsText(amount), route.destinationDomain,
                                                             ToLower(w.padLeft(wallet)), route.usdc))
                          + (if Confirm(w.burnTx).Confirmed? then ReceiveCallOf(d, w) else [])
      && (r.outcome.Bridged? <==> Confirm(w.burnTx).Confirmed? && MintGoesRight(w))
      && (r.outcome.Bridged? ==> r.outcome == Bridged(MessageOf(w).value, SignatureOf(w, MessageOf(w).value).signature))
  {
    var burnt := Confirm(w.burnTx);
    var route := RouteOf(d);
    var calls' := calls + Sending(w.burnTx, DepositForBurn(route.messenger, BaseUnitsText(amount), route.destinationDomain,
                                                           ToLower(w.padLeft(wallet)), route.usdc));
    if burnt.Confirmed? {
      MessageStageFacts(d, w, us + [Update.Complete(BurnTokens, BurnConfirmed + burnt.hash),
                                    Update.Start(RetrieveMessage, None)], calls');
    }
  }

  /** The calls of a whole run. */
  lemma {:induction false} RunCalls(d: Direction, amount: JsNumber, wallet: string, w: BridgeWorld)
    ensures var r := BridgeRun(d, amount, wallet, w); var route := RouteOf(d);
      && (!w.privateKeyDefined || !w.infuraKeyDefined || w.signerThrows ==> r.calls == [])
      && (w.privateKeyDefined && w.infuraKeyDefined && !w.signerThrows && !Confirm(w.approveTx).Confirmed? ==>
            r.calls == Sending(w.approveTx, Approve(route.usdc, route.messenger, BaseUnitsText(amount))))
      && (w.privateKeyDefined && w.infuraKeyDefined && !w.signerThrows && Confirm(w.approveTx).Confirmed? ==>
            r.calls == [Approve(route.usdc, route.messenger, BaseUnitsText(amount))]
                       + Sending(w.burnTx, DepositForBurn(route.messenger, BaseUnitsText(amount), route.destinationDomain,
                                                          ToLower(w.padLeft(wallet)), route.usdc))
                       + (if Confirm(w.burnTx).Confirmed? then ReceiveCallOf(d, w) else []))
  {
    var approved := Confirm(w.approveTx);
    if w.privateKeyDefined && w.infuraKeyDefined && !w.signerThrows && approved.Confirmed? {
      var route := RouteOf(d);
      var us := [Update.Start(ApproveTokens, None)]
                + [Update.Complete(ApproveTokens, ApprovalConfirmed + approved.hash),
                   Update.Start(BurnTokens, None)];
      var calls := [Approve(route.usdc, route.messenger, BaseUnitsText(amount))];
      assert BridgeRun(d, amount, wallet, w) == FromBurn(d, amount, wallet, w, us, calls);
      BurnStageFacts(d, amount, wallet, w, us, calls);
    }
  }

  /** The outcome of a whole run, when it transfers. */
  lemma {:induction false} RunOutcome(d: Direction, amount: JsNumber, wallet: string, w: BridgeWorld)
    ensures var r := BridgeRun(d, amount, wallet, w);
      && (r.outcome.Bridged? <==> AllGoesRight(w))
      && (r.outcome.Bridged? ==> r.outcome == Bridged(MessageOf(w).value, SignatureOf(w, MessageOf(w).value).signature))
  {
    var approved := Confirm(w.approveTx);
    if w.privateKeyDefined && w.infuraKeyDefined && !w.signerThrows && approved.Confirmed? {
      var route := RouteOf(d);
      var us := [Update.Start(ApproveTokens, None)]
                + [Update.Complete(ApproveTokens, ApprovalConfirmed + approved.hash),
                   Update.Start(BurnTokens, None)];
      var calls := [Approve(route.usdc, route.messenger, BaseUnitsText(amount))];
      assert BridgeRun(d, amount, wallet, w) == FromBurn(d, amount, wallet, w, us, calls);
      BurnStageFacts(d, amount, wallet, w, us, calls);
    }
  }

  /** A run does nothing at all unless both keys are configured, and its alert names the first one missing. */
  lemma {:induction false} KeysCheckedFirst(d: Direction, amount: JsNumber, wallet: string, w: BridgeWorld)
    ensures var r := BridgeRun(d, amount, wallet, w);
      && (r.outcome.KeyMissing? <==> !w.privateKeyDefined || !w.infuraKeyDefined)
      && (!w.privateKeyDefined ==> r.outcome == KeyMissing(PrivateKeyMissing))
      && (w.privateKeyDefined && !w.infuraKeyDefined ==> r.outcome == KeyMissing(InfuraKeyMissing))
      && (r.outcome.KeyMissing? ==> r.updates == [] && r.calls == [])
  {
  }

  /**
   * A run transfers exactly when everything goes right; it then mints with the message of the
   * burn and the `attestation` of the first complete reply, having made the three calls in order.
   */
  lemma {:induction false} BridgedExactly(d: Direction, amount: JsNumber, wallet: string, w: BridgeWorld)
    ensures var r := BridgeRun(d, amount, wallet, w);
      && (r.outcome.Bridged? <==> AllGoesRight(w))
      && (r.outcome.Bridged? ==>
            && r.outcome.message == MessageOf(w).value
            && r.outcome.attestation == SignatureOf(w, MessageOf(w).value).signature
            && r.calls == TransferCalls(d, amount, wallet, w, r.outcome.message, r.outcome.attestation))
  {
    RunCalls(d, amount, wallet, w);
    RunOutcome(d, amount, wallet, w);
  }

  /**
   * Without a `MessageSent` log that decodes, nothing is minted: no `receiveMessage` is sent, and
   * once approval and burn are confirmed the run fails in step 3.
   */
  lemma {:induction false} NoMessageNoMint(d: Direction, amount: JsNumber, wallet: string, w: BridgeWorld)
    requires MessageOf(w).None?
    ensures var r := BridgeRun(d, amount, wallet, w);
      && (forall k :: 0 <= k < |r.calls| ==> !r.calls[k].ReceiveMessage?)
      && (w.privateKeyDefined && w.infuraKeyDefined && !w.signerThrows
            && Confirm(w.approveTx).Confirmed? && Confirm(w.burnTx).Confirmed?
          ==> r.outcome == Failed(RetrieveMessage))
  {
    RunCalls(d, amount, wallet, w);
    RunOutcome(d, amount, wallet, w);
  }

  /**
   * Each call is there only when its `send` went through, and only after the one before it is
   * confirmed; the burn uses the approved
   * amount and the padded, lower-cased wallet, and the receive uses the burn's message.
   */
  lemma {:induction false} CallsInOrder(d: Direction, amount: JsNumber, wallet: string, w: BridgeWorld)
    ensures var r := BridgeRun(d, amount, wallet, w); var route := RouteOf(d);
      && |r.calls| <= 3
      && (|r.calls| >= 1 ==> w.approveTx.Sent? && r.calls[0] == Approve(route.usdc, route.messenger, BaseUnitsText(amount)))
      && (|r.calls| >= 2 ==>
            && Confirm(w.approveTx).Confirmed? && w.burnTx.Sent?
            && r.calls[1] == DepositForBurn(route.messenger, BaseUnitsText(amount), route.destinationDomain,
                                            ToLower(w.padLeft(wallet)), route.usdc))
      && (|r.calls| == 3 ==>
            && Confirm(w.burnTx).Confirmed? && MessageOf(w).Some? && w.receiveTx.Sent?
            && r.calls[2] == ReceiveMessage(route.transmitter, MessageOf(w).value, SignatureOf(w, MessageOf(w).value).signature))
  {
    RunCalls(d, amount, wallet, w);
    RunOutcome(d, amount, wallet, w);
  }

  /**
   * After a run that fails or stalls in step s, s is left in progress, the steps before it are
   * complete and the steps after it are as they were: the record is not rolled back.
   */
  lemma {:induction false} HaltedRunBoard(d: Direction, amount: JsNumber, wallet: string, w: BridgeWorld, b: Board)
    requires Total(b)
    ensures var r := BridgeRun(d, amount, wallet, w); var after := ApplyAll(b, r.updates);
      r.outcome.Failed? || r.outcome.Stalled? ==>
        && Busy(after, r.outcome.step)
        && (forall s: Step :: IndexOf(s) < IndexOf(r.outcome.step) ==> after[s].status && !after[s].loading)
        && (forall s: Step :: IndexOf(s) > IndexOf(r.outcome.step) ==> after[s] == b[s])
  {
    var r := BridgeRun(d, amount, wallet, w);
    RunShaped(d, amount, wallet, w);
    if r.outcome.Failed? || r.outcome.Stalled? {
      HaltedBoard(d, r, b);
    }
  }

  /** HaltedRunBoard for any ordered run that halts. */
  lemma {:induction false} HaltedBoard(d: Direction, r: Run, b: Board)
    requires Total(b) && Shaped(d, r) && (r.outcome.Failed? || r.outcome.Stalled?)
    ensures var after := ApplyAll(b, r.updates);
      && Busy(after, r.outcome.step)
      && (forall s: Step :: IndexOf(s) < IndexOf(r.outcome.step) ==> after[s].status && !after[s].loading)
      && (forall s: Step :: IndexOf(s) > IndexOf(r.outcome.step) ==> after[s] == b[s])
  {
    StepAtIndexOf(r.outcome.step);
    InOrderProgress(b, r.updates, IndexOf(r.outcome.step));
    forall s: Step
      ensures IndexOf(s) < IndexOf(r.outcome.step) ==> ApplyAll(b, r.updates)[s].status && !ApplyAll(b, r.updates)[s].loading
      ensures IndexOf(s) > IndexOf(r.outcome.step) ==> ApplyAll(b, r.updates)[s] == b[s]
    {
      StepAtIndexOf(s);
      InOrderProgress(b, r.updates, IndexOf(s));
    }
  }

  /**
   * After a transfer, the five bridge steps are complete; a transfer to Ethereum leaves the
   * deposit step in progress, and one to Avalanche leaves it as it was.
   */
  lemma {:induction false} TransferredBoard(d: Direction, amount: JsNumber, wallet: string, w: BridgeWorld, b: Board)
    requires Total(b)
    ensures var r := BridgeRun(d, amount, wallet, w); var after := ApplyAll(b, r.updates);
      r.outcome.Bridged? ==>
        && (forall s: Step :: s != ApproveAndDeposit ==> after[s].status && !after[s].loading)
        && (d == AvaxToEth ==> Busy(after, ApproveAndDeposit))
        && (d == EthToAvax ==> after[ApproveAndDeposit] == b[ApproveAndDeposit])
  {
    var r := BridgeRun(d, amount, wallet, w);
    RunShaped(d, amount, wallet, w);
    if r.outcome.Bridged? {
      BridgedBoard(d, r, b);
    }
  }

  /** TransferredBoard for any ordered run that transfers. */
  lemma {:induction false} BridgedBoard(d: Direction, r: Run, b: Board)
    requires Total(b) && Shaped(d, r) && r.outcome.Bridged?
    ensures var after := ApplyAll(b, r.updates);
      && (forall s: Step :: s != ApproveAndDeposit ==> after[s].status && !after[s].loading)
      && (d == AvaxToEth ==> Busy(after, ApproveAndDeposit))
      && (d == EthToAvax ==> after[ApproveAndDeposit] == b[ApproveAndDeposit])
  {
    InOrderProgress(b, r.updates, IndexOf(ApproveAndDeposit));
    forall s: Step | s != ApproveAndDeposit
      ensures ApplyAll(b, r.updates)[s].status && !ApplyAll(b, r.updates)[s].loading
    {
      StepAtIndexOf(s);
      InOrderProgress(b, r.updates, IndexOf(s));
    }
  }

  // ------------------------------------------------------------------- the run

  /** Send a call, then `waitForTransaction` on its hash. */
  method SendAndWait(tx: TxAttempt) returns (c: Confirmation)
    ensures c == Confirm(tx)
  {
    match tx
    case TxThrows =>
      c := ConfirmThrew;
    case Sent(hash, receipts) =>
      var waited := WaitForTransaction(receipts);
      match waited
      case Returned(_, _) => c := Confirmed(hash);
      case Threw(_) => c := ConfirmThrew;
      case StillWaiting => c := ConfirmWaiting;
  }

  /** Make one update to the progress record, extending the list of updates made from b0. */
  method Track(tracker: TransferStatus, u: Update, ghost b0: Board, ghost us: seq<Update>) returns (ghost us': seq<Update>)
    requires Total(b0) && tracker.View() == ApplyAll(b0, us)
    modifies tracker
    ensures us' == us + [u] && tracker.View() == ApplyAll(b0, us')
  {
    match u {
      case Start(s, text) => tracker.Start(s, text);
      case Complete(s, description) => tracker.Complete(s, description);
    }
    ApplyAllSnoc(b0, us, u);
    us' := us + [u];
  }

  /**
   * `avaxToEth` (to Ethereum) or `ethToAvax` (to Avalanche) on the given progress record: it
   * ends and sends the calls as BridgeRun says, and its updates are those of BridgeRun.
   */
  method RunBridge(tracker: TransferStatus, d: Direction, amount: JsNumber, wallet: string, w: BridgeWorld)
    returns (outcome: BridgeOutcome, calls: seq<ContractCall>)
    modifies tracker
    ensures var r := BridgeRun(d, amount, wallet, w);
      outcome == r.outcome && calls == r.calls && tracker.View() == ApplyAll(old(tracker.View()), r.updates)
  {
    if !w.privateKeyDefined {
      return KeyMissing(PrivateKeyMissing), [];
    }
    if !w.infuraKeyDefined {
      return KeyMissing(InfuraKeyMissing), [];
    }
    ghost var b0 := tracker.View();
    ghost var us := Track(tracker, Update.Start(ApproveTokens, None), b0, []);
    if w.signerThrows {
      return Failed(ApproveTokens), [];
    }
    var route := RouteOf(d);
    calls := Sending(w.approveTx, Approve(route.usdc, route.messenger, BaseUnitsText(amount)));
    var approved := SendAndWait(w.approveTx);
    if !approved.Confirmed? {
      return Halt(approved, ApproveTokens), calls;
    }
    us := Track(tracker, Update.Complete(ApproveTokens, ApprovalConfirmed + approved.hash), b0, us);
    us := Track(tracker, Update.Start(BurnTokens, None), b0, us);
    assert us == [Update.Start(ApproveTokens, None)]
               + [Update.Complete(ApproveTokens, ApprovalConfirmed + approved.hash), Update.Start(BurnTokens, None)];
    outcome, calls := BurnStep(tracker, d, amount, wallet, w, b0, us, calls);
  }

  method BurnStep(tracker: TransferStatus, d: Direction, amount: JsNumber, wallet: string, w: BridgeWorld,
                  ghost b0: Board, ghost us: seq<Update>, calls: seq<ContractCall>)
    returns (outcome: BridgeOutcome, calls': seq<ContractCall>)
    requires Total(b0) && tracker.View() == ApplyAll(b0, us)
    modifies tracker
    ensures var r := FromBurn(d, amount, wallet, w, us, calls);
      outcome == r.outcome && calls' == r.calls && tracker.View() == ApplyAll(b0, r.updates)
  {
    var route := RouteOf(d);
    calls' := calls + Sending(w.burnTx, DepositForBurn(route.messenger, BaseUnitsText(amount), route.destinationDomain,
                                                       ToLower(w.padLeft(wallet)), route.usdc));
    var burnt := SendAndWait(w.burnTx);
    if !burnt.Confirmed? {
      return Halt(burnt, BurnTokens), calls';
    }
    ghost var us' := Track(tracker, Update.Complete(BurnTokens, BurnConfirmed + burnt.hash), b0, us);
    us' := Track(tracker, Update.Start(RetrieveMessage, None), b0, us');
    assert us' == us + [Update.Complete(BurnTokens, BurnConfirmed + burnt.hash), Update.Start(RetrieveMessage, None)];
    outcome, calls' := MessageStep(tracker, d, w, b0, us', calls');
  }

  method MessageStep(tracker: TransferStatus, d: Direction, w: BridgeWorld,
                     ghost b0: Board, ghost us: seq<Update>, calls: seq<ContractCall>)
    returns (outcome: BridgeOutcome, calls': seq<ContractCall>)
    requires Total(b0) && tracker.View() == ApplyAll(b0, us)
    modifies tracker
    ensures var r := FromMessage(d, w, us, calls);
      outcome == r.outcome && calls' == r.calls && tracker.View() == ApplyAll(b0, r.updates)
  {
    var message := MessageOf(w);
    if message.None? {
      return Failed(RetrieveMessage), calls;
    }
    ghost var us' := Track(tracker, Update.Complete(RetrieveMessage, MessageRetrieved), b0, us);
    us' := Track(tracker, Update.Start(FetchSignature, None), b0, us');
    assert us' == us + [Update.Complete(RetrieveMessage, MessageRetrieved), Update.Start(FetchSignature, None)];
    outcome, calls' := SignatureStep(tracker, d, w, message.value, b0, us', calls);
  }

  method SignatureStep(tracker: TransferStatus, d: Direction, w: BridgeWorld, message: string,
                       ghost b0: Board, ghost us: seq<Update>, calls: seq<ContractCall>)
    returns (outcome: BridgeOutcome, calls': seq<ContractCall>)
    requires Total(b0) && tracker.View() == ApplyAll(b0, us)
    modifies tracker
    ensures var r := FromSignature(d, w, message, us, calls);
      outcome == r.outcome && calls' == r.calls && tracker.View() == ApplyAll(b0, r.updates)
  {
    var attestation := AwaitAttestation(w.attestations(w.keccak256(message)));
    match attestation
    case PollThrew(_) =>
      return Failed(FetchSignature), calls;
    case StillPending =>
      return Stalled(FetchSignature), calls;
    case Attested(signature, _) =>
      ghost var us' := Track(tracker, Update.Complete(FetchSignature, SignatureRetrieved), b0, us);
      us' := Track(tracker, Update.Start(TransferFunds, None), b0, us');
      assert us' == us + [Update.Complete(FetchSignature, SignatureRetrieved), Update.Start(TransferFunds, None)];
      outcome, calls' := ReceiveStep(tracker, d, w, message, signature, b0, us', calls);
  }

  method ReceiveStep(tracker: TransferStatus, d: Direction, w: BridgeWorld, message: string, signature: Option<string>,
                     ghost b0: Board, ghost us: seq<Update>, calls: seq<ContractCall>)
    returns (outcome: BridgeOutcome, calls': seq<ContractCall>)
    requires Total(b0) && tracker.View() == ApplyAll(b0, us)
    modifies tracker
    ensures var r := FromReceive(d, w, message, signature, us, calls);
      outcome == r.outcome && calls' == r.calls && tracker.View() == ApplyAll(b0, r.updates)
  {
    calls' := calls + Sending(w.receiveTx, ReceiveMessage(RouteOf(d).transmitter, message, signature));
    var received := SendAndWait(w.receiveTx);
    if !received.Confirmed? {
      return Halt(received, TransferFunds), calls';
    }
    ghost var us' := Track(tracker, Update.Complete(TransferFunds, Transferred), b0, us);
    if d == AvaxToEth {
      us' := Track(tracker, Update.Start(ApproveAndDeposit, None), b0, us');
    }
    outcome := Bridged(message, signature);
  }
}
