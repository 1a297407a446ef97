/**
 * The campaign page's actions: `depositFunds`, `refund` and `withdrawFunds` on the campaign
 * manager, `getCurrentCampaignData`, the two bridge runs as the page starts them, the three
 * composite CCTP actions, and the Close buttons of the two progress modals. Each action is a
 * function from the page's state before to its state after (with what it reports), and the
 * `CampaignPage` class performs them step by step on its fields and two progress records.
 */
module Actions {
  import opened JsText
  import opened Steps
  import opened Projection
  import opened Bridge

  /** The Goerli USDC contract that `depositFunds` approves, written as in the page. */
  const UsdcGoerli: string := "0x07865c6E87B9F70255377e024ace6630C1Eaa37F"

  const AmountEmpty: string := "USDC Amount field is empty. "
  const AmountNotANumber: string := "USDC Amount must be a number. "
  const CampaignEnded: string := "Campaign has ended."
  const NotContributed: string := "User has not contributed any USDC, refund cannot be processed."
  const NoUsdcInCampaign: string := "Campaign does not contain any USDC."
  const NoUsdcToWithdraw: string := "No USDC to withraw from campaign."
  const NotEndedYet: string := "Withdrawal can only happen after campaign has ended."
  const NotCreator: string := "Only Campaign creator can withdraw funds"
  const DepositConfirmed: string := "USDC deposit to campaign. Confirmed at "
  const RefundingText: string := "Refunding USDC back to ETH wallet"
  const RefundConfirmed: string := "USDC refunded back to user. Confirmed at "
  const WithdrawingText: string := "Withdrawing USDC back to ETH wallet"
  const WithdrawConfirmed: string := "USDC has been withdrawed to user. Confirmed at "

  // ------------------------------------------------------------------ the checks

  /** `campaigns.deadline < bound` on minutes left that may be NaN (`None`): false for NaN. */
  predicate DeadlineBelow(deadline: Option<int>, bound: int) {
    deadline.Some? && deadline.value < bound
  }

  /**
   * The checks of `depositFunds` and `depositFundsCCTP`, in order. `Number.isNaN(parseFloat(x))`
   * is `ReadsNaN(x)` (see `JsText.ReadsNaNExactly`). (A third check, that `parseFloat` gave null
   * or undefined, can never fire and is not modelled.)
   */
  function DepositCheck(usdcAmount: string, deadline: Option<int>): (alert: Option<string>)
    ensures alert.None? <==> usdcAmount != "" && !ReadsNaN(usdcAmount) && !DeadlineBelow(deadline, 1)
    ensures alert == Some(AmountEmpty) <==> usdcAmount == ""
    ensures alert == Some(AmountNotANumber) <==> usdcAmount != "" && ReadsNaN(usdcAmount)
    ensures alert == Some(CampaignEnded) <==>
      usdcAmount != "" && !ReadsNaN(usdcAmount) && DeadlineBelow(deadline, 1)
  {
    if usdcAmount == "" then Some(AmountEmpty)
    else if ReadsNaN(usdcAmount) then Some(AmountNotANumber)
    else if DeadlineBelow(deadline, 1) then Some(CampaignEnded)
    else None
  }

  /** The checks of `refund`: the user has contributed, and the campaign holds USDC. */
  function RefundCheck(c: Campaign): (alert: Option<string>)
    ensures alert.None? <==> c.userContribution > 0.0 && c.currentAmount > 0.0
    ensures alert == Some(NotContributed) <==> c.userContribution <= 0.0
    ensures alert == Some(NoUsdcInCampaign) <==> c.userContribution > 0.0 && c.currentAmount <= 0.0
  {
    if c.userContribution <= 0.0 then Some(NotContributed)
    else if c.currentAmount <= 0.0 then Some(NoUsdcInCampaign)
    else None
  }

  /**
   * The checks of `withdrawFunds`: the campaign holds USDC, it has ended (`deadline >= 0` is
   * false, which includes NaN), and the wallet is the creator's, compared without case.
   */
  function WithdrawCheck(c: Campaign, wallet: string): (alert: Option<string>)
    ensures alert.None? <==>
      c.currentAmount > 0.0 && !(c.deadline.Some? && c.deadline.value >= 0) && ToLower(c.campaignCreator) == ToLower(wallet)
    ensures alert == Some(NoUsdcToWithdraw) <==> c.currentAmount <= 0.0
    ensures alert == Some(NotEndedYet) <==>
      c.currentAmount > 0.0 && c.deadline.Some? && c.deadline.value >= 0
    ensures alert == Some(NotCreator) <==>
      c.currentAmount > 0.0 && !(c.deadline.Some? && c.deadline.value >= 0) && ToLower(c.campaignCreator) != ToLower(wallet)
  {
    if c.currentAmount <= 0.0 then Some(NoUsdcToWithdraw)
    else if c.deadline.Some? && c.deadline.value >= 0 then Some(NotEndedYet)
    else if ToLower(c.campaignCreator) != ToLower(wallet) then Some(NotCreator)
    else None
  }

  // ------------------------------------------------------------------- the page

  /** The calls the page makes on the campaign manager and the Goerli USDC contract. */
  datatype CampaignCall =
    | ApproveUsdc(token: string, spender: string, amount: int)
    | DepositToCampaign(amount: int, campaign: string)
    | RefundFromCampaign(campaign: string)
    | WithdrawFromCampaign(campaign: string)

  /** Every call the page sends, in order. */
  datatype Call = OnCampaign(campaignCall: CampaignCall) | OnBridge(bridgeCall: ContractCall)

  /**
   * A transaction through the injected wallet: the call throws before anything is sent (the
   * signature is refused, say), it is sent and the wait for it throws, or it is mined with its hash.
   */
  datatype LocalTx = SendThrows | WaitThrows | TxMined(hash: string)

  /** The call as the page records it: there unless its send threw. */
  function SentCall(tx: LocalTx, c: CampaignCall): (sent: seq<Call>)
    ensures sent == [] <==> tx.SendThrows?
    ensures sent != [] ==> sent == [OnCampaign(c)]
  {
    if tx.SendThrows? then [] else [OnCampaign(c)]
  }

  /**
   * `getCurrentCampaignData`: skipped (no wallet, or the page has no campaign address), a
   * thrown error, or the first campaign of the reply, loaded at a time in milliseconds.
   */
  datatype Refresh = Skipped | RefreshThrows | Loaded(raw: RawCampaign, nowMs: int)

  /**
   * What an action learns from outside: whether a wallet is injected, ethers' `parseUnits(x, 6)`
   * (`None` when it throws), the two transactions, and the replies of the refresh that follows
   * the action and of the one that follows a bridge run.
   */
  datatype ActionWorld = ActionWorld(
    ethereum: bool,
    parseUnits: string -> Option<int>,
    approveTx: LocalTx,
    actionTx: LocalTx,
    refresh: Refresh,
    refreshAfterBridge: Refresh)

  /** What an action reports: the alert of a failed check, nothing (no wallet), a caught error, or the mined hash. */
  datatype ActionResult = Rejected(alert: string) | NoWallet | Errored | Done(hash: string) | NotRun

  /**
   * The page's state: the amount typed, the campaign shown, the deposit (`transferModal`) and
   * refund CCTP modals, the transaction modal (`isLoading`), the two progress records, and the
   * calls sent so far.
   */
  datatype Page = Page(
    usdcAmount: string,
    campaign: Campaign,
    transferModal: bool,
    refundModal: bool,
    isLoading: bool,
    depositBoard: Board,
    refundBoard: Board,
    sent: seq<Call>)

  predicate WellFormed(p: Page) {
    Total(p.depositBoard) && Total(p.refundBoard)
  }

  datatype Outcome = Outcome(page: Page, result: ActionResult)

  /** The campaign after a refresh: the first campaign of the reply, projected at the page's address. */
  function AfterRefresh(c: Campaign, address: string, r: Refresh): (c': Campaign)
    ensures r.Loaded? ==> ProjectedFrom(c', address, r.raw, r.nowMs)
    ensures !r.Loaded? ==> c' == c
  {
    match r
    case Loaded(raw, nowMs) => ProjectOne(address, raw, nowMs)
    case _ => c
  }

  /** The bridge calls as page calls. */
  function OnBridgeCalls(calls: seq<ContractCall>): (wrapped: seq<Call>)
    ensures |wrapped| == |calls| && forall i :: 0 <= i < |calls| ==> wrapped[i] == OnBridge(calls[i])
  {
    seq(|calls|, i requires 0 <= i < |calls| => OnBridge(calls[i]))
  }

  // --------------------------------------------------------- the three actions

  /** The catch of `depositFunds`: both modals close. */
  function DepositCaught(p: Page): Page {
    p.(isLoading := false, transferModal := false)
  }

  /**
   * `depositFunds`: after the checks, with a wallet, approve the campaign to take
   * `parseUnits(amount, 6)` of Goerli USDC, deposit that amount, refresh the campaign, then
   * complete the deposit step and clear the amount. A throw anywhere closes the modals and
   * leaves the progress record and the amount as they were.
   */
  function AfterDeposit(p: Page, address: string, byCctp: bool, aw: ActionWorld): (o: Outcome)
    requires WellFormed(p)
    ensures WellFormed(o.page)
    ensures o.result.Rejected? <==> DepositCheck(p.usdcAmount, p.campaign.deadline).Some?
    ensures o.result.Rejected? || o.result.NoWallet? ==> o.page == p
    ensures o.result.Done? <==>
      && DepositCheck(p.usdcAmount, p.campaign.deadline).None? && aw.ethereum && aw.parseUnits(p.usdcAmount).Some?
      && aw.approveTx.TxMined? && aw.actionTx.TxMined? && !aw.refresh.RefreshThrows?
    ensures o.result.Done? ==>
      var units := aw.parseUnits(p.usdcAmount).value;
      && o.result.hash == aw.actionTx.hash
      && o.page.sent == p.sent + [OnCampaign(ApproveUsdc(UsdcGoerli, address, units)), OnCampaign(DepositToCampaign(units, address))]
      && o.page.usdcAmount == "" && !o.page.isLoading
      && o.page.depositBoard == Apply(p.depositBoard, Update.Complete(ApproveAndDeposit, DepositConfirmed + o.result.hash))
      && o.page.campaign == AfterRefresh(p.campaign, address, aw.refresh)
    ensures !o.result.Done? ==>
      o.page.usdcAmount == p.usdcAmount && o.page.depositBoard == p.depositBoard && o.page.campaign == p.campaign
    ensures o.result.Errored? ==> !o.page.isLoading && !o.page.transferModal
    ensures o.result.Done? ==> o.page.transferModal == p.transferModal
    ensures o.page.refundBoard == p.refundBoard && o.page.refundModal == p.refundModal
    ensures DepositCheck(p.usdcAmount, p.campaign.deadline).None? && aw.ethereum ==>
      o.page.sent == p.sent + DepositCalls(aw, p.usdcAmount, address)
  {
    match DepositCheck(p.usdcAmount, p.campaign.deadline)
    case Some(alert) => Outcome(p, Rejected(alert))
    case None =>
      if !aw.ethereum then Outcome(p, NoWallet)
      else SendDeposit(if byCctp then p else p.(isLoading := true), address, aw)
  }

  /**
   * The calls a deposit sends: none when `parseUnits` throws; the approval unless it threw
   * before being sent; the deposit once the approval is mined, unless it threw before being sent.
   */
  function DepositCalls(aw: ActionWorld, usdcAmount: string, address: string): (calls: seq<Call>)
    ensures aw.parseUnits(usdcAmount).None? || aw.approveTx.SendThrows? ==> calls == []
    ensures aw.parseUnits(usdcAmount).Some? && aw.approveTx.TxMined? && aw.actionTx.TxMined? ==>
      var units := aw.parseUnits(usdcAmount).value;
      calls == [OnCampaign(ApproveUsdc(UsdcGoerli, address, units)), OnCampaign(DepositToCampaign(units, address))]
  {
    match aw.parseUnits(usdcAmount)
    case None => []
    case Some(units) =>
      SentCall(aw.approveTx, ApproveUsdc(UsdcGoerli, address, units))
      + (if aw.approveTx.TxMined? then SentCall(aw.actionTx, DepositToCampaign(units, address)) else [])
  }

  /**
   * The `try` block of `depositFunds`, from `parseUnits` on: approve, deposit, refresh, then
   * complete the deposit step and clear the amount; a throw closes both modals.
   */
  function SendDeposit(p: Page, address: string, aw: ActionWorld): (o: Outcome)
    requires WellFormed(p)
    ensures WellFormed(o.page)
    ensures o.result.Errored? || o.result.Done?
    ensures o.result.Done? <==>
      aw.parseUnits(p.usdcAmount).Some? && aw.approveTx.TxMined? && aw.actionTx.TxMined? && !aw.refresh.RefreshThrows?
    ensures o.result.Done? ==>
      var units := aw.parseUnits(p.usdcAmount).value;
      && o.result.hash == aw.actionTx.hash
      && o.page.sent == p.sent + [OnCampaign(ApproveUsdc(UsdcGoerli, address, units)), OnCampaign(DepositToCampaign(units, address))]
      && o.page.usdcAmount == "" && !o.page.isLoading
      && o.page.depositBoard == Apply(p.depositBoard, Update.Complete(ApproveAndDeposit, DepositConfirmed + o.result.hash))
      && o.page.campaign == AfterRefresh(p.campaign, address, aw.refresh)
    ensures o.result.Errored? ==>
      && o.page.usdcAmount == p.usdcAmount && o.page.depositBoard == p.depositBoard && o.page.campaign == p.campaign
      && !o.page.isLoading && !o.page.transferModal
    ensures o.result.Done? ==> o.page.transferModal == p.transferModal
    ensures o.page.refundBoard == p.refundBoard && o.page.refundModal == p.refundModal
    ensures o.page.sent == p.sent + DepositCalls(aw, p.usdcAmount, address)
  {
    match aw.parseUnits(p.usdcAmount)
    case None => Outcome(DepositCaught(p), Errored)
    case Some(units) =>
      // the approve call, then the deposit call if the approval was mined
      var p := p.(sent := p.sent + DepositCalls(aw, p.usdcAmount, address));
      if !aw.approveTx.TxMined? || !aw.actionTx.TxMined? || aw.refresh.RefreshThrows? then Outcome(DepositCaught(p), Errored)
      else
        var hash := aw.actionTx.hash;
        var p := p.(campaign := AfterRefresh(p.campaign, address, aw.refresh));
        var board := Apply(p.depositBoard, Update.Complete(ApproveAndDeposit, DepositConfirmed + hash));
        Outcome(p.(depositBoard := board, isLoading := false, usdcAmount := ""), Done(hash))
  }

  /** The modal a refund or withdrawal opens: the refund CCTP modal for a CCTP action, else the transaction modal. */
  function OpenModal(p: Page, byCctp: bool): Page {
    if byCctp then p.(refundModal := true) else p.(isLoading := true)
  }

  /** A completion overrides an earlier start of the same step. */
  lemma {:induction false} CompleteOverridesStart(b: Board, s: Step, text: Option<string>, description: string)
    requires Total(b)
    ensures Apply(Apply(b, Update.Start(s, text)), Update.Complete(s, description)) == Apply(b, Update.Complete(s, description))
  {
    var lhs := Apply(Apply(b, Update.Start(s, text)), Update.Complete(s, description));
    var rhs := Apply(b, Update.Complete(s, description));
    SameBoard(lhs, rhs);
  }

  /**
   * `refund`: after the checks, start the campaign-manager step of the refund modal with its
   * refund text, send `refund(campaign)`, refresh, and complete the step. Without a wallet the
   * provider's constructor throws. A throw closes the transaction modal, and leaves the step in
   * progress once it has started.
   */
  function AfterRefund(p: Page, address: string, byCctp: bool, aw: ActionWorld): (o: Outcome)
    requires WellFormed(p)
    ensures WellFormed(o.page)
    ensures o.result.Rejected? <==> RefundCheck(p.campaign).Some?
    ensures o.result.Rejected? ==> o.page == p
    ensures o.result.Rejected? || o.result.Errored? || o.result.Done?
    ensures o.result.Done? <==>
      RefundCheck(p.campaign).None? && aw.ethereum && aw.actionTx.TxMined? && !aw.refresh.RefreshThrows?
    ensures o.result.Done? ==>
      && o.result.hash == aw.actionTx.hash
      && o.page.sent == p.sent + [OnCampaign(RefundFromCampaign(address))]
      && o.page.refundBoard == Apply(p.refundBoard, Update.Complete(ApproveAndDeposit, RefundConfirmed + o.result.hash))
      && o.page.campaign == AfterRefresh(p.campaign, address, aw.refresh)
    ensures o.result.Errored? && aw.ethereum ==>
      o.page.refundBoard == Apply(p.refundBoard, Update.Start(ApproveAndDeposit, Some(RefundingText)))
    ensures !o.result.Rejected? ==> !o.page.isLoading && o.page.usdcAmount == p.usdcAmount
    ensures RefundCheck(p.campaign).None? && !aw.ethereum ==> o.page == p.(isLoading := false)
    ensures RefundCheck(p.campaign).None? && aw.ethereum ==>
      && o.page.sent == p.sent + SentCall(aw.actionTx, RefundFromCampaign(address))
      && o.page.refundModal == (p.refundModal || byCctp)
    ensures !o.result.Done? ==> o.page.campaign == p.campaign
    ensures && o.page.depositBoard == p.depositBoard && o.page.transferModal == p.transferModal
  {
    match RefundCheck(p.campaign)
    case Some(alert) => Outcome(p, Rejected(alert))
    case None =>
      if !aw.ethereum then Outcome(p.(isLoading := false), Errored)
      else SendRefund(OpenModal(p, byCctp), address, aw)
  }

  /** The `try` block of `refund` once its modal is open: start the step, refund, refresh, complete the step. */
  function SendRefund(shown: Page, address: string, aw: ActionWorld): (o: Outcome)
    requires WellFormed(shown)
    ensures WellFormed(o.page)
    ensures o.result.Errored? || o.result.Done?
    ensures o.result.Done? <==> aw.actionTx.TxMined? && !aw.refresh.RefreshThrows?
    ensures o.result.Done? ==>
      && o.result.hash == aw.actionTx.hash
      && o.page.sent == shown.sent + [OnCampaign(RefundFromCampaign(address))]
      && o.page.refundBoard == Apply(shown.refundBoard, Update.Complete(ApproveAndDeposit, RefundConfirmed + o.result.hash))
      && o.page.campaign == AfterRefresh(shown.campaign, address, aw.refresh)
    ensures o.result.Errored? ==>
      o.page.refundBoard == Apply(shown.refundBoard, Update.Start(ApproveAndDeposit, Some(RefundingText)))
    ensures !o.page.isLoading && o.page.usdcAmount == shown.usdcAmount
    ensures o.page.sent == shown.sent + SentCall(aw.actionTx, RefundFromCampaign(address))
    ensures !o.result.Done? ==> o.page.campaign == shown.campaign
    ensures && o.page.depositBoard == shown.depositBoard && o.page.transferModal == shown.transferModal
            && o.page.refundModal == shown.refundModal
  {
    var p := shown.(refundBoard := Apply(shown.refundBoard, Update.Start(ApproveAndDeposit, Some(RefundingText))));
    var p := p.(sent := p.sent + SentCall(aw.actionTx, RefundFromCampaign(address)));
    if !aw.actionTx.TxMined? || aw.refresh.RefreshThrows? then Outcome(p.(isLoading := false), Errored)
    else
        var hash := aw.actionTx.hash;
        var p := p.(campaign := AfterRefresh(p.campaign, address, aw.refresh));
        var board := Apply(p.refundBoard, Update.Complete(ApproveAndDeposit, RefundConfirmed + hash));
        CompleteOverridesStart(shown.refundBoard, ApproveAndDeposit, Some(RefundingText), RefundConfirmed + hash);
        Outcome(p.(refundBoard := board, isLoading := false), Done(hash))
  }

  /**
   * `withdrawFunds`: after the checks, start the campaign-manager step of the refund modal
   * with its withdrawal text, send `withdraw(campaign)`, complete the step and close the
   * transaction modal, then refresh; a refresh that throws is reported although the step is
   * already complete.
   */
  function AfterWithdraw(p: Page, address: string, wallet: string, byCctp: bool, aw: ActionWorld): (o: Outcome)
    requires WellFormed(p)
    ensures WellFormed(o.page)
    ensures o.result.Rejected? <==> WithdrawCheck(p.campaign, wallet).Some?
    ensures o.result.Rejected? ==> o.page == p
    ensures o.result.Rejected? || o.result.Errored? || o.result.Done?
    ensures o.result.Done? <==>
      WithdrawCheck(p.campaign, wallet).None? && aw.ethereum && aw.actionTx.TxMined? && !aw.refresh.RefreshThrows?
    ensures WithdrawCheck(p.campaign, wallet).None? && aw.ethereum && aw.actionTx.TxMined? ==>
      && o.page.sent == p.sent + [OnCampaign(WithdrawFromCampaign(address))]
      && o.page.refundBoard == Apply(p.refundBoard, Update.Complete(ApproveAndDeposit, WithdrawConfirmed + aw.actionTx.hash))
    ensures o.result.Done? ==> o.result.hash == aw.actionTx.hash && o.page.campaign == AfterRefresh(p.campaign, address, aw.refresh)
    ensures !o.result.Rejected? ==> !o.page.isLoading && o.page.usdcAmount == p.usdcAmount
    ensures WithdrawCheck(p.campaign, wallet).None? && !aw.ethereum ==> o.page == p.(isLoading := false)
    ensures WithdrawCheck(p.campaign, wallet).None? && aw.ethereum ==>
      && o.page.sent == p.sent + SentCall(aw.actionTx, WithdrawFromCampaign(address))
      && o.page.refundModal == (p.refundModal || byCctp)
    ensures WithdrawCheck(p.campaign, wallet).None? && aw.ethereum && !aw.actionTx.TxMined? ==>
      o.page.refundBoard == Apply(p.refundBoard, Update.Start(ApproveAndDeposit, Some(WithdrawingText)))
    ensures !o.result.Done? ==> o.page.campaign == p.campaign
    ensures && o.page.depositBoard == p.depositBoard && o.page.transferModal == p.transferModal
  {
    match WithdrawCheck(p.campaign, wallet)
    case Some(alert) => Outcome(p, Rejected(alert))
    case None =>
      if !aw.ethereum then Outcome(p.(isLoading := false), Errored)
      else SendWithdraw(OpenModal(p, byCctp), address, aw)
  }

  /** The `try` block of `withdrawFunds` once its modal is open: start the step, withdraw, complete the step, refresh. */
  function SendWithdraw(shown: Page, address: string, aw: ActionWorld): (o: Outcome)
    requires WellFormed(shown)
    ensures WellFormed(o.page)
    ensures o.result.Errored? || o.result.Done?
    ensures o.result.Done? <==> aw.actionTx.TxMined? && !aw.refresh.RefreshThrows?
    ensures aw.actionTx.TxMined? ==>
      && o.page.sent == shown.sent + [OnCampaign(WithdrawFromCampaign(address))]
      && o.page.refundBoard == Apply(shown.refundBoard, Update.Complete(ApproveAndDeposit, WithdrawConfirmed + aw.actionTx.hash))
    ensures o.result.Done? ==> o.result.hash == aw.actionTx.hash && o.page.campaign == AfterRefresh(shown.campaign, address, aw.refresh)
    ensures !o.page.isLoading && o.page.usdcAmount == shown.usdcAmount
    ensures o.page.sent == shown.sent + SentCall(aw.actionTx, WithdrawFromCampaign(address))
    ensures !aw.actionTx.TxMined? ==>
      o.page.refundBoard == Apply(shown.refundBoard, Update.Start(ApproveAndDeposit, Some(WithdrawingText)))
    ensures !o.result.Done? ==> o.page.campaign == shown.campaign
    ensures && o.page.depositBoard == shown.depositBoard && o.page.transferModal == shown.transferModal
            && o.page.refundModal == shown.refundModal
  {
    var p := shown.(refundBoard := Apply(shown.refundBoard, Update.Start(ApproveAndDeposit, Some(WithdrawingText))));
    var p := p.(sent := p.sent + SentCall(aw.actionTx, WithdrawFromCampaign(address)));
    if !aw.actionTx.TxMined? then Outcome(p.(isLoading := false), Errored)
    else
      var hash := aw.actionTx.hash;
      var board := Apply(p.refundBoard, Update.Complete(ApproveAndDeposit, WithdrawConfirmed + hash));
      CompleteOverridesStart(shown.refundBoard, ApproveAndDeposit, Some(WithdrawingText), WithdrawConfirmed + hash);
      var p := p.(refundBoard := board, isLoading := false);
      if aw.refresh.RefreshThrows? then Outcome(p, Errored)
      else Outcome(p.(campaign := AfterRefresh(p.campaign, address, aw.refresh)), Done(hash))
  }

  // --------------------------------------------------------- the bridge runs

  datatype Bridging = Bridging(page: Page, outcome: BridgeOutcome)

  /**
   * `avaxToEth` as the page sees a run r of it: when a key is missing nothing changes; otherwise
   * the deposit modal opens, the run's updates go to the deposit record and its calls are sent,
   * and a throw closes the modal again.
   */
  function AfterAvaxToEth(p: Page, r: Run): (b: Bridging)
    requires WellFormed(p)
    ensures WellFormed(b.page) && b.outcome == r.outcome
    ensures r.outcome.KeyMissing? ==> b.page == p
    ensures !r.outcome.KeyMissing? ==>
      && b.page.depositBoard == ApplyAll(p.depositBoard, r.updates)
      && b.page.sent == p.sent + OnBridgeCalls(r.calls)
      && (b.page.transferModal <==> !r.outcome.Failed?)
    ensures && b.page.usdcAmount == p.usdcAmount && b.page.campaign == p.campaign && b.page.refundBoard == p.refundBoard
            && b.page.refundModal == p.refundModal && b.page.isLoading == p.isLoading
  {
    if r.outcome.KeyMissing? then Bridging(p, r.outcome)
    else
      var p := p.(transferModal := true, depositBoard := ApplyAll(p.depositBoard, r.updates), sent := p.sent + OnBridgeCalls(r.calls));
      Bridging(if r.outcome.Failed? then p.(transferModal := false) else p, r.outcome)
  }

  /**
   * `ethToAvax` as the page sees a run r of it: when a key is missing nothing changes; otherwise
   * the refund modal opens and the run's updates go to the refund record; a transfer is
   * followed by a refresh, and a throw (in the run or the refresh) closes the transaction modal.
   */
  function AfterEthToAvax(p: Page, address: string, r: Run, refresh: Refresh): (b: Bridging)
    requires WellFormed(p)
    ensures WellFormed(b.page) && b.outcome == r.outcome
    ensures r.outcome.KeyMissing? ==> b.page == p
    ensures !r.outcome.KeyMissing? ==>
      && b.page.refundModal
      && b.page.refundBoard == ApplyAll(p.refundBoard, r.updates)
      && b.page.sent == p.sent + OnBridgeCalls(r.calls)
      && (b.page.isLoading <==> p.isLoading && !r.outcome.Failed? && !(r.outcome.Bridged? && refresh.RefreshThrows?))
    ensures && b.page.usdcAmount == p.usdcAmount && b.page.depositBoard == p.depositBoard
            && b.page.transferModal == p.transferModal
    ensures b.page.campaign == if r.outcome.Bridged? then AfterRefresh(p.campaign, address, refresh) else p.campaign
  {
    if r.outcome.KeyMissing? then Bridging(p, r.outcome)
    else
      var p := p.(refundModal := true, refundBoard := ApplyAll(p.refundBoard, r.updates), sent := p.sent + OnBridgeCalls(r.calls));
      var p := match r.outcome
               case Failed(_) => p.(isLoading := false)
               case Bridged(_, _) =>
                 if refresh.RefreshThrows? then p.(isLoading := false)
                 else p.(campaign := AfterRefresh(p.campaign, address, refresh))
               case _ => p;
      Bridging(p, r.outcome)
  }

  // ------------------------------------------------------ the composite actions

  /** A composite action: the result of its campaign-manager action and the outcome of its bridge run, if one ran. */
  datatype Combined = Combined(page: Page, result: ActionResult, bridge: Option<BridgeOutcome>)

  /**
   * `depositFundsCCTP`: the deposit checks, then `avaxToEth` on the typed amount, then, if both
   * keys are configured and the run has ended, `depositFunds` (whatever the run's outcome).
   */
  function AfterDepositCctp(p: Page, address: string, wallet: string, w: BridgeWorld, aw: ActionWorld): (o: Combined)
    requires WellFormed(p)
    ensures WellFormed(o.page)
  {
    match DepositCheck(p.usdcAmount, p.campaign.deadline)
    case Some(alert) => Combined(p, Rejected(alert), None)
    case None =>
      var b := AfterAvaxToEth(p, BridgeRun(AvaxToEth, ParseFloat(p.usdcAmount), wallet, w));
      if b.outcome.Stalled? || !w.privateKeyDefined || !w.infuraKeyDefined then Combined(b.page, NotRun, Some(b.outcome))
      else
        var d := AfterDeposit(b.page, address, true, aw);
        Combined(d.page, d.result, Some(b.outcome))
  }

  /**
   * `refundViaCCTP`: `refund`, then `ethToAvax` of the user's contribution if, in the values the
   * action started with, the contribution and the campaign's amount are positive.
   */
  function AfterRefundCctp(p: Page, address: string, wallet: string, w: BridgeWorld, aw: ActionWorld): (o: Combined)
    requires WellFormed(p)
    ensures WellFormed(o.page)
  {
    var r := AfterRefund(p, address, true, aw);
    if p.campaign.userContribution > 0.0 && p.campaign.currentAmount > 0.0 then
      var run := BridgeRun(EthToAvax, Finite(p.campaign.userContribution), wallet, w);
      var b := AfterEthToAvax(r.page, address, run, aw.refreshAfterBridge);
      Combined(b.page, r.result, Some(b.outcome))
    else Combined(r.page, r.result, None)
  }

  /**
   * `withdrawViaCCTP`: `withdrawFunds`, then `ethToAvax` of the campaign's amount if, in the
   * values the action started with, the campaign has ended and holds USDC.
   */
  function AfterWithdrawCctp(p: Page, address: string, wallet: string, w: BridgeWorld, aw: ActionWorld): (o: Combined)
    requires WellFormed(p)
    ensures WellFormed(o.page)
  {
    var r := AfterWithdraw(p, address, wallet, true, aw);
    if DeadlineBelow(p.campaign.deadline, 0) && p.campaign.currentAmount > 0.0 then
      var run := BridgeRun(EthToAvax, Finite(p.campaign.currentAmount), wallet, w);
      var b := AfterEthToAvax(r.page, address, run, aw.refreshAfterBridge);
      Combined(b.page, r.result, Some(b.outcome))
    else Combined(r.page, r.result, None)
  }

  // ------------------------------------------------------------------- lemmas

  /** With zero minutes left neither a deposit nor a withdrawal passes its checks. */
  lemma {:induction false} LastMinuteBlocksBoth(usdcAmount: string, c: Campaign, wallet: string)
    requires c.deadline == Some(0)
    ensures DepositCheck(usdcAmount, c.deadline).Some?
    ensures WithdrawCheck(c, wallet).Some?
  {
  }

  /** Deposit and withdrawal pass their checks together only when the deadline is NaN. */
  lemma {:induction false} DepositOrWithdraw(usdcAmount: string, c: Campaign, wallet: string)
    requires DepositCheck(usdcAmount, c.deadline).None? && WithdrawCheck(c, wallet).None?
    ensures c.deadline.None?
  {
  }

  /** An amount of only white space is not empty, but `parseFloat` reads NaN from it. */
  lemma {:induction false} WhiteSpaceAmount(usdcAmount: string, deadline: Option<int>)
    requires usdcAmount != [] && forall i :: 0 <= i < |usdcAmount| ==> IsWhiteSpace(usdcAmount[i])
    ensures DepositCheck(usdcAmount, deadline) == Some(AmountNotANumber)
  {
    WhiteSpaceReadsNaN(usdcAmount);
  }

  /** A negative amount passes the deposit checks: only emptiness and NaN are refused. */
  lemma {:induction false} NegativeAmountAccepted(n: nat, deadline: Option<int>)
    requires !DeadlineBelow(deadline, 1)
    ensures DepositCheck("-" + ToRadix(n, 10), deadline).None?
  {
    var digits := ToRadix(n, 10);
    ToRadixCanonical(n, 10);
    var s := "-" + digits;
    assert !IsWhiteSpace(s[0]) && SignSkipped(s) == digits;
    assert DigitValue(digits[0]) < 10;
  }

  /** The creator check ignores the case of the wallet address. */
  lemma {:induction false} CreatorCheckIgnoresCase(c: Campaign, wallet: string)
    ensures WithdrawCheck(c, ToLower(wallet)) == WithdrawCheck(c, wallet)
  {
    assert ToLower(ToLower(wallet)) == ToLower(wallet);
  }

  /**
   * The amount a bridge run sends for a campaign amount decoded from base units is those base
   * units in decimal: `(amount * 1e6).toFixed(0)` undoes `formatUnits(units, 6)`.
   */
  lemma {:induction false} BridgedAmountIsBaseUnits(amount: real, units: nat)
    requires amount * 1000000.0 == units as real
    ensures BaseUnitsText(Finite(amount)) == ToRadix(units, 10)
  {
    assert RoundHalfUp(units as real) == units;
  }

  /**
   * `depositFundsCCTP` deposits on the campaign even when the bridge run failed: the deposit
   * only depends on the keys being configured and the run having ended.
   */
  lemma {:induction false} DepositCctpAfterFailedBridge(p: Page, address: string, wallet: string, w: BridgeWorld, aw: ActionWorld)
    requires WellFormed(p) && DepositCheck(p.usdcAmount, p.campaign.deadline).None?
    requires w.privateKeyDefined && w.infuraKeyDefined
    requires BridgeRun(AvaxToEth, ParseFloat(p.usdcAmount), wallet, w).outcome.Failed?
    ensures var o := AfterDepositCctp(p, address, wallet, w, aw);
      && o.bridge == Some(BridgeRun(AvaxToEth, ParseFloat(p.usdcAmount), wallet, w).outcome)
      && (o.result.Done? <==>
            aw.ethereum && aw.parseUnits(p.usdcAmount).Some? && aw.approveTx.TxMined? && aw.actionTx.TxMined?
            && !aw.refresh.RefreshThrows?)
      && (o.result.Done? ==>
            OnCampaign(DepositToCampaign(aw.parseUnits(p.usdcAmount).value, address)) in o.page.sent)
  {
    var b := AfterAvaxToEth(p, BridgeRun(AvaxToEth, ParseFloat(p.usdcAmount), wallet, w));
    var d := AfterDeposit(b.page, address, true, aw);
    assert AfterDepositCctp(p, address, wallet, w, aw) == Combined(d.page, d.result, Some(b.outcome));
    if d.result.Done? {
      var units := aw.parseUnits(p.usdcAmount).value;
      assert d.page.sent[|b.page.sent| + 1] == OnCampaign(DepositToCampaign(units, address));
    }
  }

  /**
   * A missing key or a stalled run ends `depositFundsCCTP` before `depositFunds`: no campaign
   * call is made, the amount is kept, and the only calls recorded are the run's own; with a
   * key missing the page is left as it was.
   */
  lemma {:induction false} DepositCctpNotRun(p: Page, address: string, wallet: string, w: BridgeWorld, aw: ActionWorld)
    requires WellFormed(p) && DepositCheck(p.usdcAmount, p.campaign.deadline).None?
    requires !w.privateKeyDefined || !w.infuraKeyDefined
             || BridgeRun(AvaxToEth, ParseFloat(p.usdcAmount), wallet, w).outcome.Stalled?
    ensures var o := AfterDepositCctp(p, address, wallet, w, aw);
      var r := BridgeRun(AvaxToEth, ParseFloat(p.usdcAmount), wallet, w);
      && o.result == NotRun
      && o.bridge == Some(r.outcome)
      && o.page.usdcAmount == p.usdcAmount && o.page.campaign == p.campaign
      && o.page.refundBoard == p.refundBoard && o.page.isLoading == p.isLoading
      && o.page.sent == p.sent + (if r.outcome.KeyMissing? then [] else OnBridgeCalls(r.calls))
      && (!w.privateKeyDefined || !w.infuraKeyDefined ==> o.page == p)
  {
    var r := BridgeRun(AvaxToEth, ParseFloat(p.usdcAmount), wallet, w);
    KeysCheckedFirst(AvaxToEth, ParseFloat(p.usdcAmount), wallet, w);
    var b := AfterAvaxToEth(p, r);
    assert AfterDepositCctp(p, address, wallet, w, aw) == Combined(b.page, NotRun, Some(b.outcome));
  }

  /**
   * When everything goes right, `depositFundsCCTP` ends with all six steps of the deposit
   * modal finished, the last of them being the one `TransferStatus.DepositCloseShown` reads,
   * the deposit made, and the amount cleared.
   */
  lemma {:induction false} DepositCctpCompletes(p: Page, address: string, wallet: string, w: BridgeWorld, aw: ActionWorld)
    requires WellFormed(p) && DepositCheck(p.usdcAmount, p.campaign.deadline).None? && AllGoesRight(w)
    requires aw.ethereum && aw.parseUnits(p.usdcAmount).Some? && aw.approveTx.TxMined? && aw.actionTx.TxMined?
    requires !aw.refresh.RefreshThrows?
    ensures var o := AfterDepositCctp(p, address, wallet, w, aw);
      && o.result.Done? && o.bridge.Some? && o.bridge.value.Bridged?
      && (forall s: Step :: Finished(o.page.depositBoard, s))
      && o.page.usdcAmount == ""
  {
    var amount := ParseFloat(p.usdcAmount);
    var run := BridgeRun(AvaxToEth, amount, wallet, w);
    RunOutcome(AvaxToEth, amount, wallet, w);
    TransferredBoard(AvaxToEth, amount, wallet, w, p.depositBoard);
    var b := AfterAvaxToEth(p, run);
    var d := AfterDeposit(b.page, address, true, aw);
    assert AfterDepositCctp(p, address, wallet, w, aw).page == d.page;
    DepositCompletesLastStep(b.page, address, aw);
    forall s: Step
      ensures Finished(d.page.depositBoard, s)
    {
      if s != ApproveAndDeposit {
        assert d.page.depositBoard[s] == ApplyAll(p.depositBoard, run.updates)[s];
      }
    }
  }

  /** A deposit that goes through completes the campaign-manager step and leaves the others alone. */
  lemma {:induction false} DepositCompletesLastStep(p: Page, address: string, aw: ActionWorld)
    requires WellFormed(p) && AfterDeposit(p, address, true, aw).result.Done?
    ensures var after := AfterDeposit(p, address, true, aw).page.depositBoard;
      && after[ApproveAndDeposit].status && !after[ApproveAndDeposit].loading
      && forall s: Step :: s != ApproveAndDeposit ==> after[s] == p.depositBoard[s]
  {
  }

  /**
   * `refundViaCCTP` runs the bridge exactly when the refund checks pass, whether or not the
   * refund itself went through, and sends the user's contribution.
   */
  lemma {:induction false} RefundCctpBridges(p: Page, address: string, wallet: string, w: BridgeWorld, aw: ActionWorld)
    requires WellFormed(p)
    ensures var o := AfterRefundCctp(p, address, wallet, w, aw);
      && o.result == AfterRefund(p, address, true, aw).result
      && (o.bridge.Some? <==> RefundCheck(p.campaign).None?)
      && (o.bridge.Some? ==> o.bridge.value == BridgeRun(EthToAvax, Finite(p.campaign.userContribution), wallet, w).outcome)
      && (RefundCheck(p.campaign).None? && !aw.actionTx.TxMined? ==> o.result == Errored && o.bridge.Some?)
  {
  }

  /**
   * `withdrawViaCCTP` does not repeat the creator check: a wallet that is not the creator's is
   * refused the withdrawal, yet the bridge run of the campaign's amount still starts.
   */
  lemma {:induction false} WithdrawCctpSkipsCreatorCheck(p: Page, address: string, wallet: string, w: BridgeWorld, aw: ActionWorld)
    requires WellFormed(p)
    requires p.campaign.currentAmount > 0.0 && DeadlineBelow(p.campaign.deadline, 0)
    requires ToLower(p.campaign.campaignCreator) != ToLower(wallet)
    ensures var o := AfterWithdrawCctp(p, address, wallet, w, aw);
      && o.result == Rejected(NotCreator)
      && o.bridge == Some(BridgeRun(EthToAvax, Finite(p.campaign.currentAmount), wallet, w).outcome)
  {
  }

  /** `withdrawViaCCTP` runs the bridge exactly when the campaign has ended (NaN is not) and holds USDC. */
  lemma {:induction false} WithdrawCctpBridges(p: Page, address: string, wallet: string, w: BridgeWorld, aw: ActionWorld)
    requires WellFormed(p)
    ensures var o := AfterWithdrawCctp(p, address, wallet, w, aw);
      && o.result == AfterWithdraw(p, address, wallet, true, aw).result
      && (o.bridge.Some? <==> DeadlineBelow(p.campaign.deadline, 0) && p.campaign.currentAmount > 0.0)
  {
  }

  // ------------------------------------------------------------------ the class

  /** An empty campaign, as the page's state starts. */
  function NoCampaign(): Campaign {
    Campaign("", "", "", 0.0, 0.0, Some(0), 0.0, "", "")
  }

  /** The campaign page: its state, its two progress records, and the calls it has sent. */
  class CampaignPage {
    const address: string      // the campaign's address, from the route
    const wallet: string       // the connected wallet's address
    var usdcAmount: string
    var campaign: Campaign
    var transferModal: bool
    var refundModal: bool
    var isLoading: bool
    var sent: seq<Call>
    const depositStatus: TransferStatus
    const refundStatus: TransferStatus

    /** The two modals keep separate records. */
    predicate Valid()
      reads this
    {
      depositStatus != refundStatus
    }

    function State(): (p: Page)
      reads this, depositStatus, refundStatus
      ensures WellFormed(p)
    {
      Page(usdcAmount, campaign, transferModal, refundModal, isLoading, depositStatus.View(), refundStatus.View(), sent)
    }

    constructor (address: string, wallet: string)
      ensures Valid() && this.address == address && this.wallet == wallet
      ensures State() == Page("", NoCampaign(), false, false, false, InitialBoard(), InitialBoard(), [])
    {
      this.address, this.wallet := address, wallet;
      usdcAmount, campaign := "", NoCampaign();
      transferModal, refundModal, isLoading := false, false, false;
      sent := [];
      depositStatus := new TransferStatus();
      refundStatus := new TransferStatus();
    }

    // ---------------------------------------------------- the state setters

    /** `setIsLoading` (`openModal` / `closeModal`). */
    method SetIsLoading(v: bool)
      requires Valid()
      modifies this
      ensures Valid() && State() == old(State()).(isLoading := v)
    {
      isLoading := v;
    }

    /** `setSelectTransferModal`. */
    method SetTransferModal(v: bool)
      requires Valid()
      modifies this
      ensures Valid() && State() == old(State()).(transferModal := v)
    {
      transferModal := v;
    }

    /** `setRefundModal`. */
    method SetRefundModal(v: bool)
      requires Valid()
      modifies this
      ensures Valid() && State() == old(State()).(refundModal := v)
    {
      refundModal := v;
    }

    /** `setUSDCAmount`. */
    method SetUsdcAmount(v: string)
      requires Valid()
      modifies this
      ensures Valid() && State() == old(State()).(usdcAmount := v)
    {
      usdcAmount := v;
    }

    /** Send calls, in order. */
    method Send(calls: seq<Call>)
      requires Valid()
      modifies this
      ensures Valid() && State() == old(State()).(sent := old(State()).sent + calls)
    {
      sent := sent + calls;
    }

    /** `setDepositStatus(prev => …)` with one update. */
    method UpdateDeposit(u: Update)
      requires Valid()
      modifies depositStatus
      ensures Valid() && State() == old(State()).(depositBoard := Apply(old(State()).depositBoard, u))
    {
      match u {
        case Start(s, text) => depositStatus.Start(s, text);
        case Complete(s, description) => depositStatus.Complete(s, description);
      }
    }

    /** `setRefundStatus(prev => …)` with one update. */
    method UpdateRefund(u: Update)
      requires Valid()
      modifies refundStatus
      ensures Valid() && State() == old(State()).(refundBoard := Apply(old(State()).refundBoard, u))
    {
      match u {
        case Start(s, text) => refundStatus.Start(s, text);
        case Complete(s, description) => refundStatus.Complete(s, description);
      }
    }

    /** `getCurrentCampaignData`; it reports whether it threw. */
    method GetCurrentCampaignData(r: Refresh) returns (threw: bool)
      requires Valid()
      modifies this
      ensures Valid() && threw == r.RefreshThrows?
      ensures State() == old(State()).(campaign := AfterRefresh(old(campaign), address, r))
    {
      campaign := AfterRefresh(campaign, address, r);
      threw := r.RefreshThrows?;
    }

    // ------------------------------------------------------------ the actions

    method DepositFunds(byCctp: bool, aw: ActionWorld) returns (result: ActionResult)
      requires Valid()
      modifies this, depositStatus
      ensures Valid()
      ensures var o := AfterDeposit(old(State()), address, byCctp, aw); State() == o.page && result == o.result
      ensures result.Done? ==> depositStatus.DepositCloseShown()
    {
      var check := DepositCheck(usdcAmount, campaign.deadline);
      if check.Some? {
        return Rejected(check.value);
      }
      if !aw.ethereum {
        return NoWallet;
      }
      if !byCctp {
        SetIsLoading(true);
      }
      result := TryDeposit(aw);
    }

    /** The `try` block of `depositFunds`, as `SendDeposit` describes it. */
    method TryDeposit(aw: ActionWorld) returns (result: ActionResult)
      requires Valid()
      modifies this, depositStatus
      ensures Valid()
      ensures var o := SendDeposit(old(State()), address, aw); State() == o.page && result == o.result
    {
      var units := aw.parseUnits(usdcAmount);
      if units.None? {
        SetIsLoading(false);
        SetTransferModal(false);
        return Errored;
      }
      Send(SentCall(aw.approveTx, ApproveUsdc(UsdcGoerli, address, units.value)));
      if !aw.approveTx.TxMined? {
        SetIsLoading(false);
        SetTransferModal(false);
        return Errored;
      }
      Send(SentCall(aw.actionTx, DepositToCampaign(units.value, address)));
      if !aw.actionTx.TxMined? {
        SetIsLoading(false);
        SetTransferModal(false);
        return Errored;
      }
      var hash := aw.actionTx.hash;
      var threw := GetCurrentCampaignData(aw.refresh);
      if threw {
        SetIsLoading(false);
        SetTransferModal(false);
        return Errored;
      }
      UpdateDeposit(Update.Complete(ApproveAndDeposit, DepositConfirmed + hash));
      SetIsLoading(false);
      SetUsdcAmount("");
      result := Done(hash);
    }

    method Refund(byCctp: bool, aw: ActionWorld) returns (result: ActionResult)
      requires Valid()
      modifies this, refundStatus
      ensures Valid()
      ensures var o := AfterRefund(old(State()), address, byCctp, aw); State() == o.page && result == o.result
    {
      var check := RefundCheck(campaign);
      if check.Some? {
        return Rejected(check.value);
      }
      if !aw.ethereum {
        SetIsLoading(false);
        return Errored;
      }
      if byCctp {
        SetRefundModal(true);
      } else {
        SetIsLoading(true);
      }
      result := TryRefund(aw);
    }

    /** The `try` block of `refund` once its modal is open, as `SendRefund` describes it. */
    method TryRefund(aw: ActionWorld) returns (result: ActionResult)
      requires Valid()
      modifies this, refundStatus
      ensures Valid()
      ensures var o := SendRefund(old(State()), address, aw); State() == o.page && result == o.result
    {
      UpdateRefund(Update.Start(ApproveAndDeposit, Some(RefundingText)));
      Send(SentCall(aw.actionTx, RefundFromCampaign(address)));
      if !aw.actionTx.TxMined? {
        SetIsLoading(false);
        return Errored;
      }
      var hash := aw.actionTx.hash;
      var threw := GetCurrentCampaignData(aw.refresh);
      if threw {
        SetIsLoading(false);
        return Errored;
      }
      UpdateRefund(Update.Complete(ApproveAndDeposit, RefundConfirmed + hash));
      SetIsLoading(false);
      result := Done(hash);
    }

    method WithdrawFunds(byCctp: bool, aw: ActionWorld) returns (result: ActionResult)
      requires Valid()
      modifies this, refundStatus
      ensures Valid()
      ensures var o := AfterWithdraw(old(State()), address, wallet, byCctp, aw); State() == o.page && result == o.result
    {
      var check := WithdrawCheck(campaign, wallet);
      if check.Some? {
        return Rejected(check.value);
      }
      if !aw.ethereum {
        SetIsLoading(false);
        return Errored;
      }
      if byCctp {
        SetRefundModal(true);
      } else {
        SetIsLoading(true);
      }
      result := TryWithdraw(aw);
    }

    /** The `try` block of `withdrawFunds` once its modal is open, as `SendWithdraw` describes it. */
    method TryWithdraw(aw: ActionWorld) returns (result: ActionResult)
      requires Valid()
      modifies this, refundStatus
      ensures Valid()
      ensures var o := SendWithdraw(old(State()), address, aw); State() == o.page && result == o.result
    {
      UpdateRefund(Update.Start(ApproveAndDeposit, Some(WithdrawingText)));
      Send(SentCall(aw.actionTx, WithdrawFromCampaign(address)));
      if !aw.actionTx.TxMined? {
        SetIsLoading(false);
        return Errored;
      }
      var hash := aw.actionTx.hash;
      UpdateRefund(Update.Complete(ApproveAndDeposit, WithdrawConfirmed + hash));
      SetIsLoading(false);
      var threw := GetCurrentCampaignData(aw.refresh);
      if threw {
        SetIsLoading(false);
        return Errored;
      }
      result := Done(hash);
    }

    /** `avaxToEth` on the deposit modal. */
    method AvaxToEth(amount: JsNumber, w: BridgeWorld) returns (outcome: BridgeOutcome)
      requires Valid()
      modifies this, depositStatus
      ensures Valid()
      ensures var b := AfterAvaxToEth(old(State()), BridgeRun(Direction.AvaxToEth, amount, wallet, w));
        State() == b.page && outcome == b.outcome
      ensures outcome.Bridged? ==> !depositStatus.DepositCloseShown()
    {
      ghost var before := State();
      ghost var r := BridgeRun(Direction.AvaxToEth, amount, wallet, w);
      var calls;
      outcome, calls := RunOn(depositStatus, Direction.AvaxToEth, amount, w);
      assert outcome.Bridged? ==> !depositStatus.DepositCloseShown() by {
        TransferredBoard(Direction.AvaxToEth, amount, wallet, w, before.depositBoard);
      }
      KeysCheckedFirst(Direction.AvaxToEth, amount, wallet, w);
      ShowDepositRun(before, r, outcome, calls);
    }

    /** What `avaxToEth` does on the page around the run r, once r has updated the deposit record. */
    method ShowDepositRun(ghost before: Page, ghost r: Run, outcome: BridgeOutcome, calls: seq<ContractCall>)
      requires Valid() && WellFormed(before) && outcome == r.outcome && calls == r.calls
      requires r.outcome.KeyMissing? ==> r.updates == []
      requires State() == before.(depositBoard := ApplyAll(before.depositBoard, r.updates))
      modifies this
      ensures Valid() && State() == AfterAvaxToEth(before, r).page
    {
      if !outcome.KeyMissing? {
        SetTransferModal(true);
        Send(OnBridgeCalls(calls));
        if outcome.Failed? {
          SetTransferModal(false);
        }
      }
    }

    /** `ethToAvax` on the refund modal, followed by a refresh once the transfer is done. */
    method EthToAvax(amount: JsNumber, w: BridgeWorld, refresh: Refresh) returns (outcome: BridgeOutcome)
      requires Valid()
      modifies this, refundStatus
      ensures Valid()
      ensures var b := AfterEthToAvax(old(State()), address, BridgeRun(Direction.EthToAvax, amount, wallet, w), refresh);
        State() == b.page && outcome == b.outcome
      ensures outcome.Bridged? ==> refundStatus.RefundCloseShown()
    {
      ghost var before := State();
      ghost var r := BridgeRun(Direction.EthToAvax, amount, wallet, w);
      var calls;
      outcome, calls := RunOn(refundStatus, Direction.EthToAvax, amount, w);
      assert outcome.Bridged? ==> refundStatus.RefundCloseShown() by {
        TransferredBoard(Direction.EthToAvax, amount, wallet, w, before.refundBoard);
      }
      KeysCheckedFirst(Direction.EthToAvax, amount, wallet, w);
      ShowRefundRun(before, r, outcome, calls, refresh);
    }

    /** What `ethToAvax` does on the page around the run r, once r has updated the refund record. */
    method ShowRefundRun(ghost before: Page, ghost r: Run, outcome: BridgeOutcome, calls: seq<ContractCall>, refresh: Refresh)
      requires Valid() && WellFormed(before) && outcome == r.outcome && calls == r.calls
      requires r.outcome.KeyMissing? ==> r.updates == []
      requires State() == before.(refundBoard := ApplyAll(before.refundBoard, r.updates))
      modifies this
      ensures Valid() && State() == AfterEthToAvax(before, address, r, refresh).page
    {
      if !outcome.KeyMissing? {
        SetRefundModal(true);
        Send(OnBridgeCalls(calls));
        if outcome.Failed? {
          SetIsLoading(false);
        } else if outcome.Bridged? {
          var threw := GetCurrentCampaignData(refresh);
          if threw {
            SetIsLoading(false);
          }
        }
      }
    }

    /** A bridge run on one of the two records; the other record and the page's fields stay. */
    method RunOn(tracker: TransferStatus, d: Direction, amount: JsNumber, w: BridgeWorld)
      returns (outcome: BridgeOutcome, calls: seq<ContractCall>)
      requires Valid() && (tracker == depositStatus || tracker == refundStatus)
      modifies tracker
      ensures Valid()
      ensures var r := BridgeRun(d, amount, wallet, w);
        && outcome == r.outcome && calls == r.calls
        && State() == if tracker == depositStatus
                      then old(State()).(depositBoard := ApplyAll(old(State()).depositBoard, r.updates))
                      else old(State()).(refundBoard := ApplyAll(old(State()).refundBoard, r.updates))
    {
      outcome, calls := RunBridge(tracker, d, amount, wallet, w);
    }

    method DepositFundsCctp(w: BridgeWorld, aw: ActionWorld) returns (result: ActionResult, bridge: Option<BridgeOutcome>)
      requires Valid()
      modifies this, depositStatus
      ensures Valid()
      ensures var o := AfterDepositCctp(old(State()), address, wallet, w, aw);
        State() == o.page && result == o.result && bridge == o.bridge
      ensures result.Done? ==> depositStatus.DepositCloseShown()
      ensures bridge.Some? && bridge.value.Bridged? && !result.Done? ==> !depositStatus.DepositCloseShown()
    {
      var check := DepositCheck(usdcAmount, campaign.deadline);
      if check.Some? {
        return Rejected(check.value), None;
      }
      var outcome := AvaxToEth(ParseFloat(usdcAmount), w);
      bridge := Some(outcome);
      if outcome.Stalled? || !w.privateKeyDefined || !w.infuraKeyDefined {
        return NotRun, bridge;
      }
      result := DepositFunds(true, aw);
    }

    method RefundViaCctp(w: BridgeWorld, aw: ActionWorld) returns (result: ActionResult, bridge: Option<BridgeOutcome>)
      requires Valid()
      modifies this, refundStatus
      ensures Valid()
      ensures var o := AfterRefundCctp(old(State()), address, wallet, w, aw);
        State() == o.page && result == o.result && bridge == o.bridge
      ensures bridge.Some? && bridge.value.Bridged? ==> refundStatus.RefundCloseShown()
    {
      var started := campaign;
      result := Refund(true, aw);
      bridge := None;
      if started.userContribution > 0.0 && started.currentAmount > 0.0 {
        var outcome := EthToAvax(Finite(started.userContribution), w, aw.refreshAfterBridge);
        bridge := Some(outcome);
      }
    }

    method WithdrawViaCctp(w: BridgeWorld, aw: ActionWorld) returns (result: ActionResult, bridge: Option<BridgeOutcome>)
      requires Valid()
      modifies this, refundStatus
      ensures Valid()
      ensures var o := AfterWithdrawCctp(old(State()), address, wallet, w, aw);
        State() == o.page && result == o.result && bridge == o.bridge
      ensures bridge.Some? && bridge.value.Bridged? ==> refundStatus.RefundCloseShown()
    {
      var started := campaign;
      result := WithdrawFunds(true, aw);
      bridge := None;
      if DeadlineBelow(started.deadline, 0) && started.currentAmount > 0.0 {
        var outcome := EthToAvax(Finite(started.currentAmount), w, aw.refreshAfterBridge);
        bridge := Some(outcome);
      }
    }

    /** `closeDepositCCTPModal`: the deposit modal closes and its record is reset. */
    method CloseDepositModal()
      requires Valid()
      modifies this, depositStatus
      ensures Valid()
      ensures State() == old(State()).(transferModal := false, depositBoard := InitialBoard())
    {
      transferModal := false;
      depositStatus.Reset();
    }

    /** `closeRefundCCTPModal`: the refund modal closes and its record is reset. */
    method CloseRefundModal()
      requires Valid()
      modifies this, refundStatus
      ensures Valid()
      ensures State() == old(State()).(refundModal := false, refundBoard := InitialBoard())
    {
      refundModal := false;
      refundStatus.Reset();
    }
  }
}
