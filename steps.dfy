/**
 * The record behind the two CCTP progress modals (`CCTPTransferStatus`): six steps, each with
 * a description, a `status` (the step has been reached) and a `loading` flag (the step is in
 * progress). A run of the bridge starts and completes the steps one after another; the
 * modal's Close button restores the initial record.
 */
module Steps {
  import opened JsText

  /** The six steps, in the order a bridge run takes them. */
  datatype Step = ApproveTokens | BurnTokens | RetrieveMessage | FetchSignature | TransferFunds | ApproveAndDeposit

  const StepCount: nat := 6

  /** The k-th step of a run, counting from 0. */
  function StepAt(k: nat): (s: Step)
    requires k < StepCount
    ensures IndexOf(s) == k
  {
    [ApproveTokens, BurnTokens, RetrieveMessage, FetchSignature, TransferFunds, ApproveAndDeposit][k]
  }

  /** The position of a step in a run. */
  function IndexOf(s: Step): (k: nat)
    ensures k < StepCount
  {
    match s
    case ApproveTokens => 0
    case BurnTokens => 1
    case RetrieveMessage => 2
    case FetchSignature => 3
    case TransferFunds => 4
    case ApproveAndDeposit => 5
  }

  datatype StepState = StepState(description: string, status: bool, loading: bool)

  const ApproveTokensText: string := "Approving messenger contract to withdraw"
  const BurnTokensText: string := "Deposit tokens for burn"
  const RetrieveMessageText: string := "Retrieve message bytes from logs"
  const FetchSignatureText: string := "Fetching attestation signature"
  const TransferFundsText: string := "Transferring the funds to destination chain and address"
  const ApproveAndDepositText: string := "Approving and depositing funds...."

  /** The text a step shows before it has been reached. */
  function InitialDescription(s: Step): string {
    match s
    case ApproveTokens => ApproveTokensText
    case BurnTokens => BurnTokensText
    case RetrieveMessage => RetrieveMessageText
    case FetchSignature => FetchSignatureText
    case TransferFunds => TransferFundsText
    case ApproveAndDeposit => ApproveAndDepositText
  }

  /** A step's state in the initial record: its initial text, neither reached nor in progress. */
  function Untouched(s: Step): StepState {
    StepState(InitialDescription(s), false, false)
  }

  /** The whole record, step by step. */
  type Board = map<Step, StepState>

  predicate Total(b: Board) {
    forall s: Step :: s in b
  }

  /** The initial record, which a reset restores. */
  function InitialBoard(): (b: Board)
    ensures Total(b)
    ensures forall s: Step :: b[s] == Untouched(s)
  {
    map s: Step | true :: Untouched(s)
  }

  /**
   * One functional update of the record: `Start` sets status and loading (and, for the
   * campaign-manager step of refund and withdraw, a new text); `Complete` sets the text,
   * status true and loading false.
   */
  datatype Update =
    | Start(step: Step, text: Option<string>)
    | Complete(step: Step, description: string)

  /**
   * The record after one update: the updated step is reached, loading exactly when it was
   * started, and every other step is as it was (the update spreads the previous record).
   */
  function Apply(b: Board, u: Update): (b': Board)
    requires Total(b)
    ensures Total(b')
    ensures forall s: Step :: s != u.step ==> b'[s] == b[s]
    ensures b'[u.step].status && (b'[u.step].loading <==> u.Start?)
    ensures u.Start? && u.text.None? ==> b'[u.step].description == b[u.step].description
    ensures u.Start? && u.text.Some? ==> b'[u.step].description == u.text.value
    ensures u.Complete? ==> b'[u.step].description == u.description
  {
    match u
    case Start(s, text) =>
      var d := if text.Some? then text.value else b[s].description;
      b[s := StepState(d, true, true)]
    case Complete(s, d) => b[s := StepState(d, true, false)]
  }

  /** The record after a list of updates, applied left to right. */
  function ApplyAll(b: Board, us: seq<Update>): (b': Board)
    requires Total(b)
    ensures Total(b')
    decreases |us|
  {
    if us == [] then b else Apply(ApplyAll(b, us[..|us| - 1]), us[|us| - 1])
  }

  lemma {:induction false} ApplyAllSnoc(b: Board, us: seq<Update>, u: Update)
    requires Total(b)
    ensures ApplyAll(b, us + [u]) == Apply(ApplyAll(b, us), u)
  {
    assert (us + [u])[..|us|] == us;
  }

  // -------------------------------------------------------- ordered bridge runs

  /**
   * The updates of one bridge run: update i concerns step i/2, even positions start a step
   * (keeping its text) and odd positions complete it, so step k+1 is only started once step
   * k is complete.
   */
  predicate InOrder(us: seq<Update>) {
    && |us| <= 2 * StepCount
    && forall i :: 0 <= i < |us| ==>
         && us[i].step == StepAt(i / 2)
         && (us[i].Start? <==> i % 2 == 0)
         && (us[i].Start? ==> us[i].text.None?)
  }

  /**
   * Step k after n ordered updates: complete, with the text of its completion, once n has
   * passed position 2k + 1; in progress with its old text when its start was the last update;
   * and as it was before that.
   */
  function Progress(b: Board, us: seq<Update>, k: nat): StepState
    requires Total(b) && k < StepCount
  {
    if 2 * k + 1 < |us| then StepState(CompletionText(us[2 * k + 1]), true, false)
    else if 2 * k + 1 == |us| then StepState(b[StepAt(k)].description, true, true)
    else b[StepAt(k)]
  }

  /** The text a completion sets (a start sets none of its own here). */
  function CompletionText(u: Update): string {
    if u.Complete? then u.description else ""
  }

  /**
   * After an ordered run, the steps before the last one started are complete, the last one
   * started is in progress when its completion has not come yet, and the steps after it are as
   * they were.
   */
  lemma {:induction false} InOrderProgress(b: Board, us: seq<Update>, k: nat)
    requires Total(b) && InOrder(us) && k < StepCount
    ensures ApplyAll(b, us)[StepAt(k)] == Progress(b, us, k)
    decreases |us|
  {
    if us != [] {
      var n := |us| - 1;
      var prefix := us[..n];
      assert InOrder(prefix) by {
        forall i | 0 <= i < |prefix|
          ensures prefix[i] == us[i]
        {
        }
      }
      InOrderProgress(b, prefix, k);
      assert us == prefix + [us[n]];
      ProgressStep(b, prefix, us[n], k);
    }
  }

  /** One more update of an ordered run moves step k on as Progress says. */
  lemma {:induction false} ProgressStep(b: Board, prefix: seq<Update>, u: Update, k: nat)
    requires Total(b) && k < StepCount && |prefix| < 2 * StepCount
    requires u.step == StepAt(|prefix| / 2) && (u.Start? <==> |prefix| % 2 == 0) && (u.Start? ==> u.text.None?)
    requires ApplyAll(b, prefix)[StepAt(k)] == Progress(b, prefix, k)
    ensures ApplyAll(b, prefix + [u])[StepAt(k)] == Progress(b, prefix + [u], k)
  {
    var n := |prefix|;
    ApplyAllSnoc(b, prefix, u);
    if n / 2 != k {
      ProgressElsewhere(b, prefix, u, k);
    } else if n % 2 == 0 {
      ProgressOnStart(b, prefix, u, k);
    } else {
      ProgressOnComplete(b, prefix, u, k);
    }
  }

  lemma {:induction false} ProgressOnStart(b: Board, prefix: seq<Update>, u: Update, k: nat)
    requires Total(b) && k < StepCount && |prefix| == 2 * k
    requires u.step == StepAt(k) && u.Start? && u.text.None?
    requires ApplyAll(b, prefix)[StepAt(k)] == Progress(b, prefix, k)
    ensures Apply(ApplyAll(b, prefix), u)[StepAt(k)] == Progress(b, prefix + [u], k)
  {
  }

  lemma {:induction false} ProgressOnComplete(b: Board, prefix: seq<Update>, u: Update, k: nat)
    requires Total(b) && k < StepCount && |prefix| == 2 * k + 1
    requires u.step == StepAt(k) && u.Complete?
    requires ApplyAll(b, prefix)[StepAt(k)] == Progress(b, prefix, k)
    ensures Apply(ApplyAll(b, prefix), u)[StepAt(k)] == Progress(b, prefix + [u], k)
  {
    assert (prefix + [u])[2 * k + 1] == u;
  }

  lemma {:induction false} ProgressElsewhere(b: Board, prefix: seq<Update>, u: Update, k: nat)
    requires Total(b) && k < StepCount && (|prefix| < 2 * k || |prefix| > 2 * k + 1)
    requires IndexOf(u.step) != k
    requires ApplyAll(b, prefix)[StepAt(k)] == Progress(b, prefix, k)
    ensures Apply(ApplyAll(b, prefix), u)[StepAt(k)] == Progress(b, prefix + [u], k)
  {
    if 2 * k + 1 < |prefix| {
      assert (prefix + [u])[2 * k + 1] == prefix[2 * k + 1];
    }
  }

  /** A step is busy when its loading flag (the modal's spinner) is set. */
  predicate Busy(b: Board, s: Step)
    requires Total(b)
  {
    b[s].loading
  }

  /** A step is finished when it has been reached and its spinner is gone. */
  predicate Finished(b: Board, s: Step)
    requires Total(b)
  {
    b[s].status && !b[s].loading
  }

  /**
   * From the initial record, an ordered run leaves at most one step loading, and that is the
   * step started last.
   */
  lemma {:induction false} AtMostOneBusy(us: seq<Update>, s: Step)
    requires InOrder(us)
    requires Busy(ApplyAll(InitialBoard(), us), s)
    ensures |us| % 2 == 1 && s == StepAt(|us| / 2)
  {
    var k := IndexOf(s);
    StepAtIndexOf(s);
    InOrderProgress(InitialBoard(), us, k);
    assert !Untouched(s).loading;
    assert 2 * k + 1 == |us|;
    HalfOfOdd(|us|, k);
  }

  lemma {:induction false} HalfOfOdd(n: nat, k: nat)
    requires n == 2 * k + 1
    ensures n % 2 == 1 && n / 2 == k
  {
  }

  /** StepAt and IndexOf are inverse. */
  lemma {:induction false} StepAtIndexOf(s: Step)
    ensures StepAt(IndexOf(s)) == s
  {
    match s
    case ApproveTokens =>
    case BurnTokens =>
    case RetrieveMessage =>
    case FetchSignature =>
    case TransferFunds =>
    case ApproveAndDeposit =>
  }

  /**
   * The record is not reset when a run starts (only the Close button resets it): a step left
   * loading by an earlier, failed run is still loading when the next run starts the first step.
   */
  lemma {:induction false} StaleRecordShowsTwoBusy()
    ensures var stale := InitialBoard()[BurnTokens := StepState(BurnTokensText, true, true)];
      var after := ApplyAll(stale, [Start(ApproveTokens, None)]);
      InOrder([Start(ApproveTokens, None)]) && Busy(after, ApproveTokens) && Busy(after, BurnTokens)
  {
    var stale := InitialBoard()[BurnTokens := StepState(BurnTokensText, true, true)];
    assert [Start(ApproveTokens, None)][..0] == [];
  }

  // ----------------------------------------------------------------- the record

  /** The mutable record of one modal: one field per step. */
  class TransferStatus {
    var approveTokens: StepState
    var burnTokens: StepState
    var retrieveMessage: StepState
    var fetchSignature: StepState
    var transferFunds: StepState
    var approveAndDeposit: StepState

    /** The field that holds step s. */
    function Field(s: Step): StepState
      reads this
    {
      match s
      case ApproveTokens => approveTokens
      case BurnTokens => burnTokens
      case RetrieveMessage => retrieveMessage
      case FetchSignature => fetchSignature
      case TransferFunds => transferFunds
      case ApproveAndDeposit => approveAndDeposit
    }

    /** The record as a map from steps to their states. */
    function View(): (b: Board)
      reads this
      ensures Total(b)
    {
      map s: Step | true :: Field(s)
    }

    constructor ()
      ensures View() == InitialBoard()
    {
      approveTokens := Untouched(ApproveTokens);
      burnTokens := Untouched(BurnTokens);
      retrieveMessage := Untouched(RetrieveMessage);
      fetchSignature := Untouched(FetchSignature);
      transferFunds := Untouched(TransferFunds);
      approveAndDeposit := Untouched(ApproveAndDeposit);
      new;
      SameBoard(View(), InitialBoard());
    }

    /** `resetDepositCCTPModal` / `resetRefundCCTPModal`: every step back to its initial state. */
    method Reset()
      modifies this
      ensures View() == InitialBoard()
    {
      approveTokens := Untouched(ApproveTokens);
      burnTokens := Untouched(BurnTokens);
      retrieveMessage := Untouched(RetrieveMessage);
      fetchSignature := Untouched(FetchSignature);
      transferFunds := Untouched(TransferFunds);
      approveAndDeposit := Untouched(ApproveAndDeposit);
      SameBoard(View(), InitialBoard());
    }

    /** Replace one step's state, leaving the other five alone. */
    method Put(s: Step, v: StepState)
      modifies this
      ensures View() == old(View())[s := v]
    {
      match s {
        case ApproveTokens => approveTokens := v;
        case BurnTokens => burnTokens := v;
        case RetrieveMessage => retrieveMessage := v;
        case FetchSignature => fetchSignature := v;
        case TransferFunds => transferFunds := v;
        case ApproveAndDeposit => approveAndDeposit := v;
      }
      SameBoard(View(), old(View())[s := v]);
    }

    /** `set…Status(prev => ({...prev, [s]: {...prev[s], status: true, loading: true}}))`, with an optional new text. */
    method Start(s: Step, text: Option<string>)
      modifies this
      ensures View() == Apply(old(View()), Update.Start(s, text))
    {
      var d := if text.Some? then text.value else View()[s].description;
      Put(s, StepState(d, true, true));
    }

    /** `set…Status(prev => ({...prev, [s]: {...prev[s], description, status: true, loading: false}}))`. */
    method Complete(s: Step, description: string)
      modifies this
      ensures View() == Apply(old(View()), Update.Complete(s, description))
    {
      Put(s, StepState(description, true, false));
    }

    /** The Close button of the deposit modal is shown once the campaign-manager step is done. */
    predicate DepositCloseShown()
      reads this
      ensures DepositCloseShown() <==> Finished(View(), ApproveAndDeposit)
    {
      approveAndDeposit.status && !approveAndDeposit.loading
    }

    /** The Close button of the refund modal is shown once the transfer step is done. */
    predicate RefundCloseShown()
      reads this
      ensures RefundCloseShown() <==> Finished(View(), TransferFunds)
    {
      transferFunds.status && !transferFunds.loading
    }
  }

  /** Two total records that agree on every step are the same record. */
  lemma {:induction false} SameBoard(a: Board, b: Board)
    requires Total(a) && Total(b) && forall s: Step :: a[s] == b[s]
    ensures a == b
  {
  }
}
