/**
 * The loops of a bridge run that wait on remote services, each over the finite sequence of
 * replies the service gives (a real run may poll forever; the model then reports that the
 * replies ran out), and the lookup of the `MessageSent(bytes)` log in a burn receipt.
 */
module Polling {
  import opened JsText

  /** An event log of a receipt: its topics (topic 0 is the event's hash) and its data. */
  datatype Log = Log(topics: seq<string>, data: string)

  /** A transaction receipt: its status, as the loop compares it, and its logs. */
  datatype Receipt = Receipt(status: string, logs: seq<Log>)

  /** One `getTransactionReceipt` call: a receipt, null (not mined yet), or a thrown error. */
  datatype ReceiptReply = Fetched(receipt: Option<Receipt>) | FetchThrows

  /** The reply that keeps `waitForTransaction` looping: a receipt whose status is the string "FALSE". */
  predicate Pending(reply: ReceiptReply) {
    reply.Fetched? && reply.receipt.Some? && reply.receipt.value.status == "FALSE"
  }

  datatype Wait =
    | Returned(receipt: Option<Receipt>, fetches: nat)   // the receipt returned, after that many fetches
    | Threw(fetches: nat)                                // a fetch threw
    | StillWaiting                                       // every reply was pending

  /**
   * What the receipt loop does from reply i on: the first reply from i that is not pending
   * ends it, after as many fetches as its position; pending replies to the end leave it waiting.
   */
  function WaitFrom(replies: seq<ReceiptReply>, i: nat): (w: Wait)
    requires i <= |replies|
    ensures w.Returned? ==>
      && i < w.fetches <= |replies| && replies[w.fetches - 1] == Fetched(w.receipt)
      && !Pending(replies[w.fetches - 1])
      && forall j :: i <= j < w.fetches - 1 ==> Pending(replies[j])
    ensures w.Threw? ==>
      && i < w.fetches <= |replies| && replies[w.fetches - 1] == FetchThrows
      && forall j :: i <= j < w.fetches - 1 ==> Pending(replies[j])
    ensures w.StillWaiting? <==> forall j :: i <= j < |replies| ==> Pending(replies[j])
    decreases |replies| - i
  {
    if i == |replies| then StillWaiting
    else if Pending(replies[i]) then WaitFrom(replies, i + 1)
    else match replies[i]
      case FetchThrows => Threw(i + 1)
      case Fetched(receipt) => Returned(receipt, i + 1)
  }

  /**
   * `waitForTransaction`: fetch, and fetch again while the receipt is non-null with status
   * "FALSE". It returns the first reply that is not pending, after exactly as many fetches as
   * that reply's position; a null first receipt is returned after one fetch.
   */
  method WaitForTransaction(replies: seq<ReceiptReply>) returns (w: Wait)
    ensures w.Returned? ==>
      && 1 <= w.fetches <= |replies| && replies[w.fetches - 1] == Fetched(w.receipt)
      && !Pending(replies[w.fetches - 1])
      && forall j :: 0 <= j < w.fetches - 1 ==> Pending(replies[j])
    ensures w.Threw? ==>
      && 1 <= w.fetches <= |replies| && replies[w.fetches - 1] == FetchThrows
      && forall j :: 0 <= j < w.fetches - 1 ==> Pending(replies[j])
    ensures w.StillWaiting? <==> forall j :: 0 <= j < |replies| ==> Pending(replies[j])
    ensures |replies| > 0 && replies[0] == Fetched(None) ==> w == Returned(None, 1)
    ensures w == WaitFrom(replies, 0)
  {
    if replies == [] {
      return StillWaiting;
    }
    var i := 0;
    var reply := replies[0];
    while Pending(reply)
      invariant 0 <= i < |replies| && reply == replies[i]
      invariant forall j :: 0 <= j < i ==> Pending(replies[j])
      invariant WaitFrom(replies, 0) == WaitFrom(replies, i)
      decreases |replies| - i
    {
      if i + 1 == |replies| {
        return StillWaiting;
      }
      i := i + 1;
      reply := replies[i];
    }
    match reply
    case FetchThrows => w := Threw(i + 1);
    case Fetched(receipt) => w := Returned(receipt, i + 1);
  }

  // ------------------------------------------------------------ the attestation

  /** One poll of the attestation service: the JSON reply's `status` and `attestation` fields, or a throw. */
  datatype AttestationReply = Reply(status: Option<string>, attestation: Option<string>) | ReplyThrows

  predicate Complete(reply: AttestationReply) {
    reply.Reply? && reply.status == Some("complete")
  }

  /** A reply that keeps the loop polling: it arrived, and its status is not "complete". */
  predicate Incomplete(reply: AttestationReply) {
    reply.Reply? && reply.status != Some("complete")
  }

  datatype Attestation =
    | Attested(signature: Option<string>, polls: nat)   // the attestation field of the complete reply
    | PollThrew(polls: nat)                              // a fetch or its JSON decoding threw
    | StillPending                                       // no reply was complete

  /**
   * What the attestation loop does from reply i on, once reply i - 1 (if any) was not complete:
   * the first complete reply gives its `attestation`, a throw ends the loop, and incomplete
   * replies to the end leave it pending.
   */
  function AttestationFrom(replies: seq<AttestationReply>, i: nat): (a: Attestation)
    requires i <= |replies|
    ensures a.Attested? ==>
      && i < a.polls <= |replies| && Complete(replies[a.polls - 1])
      && a.signature == replies[a.polls - 1].attestation
      && forall j :: i <= j < a.polls - 1 ==> Incomplete(replies[j])
    ensures a.PollThrew? ==>
      && i < a.polls <= |replies| && replies[a.polls - 1] == ReplyThrows
      && forall j :: i <= j < a.polls - 1 ==> Incomplete(replies[j])
    ensures a.StillPending? <==> forall j :: i <= j < |replies| ==> Incomplete(replies[j])
    decreases |replies| - i
  {
    if i == |replies| then StillPending
    else match replies[i]
      case ReplyThrows => PollThrew(i + 1)
      case Reply(status, attestation) =>
        if status == Some("complete") then Attested(attestation, i + 1) else AttestationFrom(replies, i + 1)
  }

  /**
   * The attestation loop: the response starts as `{status: "pending"}`, so the service is
   * polled at least once; polling goes on until a reply's status is "complete", whose
   * `attestation` field is the signature, and every earlier reply was not complete.
   */
  method AwaitAttestation(replies: seq<AttestationReply>) returns (a: Attestation)
    ensures a.Attested? ==>
      && 1 <= a.polls <= |replies| && Complete(replies[a.polls - 1])
      && a.signature == replies[a.polls - 1].attestation
      && forall j :: 0 <= j < a.polls - 1 ==> Incomplete(replies[j])
    ensures a.PollThrew? ==>
      && 1 <= a.polls <= |replies| && replies[a.polls - 1] == ReplyThrows
      && forall j :: 0 <= j < a.polls - 1 ==> Incomplete(replies[j])
    ensures a.StillPending? <==> forall j :: 0 <= j < |replies| ==> Incomplete(replies[j])
    ensures a == AttestationFrom(replies, 0)
  {
    var status: Option<string> := Some("pending");
    var attestation: Option<string> := None;
    var i := 0;
    while status != Some("complete")
      invariant 0 <= i <= |replies|
      invariant i == 0 ==> status == Some("pending")
      invariant i > 0 ==> replies[i - 1] == Reply(status, attestation)
      invariant forall j :: 0 <= j < i - 1 ==> Incomplete(replies[j])
      invariant status != Some("complete") ==> AttestationFrom(replies, 0) == AttestationFrom(replies, i)
      invariant status == Some("complete") ==> AttestationFrom(replies, 0) == Attested(attestation, i)
      decreases |replies| - i
    {
      if i == |replies| {
        return StillPending;
      }
      match replies[i] {
        case ReplyThrows =>
          return PollThrew(i + 1);
        case Reply(s, att) =>
          status, attestation := s, att;
      }
      i := i + 1;
    }
    a := Attested(attestation, i);
  }

  // ------------------------------------------------------------- the log lookup

  /** `l.topics[0] === topic`: a log without topics never matches. */
  predicate HasTopic(l: Log, topic: string) {
    |l.topics| > 0 && l.topics[0] == topic
  }

  /** The position of the first log with the topic, or the number of logs when there is none. */
  function FirstWithTopic(logs: seq<Log>, topic: string): (k: nat)
    ensures k <= |logs|
    ensures k < |logs| ==> HasTopic(logs[k], topic)
    ensures forall j :: 0 <= j < k ==> !HasTopic(logs[j], topic)
    decreases |logs|
  {
    if logs == [] then 0
    else if HasTopic(logs[0], topic) then 0
    else 1 + FirstWithTopic(logs[1..], topic)
  }

  /** `logs.find(l => l.topics[0] === topic)`: the first log with the topic, if any. */
  function FindLog(logs: seq<Log>, topic: string): (found: Option<Log>)
    ensures found.None? <==> forall j :: 0 <= j < |logs| ==> !HasTopic(logs[j], topic)
    ensures found.Some? ==> exists k :: 0 <= k < |logs| && found.value == logs[k] && HasTopic(logs[k], topic)
                                   && forall j :: 0 <= j < k ==> !HasTopic(logs[j], topic)
  {
    var k := FirstWithTopic(logs, topic);
    if k < |logs| then Some(logs[k]) else None
  }
}
