# Cross-chain crowdfunding: a verified model of its pages

This project models the crowdfunding front end's three pages in Dafny. Campaigns live on a campaign manager contract. USDC reaches a campaign either directly or through Circle's CCTP burn-and-mint bridge between Avalanche Fuji and Ethereum Goerli.

- **Home page** (`src/app/page.tsx`). `getAllCampaigns` reads the manager's parallel field arrays and turns them into `Campaign` records: the hex deadline becomes whole minutes left, and 6-decimal base units become USDC. `filteredCampaigns` is the search box. Both are in module `Projection`, and the card's deadline label is there too.
- **Create page** (`src/pages/createCampaign.tsx`). `createCampaign` checks the four fields in order, encodes the deadline as a `0x` hex Unix-seconds text, then clears the form and goes home. This is module `CreateCampaign`.
- **Campaign page** (`src/pages/campaignDetails.tsx`) is split across three modules:
  - `Actions` holds the checks and effects of `depositFunds`, `refund` and `withdrawFunds`, the refresh `getCurrentCampaignData`, the three composite CCTP actions and the Close buttons of the two progress modals. Each action is a function from the page's state to its next state and result. Class `Actions.CampaignPage` performs the same action step by step on its fields, and each of its methods is proved equal to that function.
  - `Bridge` models one run of `avaxToEth` or `ethToAvax`: approve, burn, find the `MessageSent` log, poll for the attestation, and receive. Its `BridgeRun` says what the run sends and how it ends. `RunBridge` performs the run on a mutable progress record.
  - `Steps` is the six-step progress record behind each CCTP modal (`CCTPTransferStatus`). It has a mutable class form and a map view, `Board`.
- **`Polling`** models the two polling loops, `waitForTransaction` and the attestation loop, plus the search for the burn's log.
- **`JsText`** holds the JavaScript conversions the pages rely on, each following ECMA-262:
  - `parseInt` (section 19.2.5);
  - `parseFloat` (section 19.2.4);
  - `Number.prototype.toString(radix)`;
  - `toFixed(0)`;
  - the Date time clip (section 21.4.1.31);
  - ASCII `toLowerCase` and `includes`.

The outside world is a parameter. Wallet presence, transaction outcomes, receipts in fetch order, attestation replies, the clock, and web3 helpers such as `keccak256`, `padLeft` and ABI decoding all come in as values (`BridgeWorld`, `ActionWorld`, `Refresh`). A poll that never ends is a finite list of replies that runs out, which gives the `Stalled` and `StillWaiting` outcomes. The page's record of calls holds each call whose `send` resolved: a call whose signature, gas estimate or send threw is not in it, while one that was sent and then failed while being waited for is.

Two behaviours of the code worth noting:
- `waitForTransaction` keeps polling only while a receipt's `status` is the string `"FALSE"`. It returns at once on a null receipt. It does not poll "until mined", and it does not surface a reverted transaction as a failure.
- The six steps are ordered within one run (`Steps.InOrderProgress`). The record is not reset when a run starts, however, so a step left in progress by an earlier failed run stays in progress (`Steps.StaleRecordShowsTwoBusy`).

## Model

| member | source | states |
|---|---|---|
| JsText.TrimStart | src/app/page.tsx:105 | the result is a suffix of the input that starts with no white space |
| JsText.DigitPrefix | src/app/page.tsx:105 | the longest prefix of radix digits: every character is a digit, and the next one is not |
| JsText.DigitPrefixStops | src/pages/createCampaign.tsx:87-88 | reading digits stops at the first character that is no digit (the "." of a fractional hex text) |
| JsText.DigitValue | src/app/page.tsx:105-106 | a character's digit value is at most 36 |
| JsText.DigitChar | src/app/page.tsx:106 | the digit character written for d has digit value d |
| JsText.ToRadix | src/pages/createCampaign.tsx:87 | definition of `n.toString(radix)` for a whole number n ≥ 0, with no contract of its own; `JsText.ToRadixValue`, `JsText.ToRadixCanonical` and `JsText.CanonicalRoundTrip` state what it means |
| JsText.IntToRadix | src/app/page.tsx:106 | definition of `n.toString(radix)` for a signed whole number (a minus sign, then the magnitude), with no contract of its own; `Projection.DecodeDeadline`, `Projection.DecimalReadAsHex` and `CreateCampaign.FormattedParses` state what it gives on the page's values |
| JsText.ToRadixValue | src/app/page.tsx:106 | `n.toString(radix)` read back in that radix is n |
| JsText.ToRadixCanonical | src/app/page.tsx:106 | `n.toString(radix)` is canonical (non-empty, valid digits, no leading zero unless n is 0), and a positive n starts with a non-zero digit |
| JsText.CanonicalRoundTrip | src/app/page.tsx:105-106 | a canonical digit text read as a number and written again in its radix is the same text |
| JsText.CanonicalInWiderRadix | src/app/page.tsx:105-108 | a canonical text in one radix is canonical in any wider radix |
| JsText.AppendDigitRoundTrip | src/app/page.tsx:106 | writing out a number with one more digit appends that digit |
| JsText.ReadUnsignedDigits | src/app/page.tsx:105 | a non-empty text of valid digits, with no sign or prefix, reads as its value |
| JsText.ParseInt | src/app/page.tsx:105-108 | definition of `parseInt(s, radix)` (leading white space, a sign, `0x` in radix 16 or with no radix, the longest digit prefix, NaN as `None`), with no contract of its own; `JsText.ParseIntOfDigits`, `JsText.HexLiteralParses`, `JsText.HexDigitsRead` and `CreateCampaign.HexNaNReadsNaN` state what it means |
| JsText.ParseIntOfDigits | src/app/page.tsx:105-108 | `parseInt` of a non-empty all-digit text gives its value in the radix (radix 10 when absent) |
| JsText.HexLiteralParses | src/pages/createCampaign.tsx:87-88 | `parseInt("0x" + n.toString(16) + tail, 16)` is n whenever the tail starts with no hex digit |
| JsText.HexDigitsRead | src/pages/createCampaign.tsx:87-88 | the hex digits after the prefix are exactly `n.toString(16)` |
| JsText.ParseFloat | src/pages/campaignDetails.tsx:368-371 | definition of `parseFloat(s)` on leading white space, a sign, then `Infinity` or the longest decimal numeral, with no contract of its own; `JsText.ReadsNaNExactly`, `JsText.ParseFloatOfInteger`, `JsText.SignedNumeral` and `JsText.WhiteSpaceReadsNaN` state what it means |
| JsText.ReadsNaN | src/pages/campaignDetails.tsx:808-811 | definition of `Number.isNaN(parseFloat(s))` without computing the number, with no contract of its own; `JsText.ReadsNaNExactly` proves it agrees with `JsText.ParseFloat` |
| JsText.ReadsNaNExactly | src/pages/campaignDetails.tsx:368-373 | `ReadsNaN(s)` holds if and only if `parseFloat(s)` is NaN |
| JsText.UnsignedNaN | src/pages/campaignDetails.tsx:368-373 | unsigned decimal reading is NaN if and only if the text does not start a numeral |
| JsText.WhiteSpaceReadsNaN | src/pages/campaignDetails.tsx:368-373 | a text of white space only (the empty text included) reads as NaN |
| JsText.ParseFloatOfInteger | src/pages/campaignDetails.tsx:620 | `parseFloat` of a decimal integer text, with or without a leading minus, is that integer |
| JsText.UnsignedOfInteger | src/pages/campaignDetails.tsx:620 | the decimal text of n starts with a decimal digit and reads as n |
| JsText.SignedNumeral | src/pages/campaignDetails.tsx:368-373 | a numeral with an optional leading minus reads as its value, negated after the minus |
| JsText.ToFixed0 | src/pages/campaignDetails.tsx:620 | definition of `x.toFixed(0)` ("NaN", "Infinity", or the sign and the rounded magnitude in decimal), with no contract of its own; `JsText.RoundHalfUp` states the rounding and `Actions.BridgedAmountIsBaseUnits` what it gives on the page's amounts |
| JsText.RoundHalfUp | src/pages/campaignDetails.tsx:620 | the nearest integer, with ties rounded up: within one half of the input |
| JsText.TimeClip | src/app/page.tsx:108-109 | a Date holds a time exactly when it is within 8.64e15 ms; the value is truncated toward zero |
| JsText.ToLower | src/app/page.tsx:35-38 | definition of `toLowerCase` as ASCII lower-casing character by character, with no contract of its own; `Projection.UpperCaseQueryFindsNothing` and `Actions.CreatorCheckIgnoresCase` state its effect on the page's checks |
| JsText.Includes | src/app/page.tsx:35-38 | definition of `hay.includes(needle)`: the needle occurs at some position; no contract of its own; `JsText.IncludesChars` states what a match implies |
| JsText.IncludesChars | src/app/page.tsx:35-38 | every character of a query that `includes` finds occurs in the text searched |
| Projection.FromBaseUnits | src/app/page.tsx:121-126 | the USDC amount times 10^6 is the base-unit amount, and it is not negative |
| Projection.DecodeDeadline | src/app/page.tsx:105-108 | the hex, `toString(16)` and radix-less `parseInt` round trip of the deadline gives back the seconds the contract stored |
| Projection.DecimalReadAsHex | src/app/page.tsx:105-108 | a decimal digit text read in radix 16 and written back in radix 16 is the same text, which the radix-less `parseInt` reads as the number |
| Projection.MinutesRemaining | src/app/page.tsx:108-115 | minutes exist if and only if the deadline is a valid Date; they are the floor of (deadline − now) in minutes; they are negative exactly when the deadline has passed |
| Projection.ProjectedFrom | src/app/page.tsx:95-129 | the relation between a row of the reply and the record pushed for it (text fields and address kept, amounts scaled from base units, minutes from the decoded deadline); a predicate, established by `Projection.ProjectOne` and `Projection.ProjectedPrefixFrom` |
| Projection.ProjectOne | src/app/page.tsx:95-129 | the record keeps the text fields and the address, scales each amount from base units, and holds the floored minutes left (none past the Date range) |
| Projection.ProjectedPrefix | src/app/page.tsx:94-131 | the first n campaigns: n entries, entry j being campaign j |
| Projection.ProjectedPrefixFrom | src/app/page.tsx:94-131 | each of the first n campaigns is projected from its own row and address |
| Projection.HomePage.constructor | src/app/page.tsx:28 | the campaign list starts empty |
| Projection.HomePage.GetAllCampaigns | src/app/page.tsx:69-136 | without a wallet the list is unchanged; with one, it holds one campaign per description, each projected from its own row |
| Projection.DeadlineLabel | src/app/page.tsx:268-270 | the card reads "Campaign ended" exactly when the minutes left are negative (not when they are NaN) |
| Projection.Matches | src/app/page.tsx:34-40 | the filter's test: the lower-cased title or description includes the query as typed; a predicate, used by `Projection.KeepMatching` and `Projection.FilteredCampaigns` |
| Projection.KeepMatching | src/app/page.tsx:34-40 | a campaign is kept if and only if its lower-cased title or description contains the query, as many times as it occurs in the list; no more campaigns than before |
| Projection.FilteredCampaigns | src/app/page.tsx:31-40 | an empty query shows every campaign; otherwise a campaign shows if and only if it matches |
| Projection.FilterKeepsOrder | src/app/page.tsx:31-40 | the filtered list is a subsequence of the list: the order is kept |
| Projection.SubsequenceOfSelf | src/app/page.tsx:31-33 | the unfiltered list is a subsequence of itself |
| Projection.KeepMatchingSubsequence | src/app/page.tsx:34-40 | keeping the matches gives a subsequence |
| Projection.FilterIdempotent | src/app/page.tsx:31-40 | filtering the filtered list again changes nothing |
| Projection.KeepMatchingAllMatch | src/app/page.tsx:34-40 | a list whose campaigns all match is kept whole |
| Projection.UpperCaseQueryFindsNothing | src/app/page.tsx:35-38 | a query with an upper-case letter matches no campaign, because only the fields are lower-cased |
| CreateCampaign.ValidateFields | src/pages/createCampaign.tsx:68-79 | each alert is named if and only if its check is the first that fails (NaN and 0 are "empty"); none if and only if title and description are non-empty, the target is positive and the duration is at least 5 minutes |
| CreateCampaign.SecondsOfMillis | src/pages/createCampaign.tsx:84-87 | the whole seconds of a valid millisecond time are the floor of the exact quotient |
| CreateCampaign.HexTimestampParses | src/pages/createCampaign.tsx:87-88 | the hex text of a non-negative time reads back in radix 16 as its whole seconds, with the fraction dropped |
| CreateCampaign.FormattedParses | src/pages/createCampaign.tsx:89-90 | `"0x" + n.toString(16)` reads back as n |
| CreateCampaign.FutureTimeMs | src/pages/createCampaign.tsx:82-84 | definition of `new Date(now + minutes·60000).getTime()`, NaN outside the Date range, with no contract of its own; `CreateCampaign.FutureMillis` and `CreateCampaign.EncodeOutOfRange` state what it gives |
| CreateCampaign.HexTimestamp | src/pages/createCampaign.tsx:85-86 | definition of `"0x" + (ms / 1000).toString(16)`, with no contract of its own; `CreateCampaign.HexTimestampParses` states that parsing it keeps only the whole seconds |
| CreateCampaign.EncodeDeadline | src/pages/createCampaign.tsx:82-90 | definition of the three values `createCampaign` computes, with no contract of its own; `CreateCampaign.EncodeInRange`, `CreateCampaign.IntegerTimestampIsSeconds`, `CreateCampaign.FormattedReadsBack` and `CreateCampaign.EncodeOutOfRange` state what they are |
| CreateCampaign.EncodeInRange | src/pages/createCampaign.tsx:81-90 | for a valid duration within the Date range, the integer timestamp is the floor of (now + duration) in Unix seconds, and the formatted hex reads back as it |
| CreateCampaign.FutureMillis | src/pages/createCampaign.tsx:84-86 | the future time is a valid, non-negative Date whose whole seconds are the floor of the exact quotient |
| CreateCampaign.IntegerTimestampIsSeconds | src/pages/createCampaign.tsx:87-88 | the integer timestamp is the future time's whole seconds |
| CreateCampaign.FormattedReadsBack | src/pages/createCampaign.tsx:89-90 | the formatted timestamp is `"0x"` plus those seconds in hex and reads back as them |
| CreateCampaign.EncodeOutOfRange | src/pages/createCampaign.tsx:81-90 | beyond the Date range, or for an infinite duration, all three values are NaN |
| CreateCampaign.HexNaNReadsNaN | src/pages/createCampaign.tsx:87-88 | `parseInt("0xNaN", 16)` is NaN |
| CreateCampaign.CreateCampaignPage.constructor | src/pages/createCampaign.tsx:13-16 | the form starts cleared (empty texts, amounts 0) and the page has not navigated |
| CreateCampaign.CreateCampaignPage.ClearAndGoHome | src/pages/createCampaign.tsx:119-125 | the form is cleared and the page is at home |
| CreateCampaign.CreateCampaignPage.Create | src/pages/createCampaign.tsx:65-131 | a failed check reports its alert; a setup throw reports an error (the page shows `Error: …`); a missing wallet does nothing and shows no alert; all three leave the form as it was; otherwise the deadline is encoded from the duration entered, the form is cleared and the page goes home |
| Steps.StepAt | src/pages/campaignDetails.tsx:61-95 | the k-th step has position k |
| Steps.IndexOf | src/pages/campaignDetails.tsx:61-95 | a step's position is below six |
| Steps.StepAtIndexOf | src/pages/campaignDetails.tsx:61-95 | position and step are inverse |
| Steps.InitialBoard | src/pages/campaignDetails.tsx:62-95 | every step has its initial text, is not reached and is not loading |
| Steps.Apply | src/pages/campaignDetails.tsx:564-571 | only the updated step changes; it is reached, loading exactly for a start, and its text is set by a completion or by a start that brings one |
| Steps.ApplyAll | src/pages/campaignDetails.tsx:563-796 | a sequence of updates keeps every step in the record |
| Steps.ApplyAllSnoc | src/pages/campaignDetails.tsx:563-796 | one more update applies after the earlier ones |
| Steps.Progress | src/pages/campaignDetails.tsx:563-796 | the state of step k after n ordered updates (complete with its text, loading, or as before), with no contract of its own; `Steps.InOrderProgress` proves that an ordered run leaves every step so |
| Steps.InOrderProgress | src/pages/campaignDetails.tsx:563-796 | after an ordered run, the steps before the last one started are complete with their completion text, the last one started is loading, and the later steps are untouched |
| Steps.ProgressStep | src/pages/campaignDetails.tsx:563-796 | one more ordered update moves each step on as `Progress` says |
| Steps.ProgressOnStart | src/pages/campaignDetails.tsx:564-571 | starting step k leaves it reached and loading with its text |
| Steps.ProgressOnComplete | src/pages/campaignDetails.tsx:635-643 | completing step k leaves it reached, not loading, with the completion's text |
| Steps.ProgressElsewhere | src/pages/campaignDetails.tsx:563-796 | an update of another step leaves step k where it was |
| Steps.AtMostOneBusy | src/pages/campaignDetails.tsx:563-796 | from the initial record, an ordered run leaves at most one step loading: the one started last |
| Steps.StaleRecordShowsTwoBusy | src/pages/campaignDetails.tsx:552-571 | a record left loading by a failed run is not reset by the next run, so two steps show as loading |
| Steps.SameBoard | src/pages/campaignDetails.tsx:61-95 | two complete records that agree on every step are equal |
| Steps.TransferStatus.View | src/pages/campaignDetails.tsx:61-95 | the record's view has an entry for every step |
| Steps.TransferStatus.constructor | src/pages/campaignDetails.tsx:61-95 | the record starts as the initial record |
| Steps.TransferStatus.Reset | src/pages/campaignDetails.tsx:166-236 | the record is back to the initial record |
| Steps.TransferStatus.Put | src/pages/campaignDetails.tsx:564-571 | exactly one step's state is replaced |
| Steps.TransferStatus.Start | src/pages/campaignDetails.tsx:564-571 | the record becomes the functional start update of the old record |
| Steps.TransferStatus.Complete | src/pages/campaignDetails.tsx:635-643 | the record becomes the functional completion update of the old record |
| Steps.TransferStatus.DepositCloseShown | src/pages/campaignDetails.tsx:1414-1415 | the deposit modal's Close button shows exactly when its campaign-manager step is reached and no longer loading |
| Steps.TransferStatus.RefundCloseShown | src/pages/campaignDetails.tsx:1598-1599 | the refund modal's Close button shows exactly when its transfer step is reached and no longer loading |
| Polling.WaitFrom | src/pages/campaignDetails.tsx:537-550 | the wait returns the first fetch that is not pending, with all earlier fetches pending; it throws at the first throwing fetch; it keeps waiting only while every fetch is pending |
| Polling.WaitForTransaction | src/pages/campaignDetails.tsx:537-550 | the loop returns the first receipt that is not `"FALSE"` (a null first receipt returns at once, after one fetch) and agrees with `WaitFrom` |
| Polling.AttestationFrom | src/pages/campaignDetails.tsx:730-741 | the poll ends at the first complete reply, with its signature, after only incomplete ones |
| Polling.AwaitAttestation | src/pages/campaignDetails.tsx:730-741 | the loop polls at least once, ends at the first complete reply, and agrees with `AttestationFrom` |
| Polling.FirstWithTopic | src/pages/campaignDetails.tsx:699-702 | the position found holds the topic, and no earlier log does |
| Polling.FindLog | src/pages/campaignDetails.tsx:699-702 | no log is found if and only if no log has the topic; otherwise it is the first that has it |
| Bridge.Confirm | src/pages/campaignDetails.tsx:622-632 | a call is confirmed if and only if it was sent and a fetch settled it after only pending ones; the wait throws if and only if the send or such a fetch threw |
| Bridge.SendAndWait | src/pages/campaignDetails.tsx:622-632 | sending and waiting gives the confirmation `Confirm` describes |
| Bridge.BridgeRun | src/pages/campaignDetails.tsx:552-801 | definition of a run of `avaxToEth` (and of `ethToAvax`, lines 841-1084, by its direction): the key checks, then the five steps; no contract of its own; `Bridge.RunShaped`, `Bridge.RunCalls`, `Bridge.RunOutcome`, `Bridge.KeysCheckedFirst`, `Bridge.BridgedExactly`, `Bridge.HaltedRunBoard` and `Bridge.TransferredBoard` state what it means, and `Bridge.RunBridge` performs it |
| Bridge.MessageOf | src/pages/campaignDetails.tsx:695-706 | definition of the message bytes read from the burn receipt's `MessageSent` log (none on a throw, a null receipt, no log or a failed decode), with no contract of its own; `Bridge.NoMessageNoMint` and `Bridge.BridgedExactly` state what it means |
| Bridge.SignatureOf | src/pages/campaignDetails.tsx:707-741 | definition of the attestation poll on the keccak256 of the message, with no contract of its own; `Bridge.BridgedExactly` states that the mint uses the first complete attestation |
| Bridge.BaseUnitsText | src/pages/campaignDetails.tsx:620 | definition of `(x * 1e6).toFixed(0)`, with no contract of its own; `Actions.BridgedAmountIsBaseUnits` states that it gives the base units back, and `Bridge.BurnStageFacts` and `Bridge.CallsInOrder` that approve and burn use it |
| Bridge.RunShaped | src/pages/campaignDetails.tsx:552-801 | a run's updates are ordered; a run halted in step s made 2·index(s)+1 updates; a transfer made 11 to Ethereum and 10 to Avalanche; a missing key makes none |
| Bridge.InOrderSnoc | src/pages/campaignDetails.tsx:563-796 | extending an ordered list by the next step's update keeps it ordered |
| Bridge.FromApprove | src/pages/campaignDetails.tsx:622-652 | definition of step 1 (approve the messenger), with no contract of its own; `Bridge.ApproveShaped` and `Bridge.HaltedInApproval` state what it does |
| Bridge.FromBurn | src/pages/campaignDetails.tsx:653-694 | definition of step 2 (`depositForBurn`), with no contract of its own; `Bridge.BurnShaped` and `Bridge.BurnStageFacts` state what it does |
| Bridge.FromMessage | src/pages/campaignDetails.tsx:695-730 | definition of step 3 (read the message), with no contract of its own; `Bridge.MessageShaped`, `Bridge.MessageStageFacts` and `Bridge.NoMessageNoMint` state what it does |
| Bridge.FromSignature | src/pages/campaignDetails.tsx:731-762 | definition of step 4 (poll for the attestation), with no contract of its own; `Bridge.SignatureShaped` states what it does |
| Bridge.FromReceive | src/pages/campaignDetails.tsx:763-796 | definition of step 5 (`receiveMessage`, then the completion and, toward Ethereum, the start of `approveAndDeposit`), with no contract of its own; `Bridge.ReceiveShaped` and `Bridge.TransferredBoard` state what it does |
| Bridge.ApproveShaped | src/pages/campaignDetails.tsx:622-643 | a run from the approval step on has the shape `RunShaped` states |
| Bridge.BurnShaped | src/pages/campaignDetails.tsx:645-684 | a run from the burn step on has that shape |
| Bridge.MessageShaped | src/pages/campaignDetails.tsx:686-720 | a run from the message step on has that shape |
| Bridge.SignatureShaped | src/pages/campaignDetails.tsx:722-752 | a run from the signature step on has that shape |
| Bridge.ReceiveShaped | src/pages/campaignDetails.tsx:754-787 | a run from the receive step on has that shape |
| Bridge.HaltedInApproval | src/pages/campaignDetails.tsx:622-632 | a run halted in approval after starting it has that shape |
| Bridge.ApprovedInOrder | src/pages/campaignDetails.tsx:635-652 | completing approval and starting the burn keeps the updates ordered |
| Bridge.MessageStageFacts | src/pages/campaignDetails.tsx:686-787 | steps 3 to 5 send `receiveMessage` only with a found message, and transfer exactly when they go right |
| Bridge.BurnStageFacts | src/pages/campaignDetails.tsx:645-787 | steps 2 to 5 send the burn with the route's messenger, amount, domain, padded wallet and token, and transfer exactly when they go right |
| Bridge.RunCalls | src/pages/campaignDetails.tsx:552-801 | a run's calls are a prefix of approve, burn, receive, with the route's contracts and the base-unit amount; a call whose `estimateGas` or `send` threw is not among them |
| Bridge.RunOutcome | src/pages/campaignDetails.tsx:552-801 | a run transfers if and only if everything goes right, and it then makes the three transfer calls |
| Bridge.KeysCheckedFirst | src/pages/campaignDetails.tsx:553-561 | a missing key ends the run before anything is done, with the alert naming the first missing key; otherwise no key alert |
| Bridge.BridgedExactly | src/pages/campaignDetails.tsx:686-787 | a transfer mints with the burn's message and the first complete attestation, after the three calls in order |
| Bridge.NoMessageNoMint | src/pages/campaignDetails.tsx:696-706 | without a decodable `MessageSent` log, `receiveMessage` is never sent, and a confirmed burn fails in step 3 |
| Bridge.CallsInOrder | src/pages/campaignDetails.tsx:622-787 | each call is there only when its send went through and follows the confirmation of the one before; the burn uses the approved amount and the padded, lower-cased wallet; the receive uses the burn's message |
| Bridge.Sending | src/pages/campaignDetails.tsx:623-628 | a call is recorded if and only if its `estimateGas` and `send` resolved |
| Bridge.HaltedRunBoard | src/pages/campaignDetails.tsx:563-800 | after a run halted in step s, s is loading, earlier steps are complete, and later steps are untouched: nothing is rolled back |
| Bridge.HaltedBoard | src/pages/campaignDetails.tsx:563-800 | the same for any ordered run that halts |
| Bridge.TransferredBoard | src/pages/campaignDetails.tsx:563-796 | after a transfer the five bridge steps are complete; to Ethereum the deposit step is loading, and to Avalanche it is untouched |
| Bridge.BridgedBoard | src/pages/campaignDetails.tsx:563-796 | the same for any ordered run that transfers |
| Bridge.Track | src/pages/campaignDetails.tsx:564-571 | one update of the record extends the list of updates made |
| Bridge.RunBridge | src/pages/campaignDetails.tsx:552-801 | the run on a mutable record ends and sends the calls as `BridgeRun` says, and leaves the record as its updates applied to the old one |
| Bridge.BurnStep | src/pages/campaignDetails.tsx:645-684 | the burn step and what follows behave as `FromBurn` says |
| Bridge.MessageStep | src/pages/campaignDetails.tsx:686-720 | the message step and what follows behave as `FromMessage` says |
| Bridge.SignatureStep | src/pages/campaignDetails.tsx:722-752 | the signature poll and what follows behave as `FromSignature` says |
| Bridge.ReceiveStep | src/pages/campaignDetails.tsx:754-787 | the receive step behaves as `FromReceive` says |
| Actions.DeadlineBelow | src/pages/campaignDetails.tsx:819 | `campaigns.deadline < bound` on minutes that may be NaN, false for NaN; a predicate, used by `Actions.DepositCheck`, `Actions.LastMinuteBlocksBoth` and `Actions.WithdrawCctpBridges` |
| Actions.DepositCheck | src/pages/campaignDetails.tsx:364-381 | each deposit alert is named if and only if its check is the first that fails: empty amount, NaN amount, fewer than one minute left (NaN minutes pass) |
| Actions.RefundCheck | src/pages/campaignDetails.tsx:468-476 | a refund is refused exactly when the user contributed nothing or the campaign holds nothing, in that order |
| Actions.WithdrawCheck | src/pages/campaignDetails.tsx:1103-1118 | a withdrawal passes exactly when the campaign holds USDC, has not `deadline >= 0` (NaN counts as ended), and the wallet matches the creator ignoring case |
| Actions.AfterRefresh | src/pages/campaignDetails.tsx:300-361 | a loaded reply replaces the campaign by its projection at the page's address; otherwise the campaign stays |
| Actions.OnBridgeCalls | src/pages/campaignDetails.tsx:552-801 | each bridge call that reached the chain is recorded as a page call, in order |
| Actions.SentCall | src/pages/campaignDetails.tsx:406-415 | a campaign-manager or token call is recorded unless its send threw; one that is sent and then fails while waiting is still recorded |
| Actions.DepositCalls | src/pages/campaignDetails.tsx:405-438 | no call when `parseUnits` throws or the approval is refused; approve then deposit, with the same base units, when both are mined; the deposit only after a mined approval |
| Actions.AfterDeposit | src/pages/campaignDetails.tsx:363-465 | rejected if and only if a check fails; done if and only if the checks pass, a wallet is present and `parseUnits`, both transactions and the refresh succeed; then it approves and deposits the same base units, completes the deposit step, clears the amount and refreshes; otherwise the amount, record and campaign stay, and an error closes both modals; a success leaves the deposit modal as it was; the refund record and modal never change; the calls recorded are those `DepositCalls` lists |
| Actions.DepositCaught | src/pages/campaignDetails.tsx:458-463 | definition of the catch of `depositFunds` (both modals close), with no contract of its own; `Actions.SendDeposit` and `Actions.AfterDeposit` state the state it leaves |
| Actions.SendDeposit | src/pages/campaignDetails.tsx:388-464 | the `try` block: done if and only if every call succeeds, with the effects above; a throw closes both modals and leaves the amount, record and campaign alone; the refund record and modal stay; the calls recorded are those `DepositCalls` lists |
| Actions.CompleteOverridesStart | src/pages/campaignDetails.tsx:482-529 | completing a step after starting it is the same as completing it |
| Actions.OpenModal | src/pages/campaignDetails.tsx:483-487 | definition of the modal a refund or withdrawal opens (the refund CCTP modal for a CCTP action, else the transaction modal), with no contract of its own; `Actions.AfterRefund` and `Actions.AfterWithdraw` state the modal each path leaves |
| Actions.AfterRefund | src/pages/campaignDetails.tsx:467-535 | rejected if and only if a check fails; done if and only if the checks pass, a wallet is present, and the transaction and refresh succeed; the refund call is sent and the step completed; an error after the start leaves the step loading with the refund text; no wallet only clears the spinner; the refund modal opens for a CCTP refund; the refund call is recorded unless it threw before being sent; the campaign changes only on success; the deposit record and modal never change |
| Actions.SendRefund | src/pages/campaignDetails.tsx:482-534 | the `try` block of `refund`: the same outcomes once the modal is open; the refund call is recorded unless it threw before being sent; the campaign changes only on success; the deposit record and modal and the refund modal stay |
| Actions.AfterWithdraw | src/pages/campaignDetails.tsx:1101-1176 | rejected if and only if a check fails; a mined withdrawal completes the step even when the later refresh throws; done if and only if that refresh succeeds too; a withdrawal not mined leaves the step loading with the withdrawal text; no wallet only clears the spinner; the refund modal opens for a CCTP withdrawal; the withdraw call is recorded unless it threw before being sent; the campaign changes only on success; the deposit record and modal never change |
| Actions.SendWithdraw | src/pages/campaignDetails.tsx:1124-1175 | the `try` block of `withdrawFunds`: the same outcomes once the modal is open; a withdrawal not mined leaves the step loading with the withdrawal text; the withdraw call is recorded unless it threw before being sent; the campaign changes only on success; the deposit record and modal and the refund modal stay |
| Actions.AfterAvaxToEth | src/pages/campaignDetails.tsx:552-801 | a missing key changes nothing; otherwise the run's updates go to the deposit record and its calls are sent; the modal stays open unless the run threw; nothing else changes |
| Actions.AfterEthToAvax | src/pages/campaignDetails.tsx:841-1084 | a missing key changes nothing; otherwise the refund modal opens, with the run's updates and calls; a transfer refreshes the campaign; a throw in the run or the refresh closes the transaction modal |
| Actions.AfterDepositCctp | src/pages/campaignDetails.tsx:803-839 | the state stays well formed; its meaning is in the lemmas below |
| Actions.AfterRefundCctp | src/pages/campaignDetails.tsx:1086-1099 | the state stays well formed; its meaning is in `RefundCctpBridges` |
| Actions.AfterWithdrawCctp | src/pages/campaignDetails.tsx:1178-1192 | the state stays well formed; its meaning is in the two lemmas below |
| Actions.LastMinuteBlocksBoth | src/pages/campaignDetails.tsx:379-381 | with zero minutes left, neither a deposit nor a withdrawal passes its checks |
| Actions.DepositOrWithdraw | src/pages/campaignDetails.tsx:379-381 | deposit and withdrawal checks both pass only when the minutes left are NaN |
| Actions.WhiteSpaceAmount | src/pages/campaignDetails.tsx:364-373 | an amount of white space only is not empty but is refused as not a number |
| Actions.NegativeAmountAccepted | src/pages/campaignDetails.tsx:364-381 | a negative amount passes the deposit checks |
| Actions.CreatorCheckIgnoresCase | src/pages/campaignDetails.tsx:1113-1118 | the withdrawal checks give the same answer for the lower-cased wallet |
| Actions.BridgedAmountIsBaseUnits | src/pages/campaignDetails.tsx:909 | the amount a bridge run sends for a decoded campaign amount is its base units in decimal |
| Actions.DepositCctpNotRun | src/pages/campaignDetails.tsx:823-834 | with a key missing or the bridge run stalled, `depositFundsCCTP` makes no campaign call and keeps the amount; the only calls recorded are the run's, and with a key missing the page is unchanged |
| Actions.DepositCctpAfterFailedBridge | src/pages/campaignDetails.tsx:826-834 | with both keys set, `depositFundsCCTP` still deposits on the campaign after the bridge run failed |
| Actions.DepositCctpCompletes | src/pages/campaignDetails.tsx:803-839 | when everything goes right, all six deposit steps end complete, the deposit is done and the amount cleared |
| Actions.DepositCompletesLastStep | src/pages/campaignDetails.tsx:446-457 | a deposit that goes through completes the deposit step and leaves the others alone |
| Actions.RefundCctpBridges | src/pages/campaignDetails.tsx:1086-1099 | the bridge runs if and only if the refund checks pass, even when the refund failed, and it sends the user's contribution |
| Actions.WithdrawCctpSkipsCreatorCheck | src/pages/campaignDetails.tsx:1178-1192 | a wallet that is not the creator's is refused, yet the bridge run of the campaign's amount still starts |
| Actions.WithdrawCctpBridges | src/pages/campaignDetails.tsx:1178-1192 | the bridge runs if and only if the campaign has ended (NaN does not count) and holds USDC |
| Actions.CampaignPage.State | src/pages/campaignDetails.tsx:55-140 | the page's state has complete progress records |
| Actions.NoCampaign | src/pages/campaignDetails.tsx:132-142 | the campaign the page starts with (empty texts, zero amounts, deadline 0); a constant, stated by `Actions.CampaignPage.constructor` |
| Actions.CampaignPage.constructor | src/pages/campaignDetails.tsx:55-140 | the page starts with no amount, an empty campaign, closed modals, two initial records and no calls |
| Actions.CampaignPage.SetIsLoading | src/pages/campaignDetails.tsx:148-154 | only the transaction modal flag changes |
| Actions.CampaignPage.SetTransferModal | src/pages/campaignDetails.tsx:563-565 | only the deposit modal flag changes |
| Actions.CampaignPage.SetRefundModal | src/pages/campaignDetails.tsx:852-854 | only the refund modal flag changes |
| Actions.CampaignPage.SetUsdcAmount | src/pages/campaignDetails.tsx:446-457 | only the typed amount changes |
| Actions.CampaignPage.Send | src/pages/campaignDetails.tsx:406-438 | the calls that reached the chain are appended to those already recorded |
| Actions.CampaignPage.UpdateDeposit | src/pages/campaignDetails.tsx:564-571 | only the deposit record changes, by one update |
| Actions.CampaignPage.UpdateRefund | src/pages/campaignDetails.tsx:482-497 | only the refund record changes, by one update |
| Actions.CampaignPage.GetCurrentCampaignData | src/pages/campaignDetails.tsx:300-361 | only the campaign changes, as `AfterRefresh` says; it reports whether the refresh threw |
| Actions.CampaignPage.DepositFunds | src/pages/campaignDetails.tsx:363-465 | the page ends as `AfterDeposit` says, with its result; a deposit that is done shows the deposit modal's Close button (lines 1414-1415) |
| Actions.CampaignPage.TryDeposit | src/pages/campaignDetails.tsx:388-464 | the page ends as `SendDeposit` says, with its result |
| Actions.CampaignPage.Refund | src/pages/campaignDetails.tsx:467-535 | the page ends as `AfterRefund` says, with its result |
| Actions.CampaignPage.TryRefund | src/pages/campaignDetails.tsx:482-534 | the page ends as `SendRefund` says, with its result |
| Actions.CampaignPage.WithdrawFunds | src/pages/campaignDetails.tsx:1101-1176 | the page ends as `AfterWithdraw` says, with its result |
| Actions.CampaignPage.TryWithdraw | src/pages/campaignDetails.tsx:1124-1175 | the page ends as `SendWithdraw` says, with its result |
| Actions.CampaignPage.AvaxToEth | src/pages/campaignDetails.tsx:552-801 | the page ends as `AfterAvaxToEth` says for the run `BridgeRun` describes; after a transfer the deposit step is still loading, so the Close button (lines 1414-1415) is not shown yet |
| Actions.CampaignPage.ShowDepositRun | src/pages/campaignDetails.tsx:563-565 | the modal and calls around a run on the deposit record end as `AfterAvaxToEth` says |
| Actions.CampaignPage.EthToAvax | src/pages/campaignDetails.tsx:841-1084 | the page ends as `AfterEthToAvax` says for the run `BridgeRun` describes; a transfer shows the refund modal's Close button (lines 1598-1599) |
| Actions.CampaignPage.ShowRefundRun | src/pages/campaignDetails.tsx:852-860 | the modal, calls and refresh around a run on the refund record end as `AfterEthToAvax` says |
| Actions.CampaignPage.RunOn | src/pages/campaignDetails.tsx:552-801 | a run on one record changes only that record, by the run's updates |
| Actions.CampaignPage.DepositFundsCctp | src/pages/campaignDetails.tsx:803-839 | the page ends as `AfterDepositCctp` says; the Close button (lines 1414-1415) shows once the deposit is done, and not after a transfer whose deposit then failed |
| Actions.CampaignPage.RefundViaCctp | src/pages/campaignDetails.tsx:1086-1099 | the page ends as `AfterRefundCctp` says; a transfer shows the refund modal's Close button (lines 1598-1599) |
| Actions.CampaignPage.WithdrawViaCctp | src/pages/campaignDetails.tsx:1178-1192 | the page ends as `AfterWithdrawCctp` says; a transfer shows the refund modal's Close button (lines 1598-1599) |
| Actions.CampaignPage.CloseDepositModal | src/pages/campaignDetails.tsx:156-159 | the deposit modal closes and its record is reset; nothing else changes |
| Actions.CampaignPage.CloseRefundModal | src/pages/campaignDetails.tsx:161-164 | the refund modal closes and its record is reset; nothing else changes |

## Left out

- Floating point. Amounts and times are exact reals and integers. `formatUnits` followed by `parseFloat` is exact division by 10^6, with no rounding to the nearest double.
- `toFixed(0)` for magnitudes of 10^21 and above, which JavaScript prints in exponent form: the model always writes the rounded integer.
- The fraction digits of `(ms / 1000).toString(16)` are a parameter, and `CreateCampaign.HexTimestamp` does not compute them. `parseInt(…, 16)` ignores them in every case modelled.
- `toLowerCase` outside ASCII: only `A`–`Z` are lowered.
- Outside code comes in as parameters: ethers' `parseUnits` is a function from text to an optional integer; web3's `padLeft`, `keccak256` and ABI decoding are functions in `BridgeWorld`.
- Wallet and network I/O: `connectWallet`, `switchToGoerliNetwork`, gas estimation, provider and signer setup, and `fetch`. Their results are inputs: whether a wallet is injected, whether setup throws, the transaction outcomes, receipts and replies.
- A web3 `send` that rejects after its transaction was broadcast (reverted or timed out) may have reached the chain, but the model records it like a send that threw.
- Sleeps, `async` interleaving, `console.log`, and the text of `alert` pop-ups beyond the alert strings the checks return.
- Rendering: JSX and the `loadedData` state. Of the `depositByCCTP` and `refundByCCTP` flags only the choice of modal is modelled (`byCctp`); the `Transaction sent!` alerts they suppress are left out with the other alert texts.
- Endless polling: receipts and attestation replies are finite lists. A list that runs out gives `StillWaiting`, `StillPending` or `Stalled` instead of a loop that never returns.
- The third deposit check (`parseFloat` returning null or undefined) is left out because it can never fire.
- `createCampaign` does not call the campaign manager (the call is absent from the page), so the model makes no call either.
- `Projection.HomePage.GetAllCampaigns`: the failure paths of the contract reads are not modelled. The parallel arrays are required to cover every description (`Projection.Covers`), as the page assumes. The clock is read once (`nowMs`) for all rows, while the page calls `new Date()` for each campaign, so a row read after a minute boundary could show one minute less there.
- `CreateCampaign.CreateCampaignPage.Create`: it does not model the transaction modal (`openModal` / `closeModal`) around the setup.
- `Actions.AfterDepositCctp`, `Actions.AfterRefundCctp`, `Actions.AfterWithdrawCctp`: their own contracts only keep the state well formed. What they do is stated by `Actions.DepositCctpNotRun`, `Actions.DepositCctpAfterFailedBridge`, `Actions.DepositCctpCompletes`, `Actions.RefundCctpBridges`, `Actions.WithdrawCctpSkipsCreatorCheck` and `Actions.WithdrawCctpBridges`.
