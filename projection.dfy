/**
 * The home page's view of the campaigns: `getAllCampaigns` turns the campaign manager's
 * parallel field arrays into `Campaign` records (deadline decoded and turned into minutes
 * left, USDC amounts scaled from 6-decimal base units), and `filteredCampaigns` is the
 * search box's filter over them.
 */
module Projection {
  import opened JsText

  /**
   * A campaign as the pages display it. Amounts are in USDC (base units / 10^6); `deadline`
   * is the number of whole minutes left, `None` when the deadline is no valid Date (NaN).
   */
  datatype Campaign = Campaign(
    title: string,
    description: string,
    campaignSCAddress: string,
    targetAmount: real,
    currentAmount: real,
    deadline: Option<int>,
    userContribution: real,
    status: string,
    campaignCreator: string)

  /** One campaign's fields as `getCampaignData` returns them: uint256 amounts in base units, the deadline in Unix seconds. */
  datatype RawCampaign = RawCampaign(
    title: string,
    description: string,
    targetAmount: nat,
    currentAmount: nat,
    deadline: nat,
    userContribution: nat,
    status: string,
    proposer: string)

  /** The reply of `getCampaignData`: one array per field, entry i of each belonging to campaign i. */
  datatype CampaignData = CampaignData(
    title: seq<string>,
    description: seq<string>,
    targetAmount: seq<nat>,
    currentAmount: seq<nat>,
    deadline: seq<nat>,
    userContribution: seq<nat>,
    status: seq<string>,
    proposer: seq<string>)

  /** Every array of the reply, and the address list, has an entry for each description. */
  predicate Covers(addresses: seq<string>, d: CampaignData) {
    var n := |d.description|;
    |addresses| >= n && |d.title| >= n && |d.targetAmount| >= n && |d.currentAmount| >= n
    && |d.deadline| >= n && |d.userContribution| >= n && |d.status| >= n && |d.proposer| >= n
  }

  /** Entry i of every field array. */
  function Row(d: CampaignData, i: nat): RawCampaign
    requires i < |d.description| && i < |d.title| && i < |d.targetAmount| && i < |d.currentAmount|
    requires i < |d.deadline| && i < |d.userContribution| && i < |d.status| && i < |d.proposer|
  {
    RawCampaign(d.title[i], d.description[i], d.targetAmount[i], d.currentAmount[i], d.deadline[i],
                d.userContribution[i], d.status[i], d.proposer[i])
  }

  // ------------------------------------------------------------- field decoding

  /** `parseFloat(formatUnits(units, 6))`: a base-unit amount of USDC (6 decimals), exactly. */
  function FromBaseUnits(units: nat): (amount: real)
    ensures amount >= 0.0 && amount * 1000000.0 == units as real
  {
    units as real / 1000000.0
  }

  /**
   * The deadline's round trip through `parseInt(deadline, 16)`, `toString(16)` and the
   * radix-less `parseInt`: the BigNumber is read as its decimal text, and the chain gives back
   * its value, because decimal digits without a leading zero are also canonical hex.
   */
  function DecodeDeadline(raw: nat): (seconds: Option<int>)
    ensures seconds == Some(raw)
  {
    var text := ToRadix(raw, 10);
    DecimalReadAsHex(raw);
    var hexValue := match ParseInt(text, 16)
                    case None => NaNText
                    case Some(v) => IntToRadix(v, 16);
    ParseInt(hexValue, 0)
  }

  /**
   * The decimal text of n, read in radix 16 and written back in radix 16, is the same text,
   * which the radix-less `parseInt` reads as n.
   */
  lemma {:induction false} DecimalReadAsHex(n: nat)
    ensures var text := ToRadix(n, 10);
      && ParseInt(text, 16).Some? && ParseInt(text, 16).value >= 0
      && IntToRadix(ParseInt(text, 16).value, 16) == text
      && ParseInt(text, 0) == Some(n)
  {
    var text := ToRadix(n, 10);
    assert Canonical(text, 16) by {
      ToRadixCanonical(n, 10);
      CanonicalInWiderRadix(text, 10, 16);
    }
    var hex := ValueOf(text, 16);
    assert ParseInt(text, 16) == Some(hex) && hex >= 0 by {
      ParseIntOfDigits(text, 16, 16);
    }
    assert IntToRadix(hex, 16) == text by {
      CanonicalRoundTrip(text, 16);
    }
    assert ParseInt(text, 0) == Some(n) by {
      ToRadixValue(n, 10);
      ParseIntOfDigits(text, 0, 10);
    }
  }

  /** `Math.floor((new Date(seconds * 1000).getTime() - nowMs) / 60000)`; `None` is NaN. */
  function MinutesRemaining(seconds: Option<int>, nowMs: int): (minutes: Option<int>)
    ensures minutes.Some? <==> seconds.Some? && -8640000000000 <= seconds.value <= 8640000000000
    ensures minutes.Some? ==>
      minutes.value * 60000 <= seconds.value * 1000 - nowMs < (minutes.value + 1) * 60000
    ensures minutes.Some? ==> (minutes.value < 0 <==> seconds.value * 1000 < nowMs)
  {
    match seconds
    case None => None
    case Some(s) =>
      match TimeClip(Finite((s * 1000) as real))
      case None => None
      case Some(ms) => Some((ms - nowMs) / 60000)
  }

  /** Campaign c is what `getAllCampaigns` makes of the raw fields at the given address and time. */
  predicate ProjectedFrom(c: Campaign, address: string, raw: RawCampaign, nowMs: int) {
    && c.title == raw.title && c.description == raw.description
    && c.campaignSCAddress == address
    && c.targetAmount * 1000000.0 == raw.targetAmount as real
    && c.currentAmount * 1000000.0 == raw.currentAmount as real
    && c.userContribution * 1000000.0 == raw.userContribution as real
    && (c.deadline.Some? <==> raw.deadline <= 8640000000000)
    && (c.deadline.Some? ==>
          c.deadline.value * 60000 <= raw.deadline * 1000 - nowMs < (c.deadline.value + 1) * 60000)
    && c.status == raw.status && c.campaignCreator == raw.proposer
  }

  /** The body of the projection loop, for one campaign. */
  function ProjectOne(address: string, raw: RawCampaign, nowMs: int): (c: Campaign)
    ensures ProjectedFrom(c, address, raw, nowMs)
  {
    Campaign(raw.title, raw.description, address,
             FromBaseUnits(raw.targetAmount), FromBaseUnits(raw.currentAmount),
             MinutesRemaining(DecodeDeadline(raw.deadline), nowMs),
             FromBaseUnits(raw.userContribution), raw.status, raw.proposer)
  }

  const EndedLabel: string := "Minutes Left: Campaign ended"
  const NaNLabel: string := "Minutes Left: NaN"
  const LabelPrefix: string := "Minutes Left: "

  /** The text a campaign card shows for the deadline. */
  function DeadlineLabel(deadline: Option<int>): (text: string)
    ensures text == EndedLabel <==> deadline.Some? && deadline.value < 0
  {
    match deadline
    case Some(m) =>
      if m < 0 then EndedLabel
      else
        ToRadixCanonical(m, 10);
        assert (LabelPrefix + IntToRadix(m, 10))[14] != 'C';
        LabelPrefix + IntToRadix(m, 10)
    case None => NaNLabel
  }

  // ------------------------------------------------------------------- search

  /** The lower-cased title or lower-cased description contains the query as typed. */
  predicate Matches(c: Campaign, query: string) {
    Includes(ToLower(c.title), query) || Includes(ToLower(c.description), query)
  }

  /** `campaigns.filter(...)` with the match above, keeping the order. */
  function KeepMatching(campaigns: seq<Campaign>, query: string): (kept: seq<Campaign>)
    ensures forall c :: c in kept <==> c in campaigns && Matches(c, query)
    ensures forall c :: multiset(kept)[c] == if Matches(c, query) then multiset(campaigns)[c] else 0
    ensures |kept| <= |campaigns|
  {
    if campaigns == [] then []
    else
      var head := if Matches(campaigns[0], query) then [campaigns[0]] else [];
      assert campaigns == [campaigns[0]] + campaigns[1..];
      head + KeepMatching(campaigns[1..], query)
  }

  /** `filteredCampaigns`: the whole list for an empty query, else the matching campaigns. */
  function FilteredCampaigns(campaigns: seq<Campaign>, query: string): (shown: seq<Campaign>)
    ensures query == "" ==> shown == campaigns
    ensures query != "" ==> forall c :: c in shown <==> c in campaigns && Matches(c, query)
  {
    if query == "" then campaigns else KeepMatching(campaigns, query)
  }

  /** xs is ys with some elements dropped, the rest in their order. */
  predicate SubsequenceOf<T(==)>(xs: seq<T>, ys: seq<T>)
    decreases |ys|
  {
    xs == [] || (ys != [] && ((xs[0] == ys[0] && SubsequenceOf(xs[1..], ys[1..])) || SubsequenceOf(xs, ys[1..])))
  }

  /** The filter keeps the campaigns in their order. */
  lemma {:induction false} FilterKeepsOrder(campaigns: seq<Campaign>, query: string)
    ensures SubsequenceOf(FilteredCampaigns(campaigns, query), campaigns)
  {
    if query != "" {
      KeepMatchingSubsequence(campaigns, query);
    } else {
      SubsequenceOfSelf(campaigns);
    }
  }

  lemma {:induction false} SubsequenceOfSelf<T>(xs: seq<T>)
    ensures SubsequenceOf(xs, xs)
    decreases |xs|
  {
    if xs != [] {
      SubsequenceOfSelf(xs[1..]);
    }
  }

  lemma {:induction false} KeepMatchingSubsequence(campaigns: seq<Campaign>, query: string)
    ensures SubsequenceOf(KeepMatching(campaigns, query), campaigns)
    decreases |campaigns|
  {
    if campaigns != [] {
      var rest := KeepMatching(campaigns[1..], query);
      KeepMatchingSubsequence(campaigns[1..], query);
      if Matches(campaigns[0], query) {
        assert KeepMatching(campaigns, query) == [campaigns[0]] + rest;
        assert ([campaigns[0]] + rest)[1..] == rest;
      } else {
        assert KeepMatching(campaigns, query) == rest;
      }
    }
  }

  /** Filtering the filtered list again with the same query changes nothing. */
  lemma {:induction false} FilterIdempotent(campaigns: seq<Campaign>, query: string)
    ensures FilteredCampaigns(FilteredCampaigns(campaigns, query), query) == FilteredCampaigns(campaigns, query)
  {
    if query != "" {
      KeepMatchingAllMatch(KeepMatching(campaigns, query), query);
    }
  }

  /** Filtering a list all of whose campaigns match keeps it whole. */
  lemma {:induction false} KeepMatchingAllMatch(campaigns: seq<Campaign>, query: string)
    requires forall c :: c in campaigns ==> Matches(c, query)
    ensures KeepMatching(campaigns, query) == campaigns
    decreases |campaigns|
  {
    if campaigns != [] {
      assert campaigns[0] in campaigns;
      KeepMatchingAllMatch(campaigns[1..], query);
      assert [campaigns[0]] + campaigns[1..] == campaigns;
    }
  }

  /**
   * The query is not lower-cased while the fields are: a query holding an upper-case ASCII
   * letter finds nothing.
   */
  lemma {:induction false} UpperCaseQueryFindsNothing(campaigns: seq<Campaign>, query: string, i: nat)
    requires i < |query| && 'A' <= query[i] <= 'Z'
    ensures FilteredCampaigns(campaigns, query) == []
    decreases |campaigns|
  {
    if campaigns != [] {
      var c := campaigns[0];
      if Includes(ToLower(c.title), query) {
        IncludesChars(ToLower(c.title), query, i);
      }
      if Includes(ToLower(c.description), query) {
        IncludesChars(ToLower(c.description), query, i);
      }
      UpperCaseQueryFindsNothing(campaigns[1..], query, i);
    }
  }

  // ------------------------------------------------------------------ the page

  /** Campaign j of a reply: row j of the field arrays, projected, with address j. */
  function CampaignAt(addresses: seq<string>, data: CampaignData, nowMs: int, j: nat): Campaign
    requires Covers(addresses, data) && j < |data.description|
  {
    ProjectOne(addresses[j], Row(data, j), nowMs)
  }

  /** The first n campaigns of a reply, in the order of the rows. */
  function ProjectedPrefix(addresses: seq<string>, data: CampaignData, nowMs: int, n: nat): (cs: seq<Campaign>)
    requires Covers(addresses, data) && n <= |data.description|
    ensures |cs| == n
    ensures forall j :: 0 <= j < n ==> cs[j] == CampaignAt(addresses, data, nowMs, j)
  {
    Tabulated((j: nat) requires Covers(addresses, data) && j < |data.description| => CampaignAt(addresses, data, nowMs, j), n)
  }

  /** f(0), …, f(n - 1), built one entry at a time. */
  function Tabulated<T>(f: nat --> T, n: nat): (xs: seq<T>)
    requires forall j: nat :: j < n ==> f.requires(j)
    ensures |xs| == n
    ensures forall j: nat :: j < n ==> xs[j] == f(j)
  {
    if n == 0 then [] else Tabulated(f, n - 1) + [f(n - 1)]
  }

  /** Every campaign of a prefix carries its row's fields, decoded, and its own address. */
  lemma {:induction false} ProjectedPrefixFrom(addresses: seq<string>, data: CampaignData, nowMs: int, n: nat)
    requires Covers(addresses, data) && n <= |data.description|
    ensures var cs := ProjectedPrefix(addresses, data, nowMs, n);
      forall j :: 0 <= j < n ==> ProjectedFrom(cs[j], addresses[j], Row(data, j), nowMs)
  {
    var cs := ProjectedPrefix(addresses, data, nowMs, n);
    forall j | 0 <= j < n
      ensures ProjectedFrom(cs[j], addresses[j], Row(data, j), nowMs)
    {
      assert cs[j] == ProjectOne(addresses[j], Row(data, j), nowMs);
    }
  }

  /** The home page's state: the campaigns loaded from the campaign manager. */
  class HomePage {
    var campaigns: seq<Campaign>

    constructor ()
      ensures campaigns == []
    {
      campaigns := [];
    }

    /**
     * `getAllCampaigns`: with a wallet present, one campaign per description, in order, each
     * projected from entry i of every array and address i; without a wallet nothing changes.
     */
    method GetAllCampaigns(ethereum: bool, addresses: seq<string>, data: CampaignData, nowMs: int)
      requires Covers(addresses, data)
      modifies this
      ensures !ethereum ==> campaigns == old(campaigns)
      ensures ethereum ==> |campaigns| == |data.description|
      ensures ethereum ==> forall i :: 0 <= i < |campaigns| ==>
                ProjectedFrom(campaigns[i], addresses[i], Row(data, i), nowMs)
    {
      if ethereum {
        var loaded: seq<Campaign> := [];
        for i := 0 to |data.description|
          invariant loaded == ProjectedPrefix(addresses, data, nowMs, i)
        {
          loaded := loaded + [CampaignAt(addresses, data, nowMs, i)];
        }
        ProjectedPrefixFrom(addresses, data, nowMs, |data.description|);
        campaigns := loaded;
      }
    }
  }
}
