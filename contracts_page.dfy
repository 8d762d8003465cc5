/**
 * The summary cards and tabs of the contracts page: how many contracts
 * there are, how many are active, how many expire within 90 days, and
 * which contracts each tab lists. `new Date(s).getTime()` is the
 * parameter `timeOf` and `Date.now()` the parameter `nowMs`.
 */
module ContractsPage {
  import opened Types
  import MockApi
  import Seqs

  const MS_PER_DAY: int := 1000 * 60 * 60 * 24

  /** `Math.floor((expiry - now) / 86400000)`; Dafny's `/` by a positive divisor rounds down. */
  function DaysUntilExpiration(expiryMs: int, nowMs: int): (d: int)
    ensures d * MS_PER_DAY <= expiryMs - nowMs < (d + 1) * MS_PER_DAY
  {
    (expiryMs - nowMs) / MS_PER_DAY
  }

  predicate IsActive(c: Contract)
  {
    c.status == Active
  }

  predicate IsExpiringSoon(c: Contract, timeOf: string -> int, nowMs: int)
  {
    var days := DaysUntilExpiration(timeOf(c.expirationDate), nowMs);
    days <= 90 && days > 0
  }

  /** A contract expires soon exactly when between 1 and 91 whole days remain (91 excluded). */
  lemma ExpiringSoonWindow(c: Contract, timeOf: string -> int, nowMs: int)
    ensures IsExpiringSoon(c, timeOf, nowMs)
            <==> MS_PER_DAY <= timeOf(c.expirationDate) - nowMs < 91 * MS_PER_DAY
  {
    var delta := timeOf(c.expirationDate) - nowMs;
    var d := DaysUntilExpiration(timeOf(c.expirationDate), nowMs);
    if 1 <= d <= 90 {
      assert MS_PER_DAY <= d * MS_PER_DAY;
      assert (d + 1) * MS_PER_DAY <= 91 * MS_PER_DAY;
    }
    if MS_PER_DAY <= delta < 91 * MS_PER_DAY {
      assert d > 0;
      assert d <= 90;
    }
  }

  /** Contracts already past expiry, or expiring today, are never counted as expiring soon. */
  lemma ExpiredNeverExpiringSoon(c: Contract, timeOf: string -> int, nowMs: int)
    requires timeOf(c.expirationDate) - nowMs < MS_PER_DAY
    ensures !IsExpiringSoon(c, timeOf, nowMs)
  {
    ExpiringSoonWindow(c, timeOf, nowMs);
  }

  datatype Stats = Stats(total: nat, active: nat, expiringSoon: nat)

  function ActiveContracts(contracts: seq<Contract>): (r: seq<Contract>)
    ensures Seqs.IsSubsequence(r, contracts)
    ensures forall i :: 0 <= i < |r| ==> r[i].status == Active
    ensures forall i :: 0 <= i < |contracts| && contracts[i].status == Active ==> contracts[i] in r
    ensures forall c :: multiset(r)[c] == if IsActive(c) then multiset(contracts)[c] else 0
  {
    Seqs.FilterIsSubsequence(contracts, IsActive);
    Seqs.FilterMultiplicity(contracts, IsActive);
    Seqs.Filter(contracts, IsActive)
  }

  function ExpiringSoonContracts(contracts: seq<Contract>, timeOf: string -> int, nowMs: int): (r: seq<Contract>)
    ensures Seqs.IsSubsequence(r, contracts)
    ensures forall i :: 0 <= i < |r| ==> IsExpiringSoon(r[i], timeOf, nowMs)
    ensures forall i :: 0 <= i < |contracts| && IsExpiringSoon(contracts[i], timeOf, nowMs) ==> contracts[i] in r
    ensures forall c :: multiset(r)[c] == if IsExpiringSoon(c, timeOf, nowMs) then multiset(contracts)[c] else 0
  {
    var p := (c: Contract) => IsExpiringSoon(c, timeOf, nowMs);
    Seqs.FilterIsSubsequence(contracts, p);
    Seqs.FilterMultiplicity(contracts, p);
    Seqs.Filter(contracts, p)
  }

  /** The `stats` object of the page. */
  function ContractStats(contracts: seq<Contract>, timeOf: string -> int, nowMs: int): (s: Stats)
    ensures s.total == |contracts|
    ensures s.active <= s.total && s.expiringSoon <= s.total
    ensures s.active == 0 <==> forall i :: 0 <= i < |contracts| ==> contracts[i].status != Active
    ensures s.active == s.total <==> forall i :: 0 <= i < |contracts| ==> contracts[i].status == Active
    ensures s.active == Seqs.CountWhere(contracts, IsActive)
    ensures s.expiringSoon == Seqs.CountWhere(contracts, (c: Contract) => IsExpiringSoon(c, timeOf, nowMs))
  {
    var active := ActiveContracts(contracts);
    Seqs.FilterFullLength(contracts, IsActive);
    Seqs.FilterLength(contracts, IsActive);
    Seqs.FilterLength(contracts, (c: Contract) => IsExpiringSoon(c, timeOf, nowMs));
    assert active != [] ==> active[0] in contracts && active[0].status == Active;
    Stats(|contracts|, |active|, |ExpiringSoonContracts(contracts, timeOf, nowMs)|)
  }

  datatype Tab = UploadTab | ActiveTab | AllTab

  /** The list each tab shows; the upload tab shows the upload zone instead of a list. */
  function TabContracts(tab: Tab, contracts: seq<Contract>): (r: seq<Contract>)
    ensures tab == AllTab ==> r == contracts
    ensures tab == ActiveTab ==> r == ActiveContracts(contracts)
    ensures tab == UploadTab ==> r == []
  {
    match tab
    case UploadTab => []
    case ActiveTab => ActiveContracts(contracts)
    case AllTab => contracts
  }

  /** The Active tab lists exactly what the "active" card counts. */
  lemma ActiveTabMatchesCard(contracts: seq<Contract>, timeOf: string -> int, nowMs: int)
    ensures |TabContracts(ActiveTab, contracts)| == ContractStats(contracts, timeOf, nowMs).active
  {
  }

  /** With the mock contracts, all three are active. */
  lemma MockContractsAllActive(timeOf: string -> int, nowMs: int)
    ensures ContractStats(MockApi.MOCK_CONTRACTS, timeOf, nowMs).active == 3
  {
    Seqs.FilterAll(MockApi.MOCK_CONTRACTS, IsActive);
  }
}
