/** The summary cards above the claims table: the paid claims and the status counts. */
module ClaimStats {
  import opened Wrappers
  import opened Js
  import opened Types
  import Seqs

  predicate IsPaid(c: Claim)
  {
    c.actualReimbursement.Some?
  }

  /** `paidClaims`: the claims with an actual reimbursement, in order. */
  function PaidClaims(claims: seq<Claim>): (r: seq<Claim>)
    ensures |r| <= |claims|
    ensures Seqs.IsSubsequence(r, claims)
    ensures forall i :: 0 <= i < |r| ==> r[i].actualReimbursement.Some?
    ensures forall i :: 0 <= i < |claims| && claims[i].actualReimbursement.Some? ==> claims[i] in r
    ensures forall c :: multiset(r)[c] == if IsPaid(c) then multiset(claims)[c] else 0
  {
    Seqs.FilterIsSubsequence(claims, IsPaid);
    Seqs.FilterMultiplicity(claims, IsPaid);
    Seqs.Filter(claims, IsPaid)
  }

  /** A claim as the claims page builds it has a variance exactly when it has an actual amount. */
  predicate VarianceTracksActual(c: Claim)
  {
    c.variance.Some? <==> c.actualReimbursement.Some?
  }

  /** For such claims the paid claims are exactly those with a variance. */
  lemma PaidClaimsHaveVariance(claims: seq<Claim>)
    requires forall i :: 0 <= i < |claims| ==> VarianceTracksActual(claims[i])
    ensures PaidClaims(claims) == Seqs.Filter(claims, (c: Claim) => c.variance.Some?)
  {
    Seqs.FilterExt(claims, IsPaid, (c: Claim) => c.variance.Some?);
  }

  predicate IsDenied(c: Claim)
  {
    c.status == Str("denied")
  }

  predicate IsPending(c: Claim)
  {
    c.status == Str("processing") || c.status == Str("submitted")
  }

  /** `deniedCount` */
  function DeniedCount(claims: seq<Claim>): (n: nat)
    ensures n <= |claims|
    ensures n == Seqs.CountWhere(claims, IsDenied)
    ensures n == 0 <==> forall i :: 0 <= i < |claims| ==> claims[i].status != Str("denied")
  {
    var denied := Seqs.Filter(claims, IsDenied);
    Seqs.FilterLength(claims, IsDenied);
    assert denied != [] ==> denied[0] in claims && IsDenied(denied[0]);
    |denied|
  }

  /** `processingCount`: "processing" and "submitted" both count as pending. */
  function ProcessingCount(claims: seq<Claim>): (n: nat)
    ensures n <= |claims|
    ensures n == Seqs.CountWhere(claims, IsPending)
    ensures n == 0 <==> forall i :: 0 <= i < |claims| ==> !IsPending(claims[i])
  {
    var pending := Seqs.Filter(claims, IsPending);
    Seqs.FilterLength(claims, IsPending);
    assert pending != [] ==> pending[0] in claims && IsPending(pending[0]);
    |pending|
  }

  /** The "Action Required" value never exceeds the number of claims: no claim is counted twice. */
  function ActionRequired(claims: seq<Claim>): (n: nat)
    ensures n == DeniedCount(claims) + ProcessingCount(claims)
    ensures n <= |claims|
  {
    Seqs.FilterDisjointLength(claims, IsDenied, IsPending);
    DeniedCount(claims) + ProcessingCount(claims)
  }

  /** "N denied, M pending" */
  function ActionSubtitle(claims: seq<Claim>): (s: string)
    ensures |s| == |NatToString(DeniedCount(claims))| + 9 + |NatToString(ProcessingCount(claims))| + 8
    ensures s[|s| - 8..] == " pending"
  {
    NatToString(DeniedCount(claims)) + " denied, " + NatToString(ProcessingCount(claims)) + " pending"
  }

  /** The subtitle determines both counts it shows. */
  lemma ActionSubtitleDeterminesCounts(claims1: seq<Claim>, claims2: seq<Claim>)
    requires ActionSubtitle(claims1) == ActionSubtitle(claims2)
    ensures DeniedCount(claims1) == DeniedCount(claims2)
    ensures ProcessingCount(claims1) == ProcessingCount(claims2)
  {
    TwoNumbersInTextInjective(DeniedCount(claims1), " denied, ", ProcessingCount(claims1), " pending",
                              DeniedCount(claims2), ProcessingCount(claims2));
  }

  /** The text shown when nothing is billed: the em dash as mis-encoded in the source file. */
  const NO_RATIO: string := "\U{00E2}\U{20AC}\U{201D}"

  /**
   * Subtitle of "Expected Reimbursement": the ratio is computed only when
   * something is billed; `fixed` is `toFixed(1)` and the totals are given.
   */
  function ExpectedSubtitle(totalBilled: real, totalExpected: real, fixed: real -> string): (r: string)
    ensures totalBilled > 0.0 ==> r == fixed(totalExpected / totalBilled * 100.0) + "% of billed"
    ensures totalBilled <= 0.0 ==> r == NO_RATIO
  {
    if totalBilled > 0.0 then fixed(totalExpected / totalBilled * 100.0) + "% of billed" else NO_RATIO
  }
}
