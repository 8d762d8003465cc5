/**
 * The claims table: case-insensitive search over patient name, procedure
 * code and claim id, the status filter, badge colours and currency cells.
 */
module ClaimsTable {
  import opened Wrappers
  import opened Js
  import opened Types
  import Seqs

  /** The search box: the lower-cased query occurs in one of the three lower-cased columns. */
  predicate MatchesSearch(c: Claim, query: string)
  {
    var q := ToLower(query);
    Includes(ToLower(c.patientName), q) || Includes(ToLower(c.procedureCode), q) || Includes(ToLower(c.id), q)
  }

  /** `statusFilter === "all" || claim.status === statusFilter` */
  predicate MatchesStatus(c: Claim, statusFilter: string)
  {
    statusFilter == "all" || c.status == Str(statusFilter)
  }

  predicate Shown(c: Claim, query: string, statusFilter: string)
  {
    MatchesSearch(c, query) && MatchesStatus(c, statusFilter)
  }

  /** `filteredClaims`: the claims that pass both tests, in their original order. */
  function FilteredClaims(claims: seq<Claim>, query: string, statusFilter: string): (r: seq<Claim>)
    ensures |r| <= |claims|
    ensures Seqs.IsSubsequence(r, claims)
    ensures forall i :: 0 <= i < |r| ==> Shown(r[i], query, statusFilter)
    ensures forall i :: 0 <= i < |claims| && Shown(claims[i], query, statusFilter) ==> claims[i] in r
    ensures forall c :: multiset(r)[c] == if Shown(c, query, statusFilter) then multiset(claims)[c] else 0
  {
    Seqs.FilterIsSubsequence(claims, (c: Claim) => Shown(c, query, statusFilter));
    Seqs.FilterMultiplicity(claims, (c: Claim) => Shown(c, query, statusFilter));
    Seqs.Filter(claims, (c: Claim) => Shown(c, query, statusFilter))
  }

  /** With an empty query and "all" selected (the initial state) every claim is shown. */
  lemma InitialFilterShowsAll(claims: seq<Claim>)
    ensures FilteredClaims(claims, "", "all") == claims
  {
    forall i | 0 <= i < |claims|
      ensures Shown(claims[i], "", "all")
    {
      assert Includes(ToLower(claims[i].patientName), "");
    }
    Seqs.FilterAll(claims, (c: Claim) => Shown(c, "", "all"));
  }

  /** The query's case does not matter. */
  lemma SearchIgnoresQueryCase(claims: seq<Claim>, query: string, statusFilter: string)
    ensures FilteredClaims(claims, ToLower(query), statusFilter) == FilteredClaims(claims, query, statusFilter)
  {
    ToLowerIdempotent(query);
    Seqs.FilterExt(claims, (c: Claim) => Shown(c, ToLower(query), statusFilter),
                   (c: Claim) => Shown(c, query, statusFilter));
  }

  /** A specific status filter shows only claims with exactly that status. */
  lemma StatusFilterIsExact(claims: seq<Claim>, query: string, statusFilter: string)
    requires statusFilter != "all"
    ensures forall i :: 0 <= i < |FilteredClaims(claims, query, statusFilter)| ==>
              FilteredClaims(claims, query, statusFilter)[i].status == Str(statusFilter)
  {
  }

  /** The "Showing X of Y claims" line. */
  function ShowingText(claims: seq<Claim>, query: string, statusFilter: string): (s: string)
    ensures "Showing " <= s && s[|s| - 7..] == " claims"
    ensures |s| == 8 + |NatToString(|FilteredClaims(claims, query, statusFilter)|)| + 4 + |NatToString(|claims|)| + 7
  {
    "Showing " + NatToString(|FilteredClaims(claims, query, statusFilter)|) + " of " + NatToString(|claims|) + " claims"
  }

  /** The line determines both numbers: how many claims are shown and how many there are. */
  lemma ShowingTextDeterminesCounts(claims1: seq<Claim>, query1: string, filter1: string,
                                    claims2: seq<Claim>, query2: string, filter2: string)
    requires ShowingText(claims1, query1, filter1) == ShowingText(claims2, query2, filter2)
    ensures |FilteredClaims(claims1, query1, filter1)| == |FilteredClaims(claims2, query2, filter2)|
    ensures |claims1| == |claims2|
  {
    PrefixedNumbersInjective("Showing ", |FilteredClaims(claims1, query1, filter1)|, " of ", |claims1|, " claims",
                             |FilteredClaims(claims2, query2, filter2)|, |claims2|);
  }

  datatype BadgeVariant = Default | Secondary | Outline | Destructive

  /** `getStatusColor`, a switch with strict equality on the status. */
  function GetStatusColor(status: JsValue): (r: BadgeVariant)
    ensures r == Default <==> status == Str("paid")
    ensures r == Destructive <==> status == Str("denied")
    ensures r == Secondary <==> status == Str("processing") || status == Str("appealed")
    ensures r == Outline <==> !(status in [Str("paid"), Str("denied"), Str("processing"), Str("appealed")])
  {
    match status
    case Str(s) =>
      if s == "paid" then Default
      else if s == "processing" then Secondary
      else if s == "submitted" then Outline
      else if s == "denied" then Destructive
      else if s == "appealed" then Secondary
      else Outline
    case _ => Outline
  }

  /** `formatCurrency`; `usd` is `Intl.NumberFormat("en-US", {style: "currency", currency: "USD"}).format`. */
  function FormatCurrency(amount: Option<real>, usd: real -> string): (s: string)
    ensures amount.None? ==> s == "-"
    ensures amount.Some? ==> s == usd(amount.value)
  {
    if amount.None? then "-" else usd(amount.value)
  }

  /** The variance cell: a dash, or the amount marked as a shortfall when negative. */
  datatype VarianceCell = Dash | Amount(text: string, shortfall: bool)

  function VarianceCellOf(variance: Option<real>, usd: real -> string): (r: VarianceCell)
    ensures r.Dash? <==> variance.None?
    ensures r.Amount? ==> r.text == FormatCurrency(variance, usd) && (r.shortfall <==> variance.value < 0.0)
  {
    if variance.None? then Dash else Amount(FormatCurrency(variance, usd), variance.value < 0.0)
  }
}
