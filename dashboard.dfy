/** The dashboard's greeting and its three figures over the loaded quotes. */
module Dashboard {
  import opened Wrappers
  import opened Text
  import opened QuoteTypes
  import opened Collections

  predicate NonNegativePrices(quotes: seq<Quote>)
  {
    forall i :: 0 <= i < |quotes| ==> quotes[i].finalPrice >= 0.0
  }

  /** `reduce((sum, q) => sum + q.final_price, 0)`: with no negative price the sum is not negative. */
  function SumPrices(quotes: seq<Quote>): (r: real)
    ensures NonNegativePrices(quotes) ==> r >= 0.0
  {
    if quotes == [] then 0.0 else quotes[0].finalPrice + SumPrices(quotes[1..])
  }

  /** `filter((q) => q.status === 'accepted')`. */
  function AcceptedQuotes(quotes: seq<Quote>): (r: seq<Quote>)
    ensures |r| <= |quotes|
    ensures forall i :: 0 <= i < |r| ==> r[i].status == Accepted
  {
    if quotes == [] then []
    else (if quotes[0].status == Accepted then [quotes[0]] else []) + AcceptedQuotes(quotes[1..])
  }

  /** Draft and sent quotes are still waiting for an answer. */
  predicate IsPending(q: Quote)
  {
    q.status == Draft || q.status == Sent
  }

  /** `filter((q) => q.status === 'draft' || q.status === 'sent')`. */
  function PendingOf(quotes: seq<Quote>): (r: seq<Quote>)
    ensures |r| <= |quotes|
    ensures forall i :: 0 <= i < |r| ==> IsPending(r[i])
  {
    if quotes == [] then []
    else (if IsPending(quotes[0]) then [quotes[0]] else []) + PendingOf(quotes[1..])
  }

  /** `totalQuoted`: the sum of every quote's final price. */
  function TotalQuoted(quotes: seq<Quote>): (r: real)
    ensures NonNegativePrices(quotes) ==> r >= 0.0
  {
    SumPrices(quotes)
  }

  /** `acceptedRevenue`: with no negative price it lies between 0 and the total quoted. */
  function AcceptedRevenue(quotes: seq<Quote>): (r: real)
    ensures NonNegativePrices(quotes) ==> 0.0 <= r <= SumPrices(quotes)
  {
    if NonNegativePrices(quotes) then AcceptedSumAtMostSum(quotes); SumPrices(AcceptedQuotes(quotes))
    else SumPrices(AcceptedQuotes(quotes))
  }

  /** The positions of the pending quotes. */
  ghost function PendingIndices(quotes: seq<Quote>): set<int>
  {
    set i | 0 <= i < |quotes| && IsPending(quotes[i])
  }

  /** `pendingQuotes`: the number of positions that hold a draft or sent quote. */
  function PendingQuotes(quotes: seq<Quote>): (n: nat)
    ensures n <= |quotes|
    ensures n == |PendingIndices(quotes)|
  {
    PendingCount(quotes);
    |PendingOf(quotes)|
  }

  /** The accepted filter keeps exactly the accepted quotes, each as often as the list holds it. */
  lemma {:induction false} AcceptedQuotesExact(quotes: seq<Quote>)
    ensures forall q :: multiset(AcceptedQuotes(quotes))[q] == if q.status == Accepted then multiset(quotes)[q] else 0
  {
    if quotes != [] {
      AcceptedQuotesExact(quotes[1..]);
      MultisetCons(quotes);
    }
  }

  /** The pending filter keeps exactly the draft and sent quotes, each as often as the list holds it. */
  lemma {:induction false} PendingOfExact(quotes: seq<Quote>)
    ensures forall q :: multiset(PendingOf(quotes))[q] == if IsPending(q) then multiset(quotes)[q] else 0
  {
    if quotes != [] {
      PendingOfExact(quotes[1..]);
      MultisetCons(quotes);
    }
  }

  /** Filtering a list extended by one quote extends the filtered list by that quote when it is pending. */
  lemma {:induction false} PendingOfSnoc(quotes: seq<Quote>, q: Quote)
    ensures PendingOf(quotes + [q]) == PendingOf(quotes) + (if IsPending(q) then [q] else [])
  {
    if quotes != [] {
      var head := if IsPending(quotes[0]) then [quotes[0]] else [];
      var tail := if IsPending(q) then [q] else [];
      assert (quotes + [q])[0] == quotes[0];
      assert (quotes + [q])[1..] == quotes[1..] + [q];
      PendingOfSnoc(quotes[1..], q);
      calc {
        PendingOf(quotes + [q]);
        head + PendingOf(quotes[1..] + [q]);
        head + (PendingOf(quotes[1..]) + tail);
        (head + PendingOf(quotes[1..])) + tail;
        PendingOf(quotes) + tail;
      }
    }
  }

  /** The filtered list is as long as the set of pending positions is large. */
  lemma {:induction false} PendingCount(quotes: seq<Quote>)
    ensures |PendingOf(quotes)| == |PendingIndices(quotes)|
  {
    if quotes != [] {
      var init, last := quotes[..|quotes| - 1], quotes[|quotes| - 1];
      assert quotes == init + [last];
      PendingCount(init);
      PendingOfSnoc(init, last);
      if IsPending(last) {
        assert PendingIndices(quotes) == PendingIndices(init) + {|init|};
      } else {
        assert PendingIndices(quotes) == PendingIndices(init);
      }
    }
  }

  /** With no negative prices the accepted quotes sum to no more than all quotes, and to no less than 0. */
  lemma {:induction false} AcceptedSumAtMostSum(quotes: seq<Quote>)
    requires NonNegativePrices(quotes)
    ensures 0.0 <= SumPrices(AcceptedQuotes(quotes)) <= SumPrices(quotes)
  {
    if quotes != [] {
      AcceptedSumAtMostSum(quotes[1..]);
      var rest := AcceptedQuotes(quotes[1..]);
      if quotes[0].status == Accepted {
        assert AcceptedQuotes(quotes)[1..] == rest;
      } else {
        assert AcceptedQuotes(quotes) == rest;
      }
    }
  }

  /** When every quote is accepted, the two sums agree. */
  lemma {:induction false} AllAcceptedRevenueIsTotal(quotes: seq<Quote>)
    requires forall i :: 0 <= i < |quotes| ==> quotes[i].status == Accepted
    ensures AcceptedRevenue(quotes) == TotalQuoted(quotes)
  {
    if quotes != [] {
      AllAcceptedRevenueIsTotal(quotes[1..]);
      assert AcceptedQuotes(quotes) == [quotes[0]] + AcceptedQuotes(quotes[1..]);
      assert AcceptedQuotes(quotes)[1..] == AcceptedQuotes(quotes[1..]);
    }
  }

  /** An accepted quote is never pending, so the two counts together never exceed the list. */
  lemma {:induction false} AcceptedAndPendingDisjoint(quotes: seq<Quote>)
    ensures |AcceptedQuotes(quotes)| + PendingQuotes(quotes) <= |quotes|
  {
    if quotes != [] {
      AcceptedAndPendingDisjoint(quotes[1..]);
    }
  }

  /** `profile?.full_name?.split(' ')[0] || 'there'`: the text before the first space, else "there". */
  function FirstName(profile: Option<Profile>): (r: string)
    ensures r != [] && ' ' !in r
    ensures var name := if profile.Some? then profile.value.fullName else None;
      if name.Some? && name.value != [] && name.value[0] != ' ' then
        && |r| <= |name.value| && r == name.value[..|r|]
        && (|r| == |name.value| || name.value[|r|] == ' ')
      else r == "there"
  {
    var word := if profile.Some? && profile.value.fullName.Some?
                then Split(profile.value.fullName.value, ' ')[0] else "";
    if word != "" then word else "there"
  }
}
