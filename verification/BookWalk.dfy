/**
 Pricing a USDT deposit off an exchange's order book: the asks, cheapest first, are filled
 until the amount is spent, and the average price paid is the rate. Prices and sizes are
 exact reals.
 */
module BookWalk {

  datatype Ask = Ask(price: real, size: real) {
    /** What it costs to buy it all. */
    function Cost(): real { price * size }
  }

  /** The BTC that usdt buys at a price. */
  function Btc(usdt: real, price: real): real requires price > 0.0 { usdt / price }

  /** What btc is worth at a price. */
  function Worth(btc: real, price: real): real { btc * price }

  /** What filtering and sorting the book leaves. */
  predicate Book(asks: seq<Ask>) {
    && (forall i :: 0 <= i < |asks| ==> asks[i].price > 0.0 && asks[i].size > 0.0)
    && (forall i, j :: 0 <= i < j < |asks| ==> asks[i].price <= asks[j].price)
  }

  function Min(a: real, b: real): real { if a <= b then a else b }

  /** USDT spent and BTC bought with a budget, cheapest asks first. */
  function Filled(asks: seq<Ask>, budget: real): real {
    if asks == [] then 0.0
    else
      var take := Min(asks[0].Cost(), budget);
      take + Filled(asks[1..], budget - take)
  }

  function Bought(asks: seq<Ask>, budget: real): real
    requires Book(asks)
  {
    if asks == [] then 0.0
    else
      var take := Min(asks[0].Cost(), budget);
      Btc(take, asks[0].price) + Bought(asks[1..], budget - take)
  }

  function Depth(asks: seq<Ask>): real { if asks == [] then 0.0 else asks[0].Cost() + Depth(asks[1..]) }

  /** An allocation of USDT to asks, none above what the ask can take. */
  predicate Feasible(asks: seq<Ask>, spend: seq<real>) {
    |spend| == |asks| && forall i :: 0 <= i < |asks| ==> 0.0 <= spend[i] <= asks[i].Cost()
  }

  function Spent(spend: seq<real>): real { if spend == [] then 0.0 else spend[0] + Spent(spend[1..]) }

  function Buys(asks: seq<Ask>, spend: seq<real>): real
    requires Book(asks) && |spend| == |asks|
  {
    if asks == [] then 0.0 else Btc(spend[0], asks[0].price) + Buys(asks[1..], spend[1..])
  }

  lemma CostPositive(a: Ask)
    requires a.price > 0.0 && a.size > 0.0
    ensures a.Cost() > 0.0
  {
  }

  /** The walk spends the whole amount, or all the book can take. */
  lemma {:induction false} FillsDepth(asks: seq<Ask>, budget: real)
    requires Book(asks) && budget >= 0.0
    ensures Filled(asks, budget) == Min(budget, Depth(asks))
    ensures Depth(asks) >= 0.0
    decreases asks
  {
    if asks != [] {
      CostPositive(asks[0]);
      FillsDepth(asks[1..], budget - Min(asks[0].Cost(), budget));
    }
  }

  lemma {:induction false} NothingLeft(asks: seq<Ask>)
    requires Book(asks)
    ensures Filled(asks, 0.0) == 0.0 && Bought(asks, 0.0) == 0.0
    decreases asks
  {
    if asks != [] {
      CostPositive(asks[0]);
      assert 0.0 / asks[0].price == 0.0;
      NothingLeft(asks[1..]);
    }
  }

  lemma DivAdd(a: real, b: real, p: real)
    requires p > 0.0
    ensures (a + b) / p == a / p + b / p
  {
  }

  lemma DivLess(a: real, p: real, q: real)
    requires a >= 0.0 && 0.0 < p <= q
    ensures a / q <= a / p
  {
    assert (a / p) * (q - p) >= 0.0;
  }

  lemma DivBetween(a: real, b: real, low: real, high: real)
    requires b > 0.0 && low * b <= a <= high * b
    ensures low <= a / b <= high
  {
  }

  /** The exchange step: d more USDT on asks no cheaper than p buys at most d / p. */
  lemma {:induction false} NoBargainLater(asks: seq<Ask>, budget: real, d: real, p: real)
    requires Book(asks) && 0.0 <= d <= budget && p > 0.0
    requires forall i :: 0 <= i < |asks| ==> p <= asks[i].price
    ensures Bought(asks, budget) - Bought(asks, budget - d) <= d / p
    decreases asks
  {
    if asks == [] {
      assert d / p >= 0.0;
    } else {
      var q, cost := asks[0].price, asks[0].Cost();
      CostPositive(asks[0]);
      var more, less := Min(cost, budget), Min(cost, budget - d);
      // of the extra d, more - less goes to this ask and the rest to later ones
      var e := d - (more - less);
      NoBargainLater(asks[1..], budget - more, e, p);
      assert budget - d - less == budget - more - e;
      DivAdd(more - less, less, q);
      DivLess(more - less, p, q);
      DivAdd(more - less, e, p);
    }
  }

  /** No feasible allocation buys more than the walk does with the same USDT. */
  lemma {:induction false} GreedyOptimal(asks: seq<Ask>, spend: seq<real>)
    requires Book(asks) && Feasible(asks, spend)
    ensures Spent(spend) >= 0.0 && Buys(asks, spend) <= Bought(asks, Spent(spend))
    decreases asks
  {
    if asks != [] {
      GreedyOptimal(asks[1..], spend[1..]);
      var r := Spent(spend[1..]);
      var take := Min(asks[0].Cost(), spend[0] + r);
      NoBargainLater(asks[1..], r, take - spend[0], asks[0].price);
      DivAdd(take - spend[0], spend[0], asks[0].price);
      assert spend[0] + r - take == r - (take - spend[0]);
    }
  }

  /** What the walk buys can be bought: there is an allocation that spends and buys just that. */
  lemma {:induction false} WalkAllocates(asks: seq<Ask>, budget: real) returns (spend: seq<real>)
    requires Book(asks) && budget >= 0.0
    ensures Feasible(asks, spend)
    ensures Spent(spend) == Filled(asks, budget) && Buys(asks, spend) == Bought(asks, budget)
    decreases asks
  {
    if asks == [] {
      spend := [];
    } else {
      CostPositive(asks[0]);
      var take := Min(asks[0].Cost(), budget);
      var rest := WalkAllocates(asks[1..], budget - take);
      spend := [take] + rest;
      assert spend[1..] == rest;
    }
  }

  lemma WalkStep(asks: seq<Ask>, i: nat, budget: real)
    requires Book(asks) && i < |asks|
    ensures var take := Min(asks[i].Cost(), budget);
            && Filled(asks[i..], budget) == take + Filled(asks[i + 1..], budget - take)
            && Bought(asks[i..], budget) == Btc(take, asks[i].price) + Bought(asks[i + 1..], budget - take)
  {
    assert asks[i..][1..] == asks[i + 1..];
  }

  /** The last ask the walk touches: those before it do not suffice, and none behind it is needed. */
  predicate LastTouched(asks: seq<Ask>, amount: real, last: nat) {
    && last < |asks|
    && (last == 0 || Depth(asks[..last]) < amount)
    && (last == |asks| - 1 || amount <= Depth(asks[..last + 1]))
  }

  lemma {:induction false} DepthAdds(asks: seq<Ask>, i: nat)
    requires i < |asks|
    ensures Depth(asks[..i + 1]) == Depth(asks[..i]) + asks[i].Cost()
    decreases asks
  {
    if i > 0 {
      DepthAdds(asks[1..], i - 1);
      assert asks[..i + 1][1..] == asks[1..][..i] && asks[..i][1..] == asks[1..][..i - 1];
    }
  }

  /** The average price of btc for usdt lies between two prices. */
  predicate Between(low: real, high: real, usdt: real, btc: real) {
    Worth(btc, low) <= usdt <= Worth(btc, high)
  }

  /** The loop: what was filled and bought, and the last ask it touched. */
  method Walk(asks: seq<Ask>, amount: real) returns (usdtFilled: real, btcTotal: real, last: nat)
    requires Book(asks) && amount >= 0.0
    ensures usdtFilled == Filled(asks, amount) && btcTotal == Bought(asks, amount)
    ensures asks != [] ==>
              && LastTouched(asks, amount, last)
              && Between(asks[0].price, asks[last].price, usdtFilled, btcTotal)
    ensures asks == [] ==> btcTotal == 0.0
    ensures btcTotal >= 0.0
  {
    hide Filled, Bought, Btc, Between, Ask.Cost, Depth;
    usdtFilled, btcTotal, last := 0.0, 0.0, 0;
    assert asks[0..] == asks && Depth(asks[..0]) == 0.0 by { NoDepth(asks[..0]); }
    for i := 0 to |asks|
      invariant 0.0 <= usdtFilled <= amount && btcTotal >= 0.0
      invariant usdtFilled == Depth(asks[..i]) && (i > 0 ==> usdtFilled < amount)
      invariant usdtFilled + Filled(asks[i..], amount - usdtFilled) == Filled(asks, amount)
      invariant btcTotal + Bought(asks[i..], amount - usdtFilled) == Bought(asks, amount)
      invariant if i == 0 then usdtFilled == btcTotal == 0.0 && last == 0
                else last == i - 1 && (last == 0 || Depth(asks[..last]) < amount)
                     && Between(asks[0].price, asks[last].price, usdtFilled, btcTotal)
    {
      var price := asks[i].price;
      var usdtTake := Min(asks[i].Cost(), amount - usdtFilled);
      WalkStep(asks, i, amount - usdtFilled);
      CostPositive(asks[i]);
      DepthAdds(asks, i);
      StepBounds(asks[0].price, asks[last].price, price, usdtFilled, btcTotal, usdtTake);
      btcTotal := btcTotal + Btc(usdtTake, price);
      usdtFilled := usdtFilled + usdtTake;
      last := i;
      if usdtFilled >= amount {
        NothingLeft(asks[i + 1..]);
        return;
      }
    }
    NoneLeft(asks[|asks|..], amount - usdtFilled);
  }

  lemma NoDepth(asks: seq<Ask>)
    requires asks == []
    ensures Depth(asks) == 0.0
  {
  }

  lemma NoneLeft(asks: seq<Ask>, budget: real)
    requires asks == []
    ensures Filled(asks, budget) == 0.0 && Bought(asks, budget) == 0.0
  {
  }

  lemma WorthMore(btc: real, price: real, higher: real)
    requires price <= higher && btc >= 0.0
    ensures Worth(btc, price) <= Worth(btc, higher)
  {
    assert (higher - price) * btc >= 0.0;
  }

  lemma WorthAdds(a: real, b: real, price: real)
    ensures Worth(a + b, price) == Worth(a, price) + Worth(b, price)
  {
  }

  lemma BtcWorth(usdt: real, price: real)
    requires usdt >= 0.0 && price > 0.0
    ensures Btc(usdt, price) >= 0.0 && Worth(Btc(usdt, price), price) == usdt
  {
  }

  lemma StepBounds(first: real, last: real, price: real, filled: real, btc: real, take: real)
    requires 0.0 < first <= price && last <= price && 0.0 <= take && btc >= 0.0
    requires Between(first, last, filled, btc) || filled == btc == 0.0
    ensures Btc(take, price) >= 0.0 && Between(first, price, filled + take, btc + Btc(take, price))
  {
    assert Worth(0.0, first) == 0.0 == Worth(0.0, price);
    hide Worth, Btc;
    var b := Btc(take, price);
    BtcWorth(take, price);
    WorthMore(b, first, price);
    WorthMore(btc, last, price);
    WorthAdds(btc, b, first);
    WorthAdds(btc, b, price);
  }

  /** A line of the exchange's book: a negative amount is an ask. */
  datatype Line = Line(price: real, amount: real)

  function Asks(book: seq<Line>): seq<Ask> {
    if book == [] then []
    else if book[0].amount < 0.0 then [Ask(book[0].price, -book[0].amount)] + Asks(book[1..])
    else Asks(book[1..])
  }

  /** The asks are the lines with a negative amount, each with its price and the amount's size. */
  lemma {:induction false} AsksExactly(book: seq<Line>, price: real, size: real)
    ensures multiset(Asks(book))[Ask(price, size)] ==
            if size > 0.0 then multiset(book)[Line(price, -size)] else 0
    decreases book
  {
    if book != [] {
      assert book == [book[0]] + book[1..];
      AsksExactly(book[1..], price, size);
    }
  }

  function Insert(a: Ask, asks: seq<Ask>): seq<Ask> {
    if asks == [] || a.price <= asks[0].price then [a] + asks else [asks[0]] + Insert(a, asks[1..])
  }

  /** The stable sort by price. */
  function Sorted(asks: seq<Ask>): seq<Ask> {
    if asks == [] then [] else Insert(asks[0], Sorted(asks[1..]))
  }

  predicate Positive(asks: seq<Ask>) {
    forall i :: 0 <= i < |asks| ==> asks[i].price > 0.0 && asks[i].size > 0.0
  }

  lemma BookCons(a: Ask, asks: seq<Ask>)
    requires Book(asks) && a.price > 0.0 && a.size > 0.0 && (asks != [] ==> a.price <= asks[0].price)
    ensures Book([a] + asks)
  {
  }

  lemma {:induction false} InsertSorts(a: Ask, asks: seq<Ask>)
    requires Book(asks) && a.price > 0.0 && a.size > 0.0
    ensures Book(Insert(a, asks))
    decreases asks
  {
    if asks == [] || a.price <= asks[0].price {
      BookCons(a, asks);
    } else {
      InsertSorts(a, asks[1..]);
      BookCons(asks[0], Insert(a, asks[1..]));
    }
  }

  lemma {:induction false} InsertKeeps(a: Ask, asks: seq<Ask>)
    ensures multiset(Insert(a, asks)) == multiset(asks) + multiset{a}
    decreases asks
  {
    if asks != [] {
      assert asks == [asks[0]] + asks[1..];
      InsertKeeps(a, asks[1..]);
    }
  }

  /** Sorting a book of positive asks keeps them all and puts the cheapest first. */
  lemma {:induction false} SortedIsBook(asks: seq<Ask>)
    requires Positive(asks)
    ensures Book(Sorted(asks)) && multiset(Sorted(asks)) == multiset(asks)
    decreases asks
  {
    if asks != [] {
      assert asks == [asks[0]] + asks[1..];
      SortedIsBook(asks[1..]);
      InsertSorts(asks[0], Sorted(asks[1..]));
      InsertKeeps(asks[0], Sorted(asks[1..]));
    }
  }

  lemma {:induction false} AsksPositive(book: seq<Line>)
    requires forall i :: 0 <= i < |book| ==> book[i].price > 0.0
    ensures Positive(Asks(book))
    decreases book
  {
    if book != [] {
      AsksPositive(book[1..]);
    }
  }

  /** walkRate: the average price over the book's asks, or zero when nothing was bought. */
  method WalkRate(book: seq<Line>, amount: real) returns (rate: real)
    requires amount >= 0.0 && forall i :: 0 <= i < |book| ==> book[i].price > 0.0
    ensures Book(Sorted(Asks(book)))
    ensures var asks := Sorted(Asks(book));
            rate == if Bought(asks, amount) > 0.0 then Filled(asks, amount) / Bought(asks, amount) else 0.0
    ensures var asks := Sorted(Asks(book));
            rate > 0.0 ==>
              && asks != []
              && exists last: nat :: LastTouched(asks, amount, last) && asks[0].price <= rate <= asks[last].price
  {
    hide Filled, Bought, Depth, Asks, Sorted;
    AsksPositive(book);
    SortedIsBook(Asks(book));
    var asks := Sorted(Asks(book));
    var filled, btc, last := Walk(asks, amount);
    rate := 0.0;
    if btc > 0.0 {
      DivBetween(filled, btc, asks[0].price, asks[last].price);
      rate := filled / btc;
    }
  }

  /** The rate is the least average price at which that much USDT can be spent on the book. */
  lemma LeastAverage(asks: seq<Ask>, amount: real, spend: seq<real>)
    requires Book(asks) && amount >= 0.0 && Feasible(asks, spend)
    requires Spent(spend) == Filled(asks, amount) && Buys(asks, spend) > 0.0
    ensures Bought(asks, amount) > 0.0
    ensures Filled(asks, amount) / Bought(asks, amount) <= Spent(spend) / Buys(asks, spend)
  {
    GreedyOptimal(asks, spend);
    FillsDepth(asks, amount);
    SameFill(asks, amount);
    DivLess(Spent(spend), Buys(asks, spend), Bought(asks, amount));
  }

  /** Money the book cannot take buys nothing. */
  lemma {:induction false} SameFill(asks: seq<Ask>, amount: real)
    requires Book(asks) && amount >= 0.0
    ensures Bought(asks, Filled(asks, amount)) == Bought(asks, amount)
    decreases asks
  {
    FillsDepth(asks, amount);
    if asks != [] {
      CostPositive(asks[0]);
      var take := Min(asks[0].Cost(), amount);
      SameFill(asks[1..], amount - take);
      FillsDepth(asks[1..], amount - take);
    }
  }
}
