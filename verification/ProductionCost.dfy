/** The cost of a recipe, accumulated in wrapping 64-bit arithmetic. */
module ProductionCost {
  import opened Kernel

  const TWO_63: int := 0x8000_0000_0000_0000
  const TWO_64: int := 0x1_0000_0000_0000_0000

  type int64 = x: int | -TWO_63 <= x < TWO_63

  predicate Fits(x: int) {
    -TWO_63 <= x < TWO_63
  }

  /** What Go's + and * leave of a mathematical result: 2^64 is taken off, or put on, until it fits. */
  function Wrap(x: int): (w: int64)
    ensures Fits(x) ==> w == x
    decreases if x >= TWO_63 then x - TWO_63 + 1 else if x < -TWO_63 then -TWO_63 - x else 0
  {
    if x >= TWO_63 then Wrap(x - TWO_64)
    else if x < -TWO_63 then Wrap(x + TWO_64)
    else x
  }

  lemma {:induction false} WrapIgnoresMultiples(x: int, k: int)
    ensures Wrap(x + k * TWO_64) == Wrap(x)
    decreases if k >= 0 then k else -k
  {
    if k > 0 {
      WrapIgnoresMultiples(x, k - 1);
      WrapIgnoresOne(x + (k - 1) * TWO_64);
    } else if k < 0 {
      WrapIgnoresMultiples(x, k + 1);
      WrapIgnoresOne(x + k * TWO_64);
    }
  }

  lemma WrapIgnoresOne(x: int)
    ensures Wrap(x + TWO_64) == Wrap(x)
  {
  }

  /** The wrapped value differs from the mathematical one by a multiple of 2^64. */
  lemma {:induction false} WrapIsCongruent(x: int) returns (k: int)
    ensures x == Wrap(x) + k * TWO_64
    decreases if x >= TWO_63 then x - TWO_63 + 1 else if x < -TWO_63 then -TWO_63 - x else 0
  {
    if x >= TWO_63 {
      k := WrapIsCongruent(x - TWO_64);
      k := k + 1;
    } else if x < -TWO_63 {
      k := WrapIsCongruent(x + TWO_64);
      k := k - 1;
    } else {
      k := 0;
    }
  }

  lemma WrapAdd(x: int, y: int)
    ensures Wrap(Wrap(x) + Wrap(y)) == Wrap(x + y)
  {
    var i := WrapIsCongruent(x);
    var j := WrapIsCongruent(y);
    assert x + y == Wrap(x) + Wrap(y) + (i + j) * TWO_64;
    WrapIgnoresMultiples(Wrap(x) + Wrap(y), i + j);
  }

  lemma Distribute(w: int, i: int, t: int, q: int)
    ensures (w + i * t) * q == w * q + (i * q) * t
  {
    assert (i * t) * q == (i * q) * t;
  }

  lemma WrapMul(x: int, q: int)
    ensures Wrap(Wrap(x) * q) == Wrap(x * q)
  {
    var i := WrapIsCongruent(x);
    var w, m := Wrap(x), i * q;
    Distribute(w, i, TWO_64, q);
    var product := w * q;
    assert x * q == product + m * TWO_64;
    WrapIgnoresMultiples(product, m);
  }

  datatype Ingredient = Ingredient(material: IngredientId, quantity: int64)

  datatype CostLine = CostLine(material: IngredientId, qty: int64, unitPrice: int64, total: int64)

  datatype CostResult = CostResult(qty: int64, lines: seq<CostLine>, totalCost: int64)

  /** The default for a missing or non-positive quantity. */
  function EffectiveQty(qty: int64): int64 {
    if qty <= 0 then 1 else qty
  }

  /** The mathematical sum of price * quantity over the first n ingredients. */
  function Exact(recipe: seq<Ingredient>, prices: seq<int64>, n: nat): int
    requires n <= |recipe| && n <= |prices|
  {
    if n == 0 then 0 else Exact(recipe, prices, n - 1) + prices[n - 1] * recipe[n - 1].quantity
  }

  function LineTotals(lines: seq<CostLine>): int {
    if lines == [] then 0 else LineTotals(lines[..|lines| - 1]) + lines[|lines| - 1].total
  }

  /** The answers of the price reader, one per ingredient; None is an error. */
  function Known(answers: seq<Option<int64>>): (prices: seq<int64>)
    requires forall i :: 0 <= i < |answers| ==> answers[i].Some?
    ensures |prices| == |answers| && forall i :: 0 <= i < |answers| ==> prices[i] == answers[i].value
  {
    seq(|answers|, i requires 0 <= i < |answers| => answers[i].value)
  }

  /** One turn of the loop keeps the running total the wrapped mathematical sum. */
  lemma Accumulate(recipe: seq<Ingredient>, prices: seq<int64>, price: int64)
    requires |prices| < |recipe|
    ensures var n := |prices|;
            Wrap(Wrap(Exact(recipe, prices, n)) + Wrap(price * recipe[n].quantity)) ==
            Wrap(Exact(recipe, prices + [price], n + 1))
  {
    ExactPrefix(recipe, prices, [price], |prices|);
    WrapAdd(Exact(recipe, prices, |prices|), price * recipe[|prices|].quantity);
  }

  ghost predicate LinesOf(recipe: seq<Ingredient>, prices: seq<int64>, lines: seq<CostLine>) {
    |lines| == |prices| <= |recipe| &&
    forall j :: 0 <= j < |lines| ==>
      lines[j] == CostLine(recipe[j].material, recipe[j].quantity, prices[j], Wrap(prices[j] * recipe[j].quantity))
  }

  /** CalcCostHandler.Handle on a loaded recipe. It fails exactly when some price is missing; otherwise each line
      is the wrapped product and the total is the wrapped mathematical cost, however often the accumulation
      wrapped on the way. */
  method CalcCost(recipe: Option<seq<Ingredient>>, cmdQty: int64, answers: seq<Option<int64>>)
      returns (r: Result<CostResult>)
    requires recipe.Some? ==> |answers| == |recipe.value|
    ensures recipe.None? ==> r == Err(RecipeNotFound)
    ensures recipe.Some? ==> (r.Ok? <==> forall i :: 0 <= i < |answers| ==> answers[i].Some?)
    ensures recipe.Some? && r.Err? ==> r.error == PriceFailure
    ensures r.Ok? ==>
              IsAnswer(recipe.value, Known(answers), cmdQty, r.value)
  {
    if recipe.None? {
      return Err(RecipeNotFound);
    }
    var qty: int64 := if cmdQty <= 0 then 1 else cmdQty;
    var ingredients := recipe.value;
    var lines: seq<CostLine> := [];
    var total: int64 := 0;
    ghost var prices: seq<int64> := [];
    for i := 0 to |ingredients|
      invariant |prices| == i && LinesOf(ingredients, prices, lines)
      invariant forall j :: 0 <= j < i ==> answers[j] == Some(prices[j])
      invariant total == Wrap(Exact(ingredients, prices, i))
    {
      if answers[i].None? {
        return Err(PriceFailure);
      }
      var price := answers[i].value;
      var lineTotal := Wrap(price * ingredients[i].quantity);
      lines := lines + [CostLine(ingredients[i].material, ingredients[i].quantity, price, lineTotal)];
      Accumulate(ingredients, prices, price);
      prices := prices + [price];
      total := Wrap(total + lineTotal);
    }
    assert prices == Known(answers);
    WrapMul(Exact(ingredients, prices, |ingredients|), qty);
    return Ok(CostResult(qty, lines, Wrap(total * qty)));
  }

  lemma {:induction false} ExactPrefix(recipe: seq<Ingredient>, prices: seq<int64>, more: seq<int64>, n: nat)
    requires n <= |recipe| && n <= |prices|
    ensures Exact(recipe, prices + more, n) == Exact(recipe, prices, n)
  {
    if n > 0 {
      ExactPrefix(recipe, prices, more, n - 1);
    }
  }

  /** What CalcCost promises of a successful answer. */
  ghost predicate IsAnswer(recipe: seq<Ingredient>, prices: seq<int64>, cmdQty: int64, r: CostResult) {
    && |r.lines| == |recipe| == |prices| && LinesOf(recipe, prices, r.lines)
    && r.qty == EffectiveQty(cmdQty)
    && r.totalCost == Wrap(Exact(recipe, prices, |recipe|) * EffectiveQty(cmdQty))
  }

  /** The reported total is the mathematical cost exactly when that cost fits in 64 bits, whatever the signs. */
  lemma TotalExactIffItFits(recipe: seq<Ingredient>, prices: seq<int64>, cmdQty: int64, r: CostResult)
    requires IsAnswer(recipe, prices, cmdQty, r)
    ensures var cost := Exact(recipe, prices, |recipe|) * EffectiveQty(cmdQty);
            r.totalCost == cost <==> Fits(cost)
  {
  }

  /** Adding up the wrapped line totals loses a multiple of 2^64 only. */
  lemma {:induction false} LineTotalsWrap(recipe: seq<Ingredient>, prices: seq<int64>, lines: seq<CostLine>, n: nat)
    requires n <= |lines| && LinesOf(recipe, prices, lines)
    ensures Wrap(LineTotals(lines[..n])) == Wrap(Exact(recipe, prices, n))
  {
    if n > 0 {
      LineTotalsWrap(recipe, prices, lines, n - 1);
      LineTotalsNext(lines, n - 1);
      NextLineWraps(recipe, prices, lines[n - 1].total, LineTotals(lines[..n - 1]), n - 1);
    }
  }

  lemma NextLineWraps(recipe: seq<Ingredient>, prices: seq<int64>, lineTotal: int, total: int, n: nat)
    requires n < |recipe| && n < |prices| && lineTotal == Wrap(prices[n] * recipe[n].quantity)
    requires Wrap(total) == Wrap(Exact(recipe, prices, n))
    ensures Wrap(total + lineTotal) == Wrap(Exact(recipe, prices, n + 1))
  {
    WrapSum(total, Exact(recipe, prices, n), prices[n] * recipe[n].quantity);
  }

  lemma LineTotalsNext(lines: seq<CostLine>, n: nat)
    requires n < |lines|
    ensures LineTotals(lines[..n + 1]) == LineTotals(lines[..n]) + lines[n].total
  {
    assert lines[..n + 1][..n] == lines[..n];
  }

  lemma WrapSum(x: int, y: int, product: int)
    requires Wrap(x) == Wrap(y)
    ensures Wrap(x + Wrap(product)) == Wrap(y + product)
  {
    WrapAdd(x, Wrap(product));
    WrapAdd(y, product);
  }

  /** The documented total, the sum of the reported line totals times the quantity, is what is reported exactly when
      that number fits; single lines may have overflowed. */
  lemma TotalIsLinesTimesQtyIff(recipe: seq<Ingredient>, prices: seq<int64>, cmdQty: int64, r: CostResult)
    requires IsAnswer(recipe, prices, cmdQty, r)
    ensures r.totalCost == LineTotals(r.lines) * r.qty <==> Fits(LineTotals(r.lines) * r.qty)
  {
    var n := |recipe|;
    assert r.lines[..n] == r.lines;
    LineTotalsWrap(recipe, prices, r.lines, n);
    WrapMul(LineTotals(r.lines), r.qty);
    WrapMul(Exact(recipe, prices, n), r.qty);
  }

  /** One ingredient at a price of 2^62, two bouquets: the reported cost is -2^63. */
  lemma OverflowingRecipe(material: IngredientId, r: CostResult)
    requires IsAnswer([Ingredient(material, 1)], [0x4000_0000_0000_0000], 2, r)
    ensures Exact([Ingredient(material, 1)], [0x4000_0000_0000_0000], 1) * 2 == TWO_63
    ensures r.totalCost == -0x8000_0000_0000_0000
  {
    var recipe, prices := [Ingredient(material, 1)], [0x4000_0000_0000_0000];
    assert Exact(recipe, prices, 0) == 0;
    assert Exact(recipe, prices, 1) == 0x4000_0000_0000_0000;
    assert Wrap(TWO_63) == Wrap(TWO_63 - TWO_64) == -TWO_63;
  }

  lemma {:induction false} ExactGrows(recipe: seq<Ingredient>, prices: seq<int64>, n: nat, m: nat)
    requires n <= m <= |recipe| && m <= |prices|
    requires forall i :: 0 <= i < m ==> prices[i] >= 0 && recipe[i].quantity >= 0
    ensures 0 <= Exact(recipe, prices, n) <= Exact(recipe, prices, m)
    decreases m
  {
    if m > 0 {
      assert prices[m - 1] * recipe[m - 1].quantity >= 0;
      if n < m {
        ExactGrows(recipe, prices, n, m - 1);
      } else {
        ExactGrows(recipe, prices, m - 1, m - 1);
      }
    }
  }

  lemma ScaledFits(sum: int, q: int)
    requires sum >= 0 && q >= 1 && Fits(sum * q)
    ensures Fits(sum)
  {
    assert sum * q == sum + sum * (q - 1);
  }

  ghost predicate NonNegative(recipe: seq<Ingredient>, prices: seq<int64>) {
    |recipe| == |prices| && forall i :: 0 <= i < |recipe| ==> prices[i] >= 0 && recipe[i].quantity >= 0
  }

  /** A partial sum and the product it adds are bounded by the whole. */
  lemma PartsFit(recipe: seq<Ingredient>, prices: seq<int64>, n: nat)
    requires NonNegative(recipe, prices) && n < |recipe|
    requires Fits(Exact(recipe, prices, |recipe|))
    ensures Fits(prices[n] * recipe[n].quantity) && Fits(Exact(recipe, prices, n + 1))
  {
    ExactGrows(recipe, prices, n, n + 1);
    ExactGrows(recipe, prices, n + 1, |recipe|);
  }

  lemma SumFits(recipe: seq<Ingredient>, prices: seq<int64>, qty: int64)
    requires NonNegative(recipe, prices) && Fits(Exact(recipe, prices, |recipe|) * EffectiveQty(qty))
    ensures Fits(Exact(recipe, prices, |recipe|))
  {
    ExactGrows(recipe, prices, 0, |recipe|);
    ScaledFits(Exact(recipe, prices, |recipe|), EffectiveQty(qty));
  }

  /** With non-negative prices and quantities, a cost that fits means that nothing on the way overflows: no
      line product, no partial sum, not the final product. */
  lemma NothingOverflowsIfCostFits(recipe: seq<Ingredient>, prices: seq<int64>, qty: int64, n: nat)
    requires NonNegative(recipe, prices) && n < |recipe|
    requires Fits(Exact(recipe, prices, |recipe|) * EffectiveQty(qty))
    ensures Fits(prices[n] * recipe[n].quantity)
    ensures Fits(Exact(recipe, prices, n + 1))
    ensures Fits(Exact(recipe, prices, |recipe|))
  {
    SumFits(recipe, prices, qty);
    PartsFit(recipe, prices, n);
  }

  lemma {:induction false} LineTotalsAreExact(recipe: seq<Ingredient>, prices: seq<int64>, lines: seq<CostLine>)
    requires |lines| <= |recipe| && |lines| <= |prices|
    requires forall i :: 0 <= i < |lines| ==> lines[i].total == prices[i] * recipe[i].quantity
    ensures LineTotals(lines) == Exact(recipe, prices, |lines|)
  {
    if lines != [] {
      LineTotalsAreExact(recipe, prices, lines[..|lines| - 1]);
    }
  }

  lemma LinesAreExact(recipe: seq<Ingredient>, prices: seq<int64>, lines: seq<CostLine>)
    requires NonNegative(recipe, prices) && |lines| == |recipe| && LinesOf(recipe, prices, lines)
    requires Fits(Exact(recipe, prices, |recipe|))
    ensures forall i :: 0 <= i < |recipe| ==> lines[i].total == prices[i] * recipe[i].quantity
  {
    forall i | 0 <= i < |recipe|
      ensures lines[i].total == prices[i] * recipe[i].quantity
    {
      PartsFit(recipe, prices, i);
    }
  }

  /** For a result as CalcCost returns it: with non-negative inputs and a cost that fits, every line total is the
      mathematical product, and the total cost is the sum of the line totals times the quantity. */
  lemma CostIsExact(recipe: seq<Ingredient>, prices: seq<int64>, cmdQty: int64, r: CostResult)
    requires NonNegative(recipe, prices) && IsAnswer(recipe, prices, cmdQty, r)
    requires Fits(Exact(recipe, prices, |recipe|) * EffectiveQty(cmdQty))
    ensures forall i :: 0 <= i < |recipe| ==> r.lines[i].total == prices[i] * recipe[i].quantity
    ensures r.totalCost == LineTotals(r.lines) * EffectiveQty(cmdQty)
    ensures r.totalCost == Exact(recipe, prices, |recipe|) * EffectiveQty(cmdQty)
  {
    SumFits(recipe, prices, cmdQty);
    LinesAreExact(recipe, prices, r.lines);
    LineTotalsAreExact(recipe, prices, r.lines);
  }

  /** The quantity an answer is for: the one asked for if it is positive, otherwise one. */
  lemma TotalIsForQty(recipe: seq<Ingredient>, prices: seq<int64>, cmdQty: int64, r: CostResult)
    requires IsAnswer(recipe, prices, cmdQty, r)
    ensures cmdQty >= 1 ==> r.qty == cmdQty && r.totalCost == Wrap(Exact(recipe, prices, |recipe|) * cmdQty)
    ensures cmdQty <= 0 ==> r.qty == 1 && r.totalCost == Wrap(Exact(recipe, prices, |recipe|))
  {
  }

  /** One line per ingredient, in the recipe's order: its material, its quantity, its price and their product. */
  lemma LinesAre(recipe: seq<Ingredient>, prices: seq<int64>, cmdQty: int64, r: CostResult)
    requires IsAnswer(recipe, prices, cmdQty, r)
    ensures |r.lines| == |recipe|
    ensures forall i :: 0 <= i < |recipe| ==>
              && r.lines[i].material == recipe[i].material && r.lines[i].qty == recipe[i].quantity
              && r.lines[i].unitPrice == prices[i] && r.lines[i].total == Wrap(prices[i] * recipe[i].quantity)
  {
  }
}
