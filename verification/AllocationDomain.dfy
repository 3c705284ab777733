/** The ordering context's Batch: stock of one SKU and the quantities allocated to orders. */
module AllocationDomain {
  import opened Kernel

  type Allocations = map<OrderId, int>

  /** Sum of the values of a map; SumRemove shows the order of summation does not matter. */
  ghost function Sum(m: Allocations): int {
    if m == map[] then 0
    else
      var k :| k in m;
      m[k] + Sum(m - {k})
  }

  lemma {:induction false} SumRemove(m: Allocations, k: OrderId)
    requires k in m
    ensures Sum(m) == m[k] + Sum(m - {k})
    decreases |m|
  {
    var first :| first in m && Sum(m) == m[first] + Sum(m - {first});
    if first != k {
      SumRemove(m - {first}, k);
      SumRemove(m - {k}, first);
      assert m - {first} - {k} == m - {k} - {first};
    }
  }

  lemma SumPut(m: Allocations, k: OrderId, q: int)
    ensures Sum(m[k := q]) == Sum(m - {k}) + q
    ensures Sum(m) == Sum(m - {k}) + (if k in m then m[k] else 0)
  {
    SumRemove(m[k := q], k);
    assert m[k := q] - {k} == m - {k};
    if k in m {
      SumRemove(m, k);
    } else {
      assert m - {k} == m;
    }
  }

  datatype BatchValue = BatchValue(id: BatchId, sku: string, qty: int, eta: Option<Time>,
                                   allocations: Allocations, version: int)
  {
    ghost function AvailableQty(): int {
      qty - Sum(allocations)
    }

    ghost function Allocate(order: OrderId, q: int): Result<BatchValue> {
      if AvailableQty() < q then Err(InsufficientQty)
      else Ok(this.(allocations := allocations[order := q]))
    }

    function Deallocate(order: OrderId): Result<BatchValue> {
      if order !in allocations then Err(OrderNotAllocated)
      else Ok(this.(allocations := allocations - {order}))
    }

    /** No order holds a negative quantity and the orders together hold at most the stock. */
    ghost predicate Valid() {
      (forall o :: o in allocations ==> allocations[o] >= 0) && Sum(allocations) <= qty
    }
  }

  function NewBatch(id: BatchId, sku: string, qty: int, eta: Option<Time>): BatchValue {
    BatchValue(id, sku, qty, eta, map[], 0)
  }

  lemma NewBatchValidIff(id: BatchId, sku: string, qty: int, eta: Option<Time>)
    ensures NewBatch(id, sku, qty, eta).Valid() <==> qty >= 0
  {
  }

  /** A successful allocation, first or repeated, keeps the batch valid exactly when the quantity is not negative. */
  lemma AllocateKeepsValidIff(b: BatchValue, order: OrderId, q: int)
    requires b.Valid() && b.Allocate(order, q).Ok?
    ensures b.Allocate(order, q).value.Valid() <==> q >= 0
  {
    SumPut(b.allocations, order, q);
    assert b.allocations[order := q][order] == q;
  }

  /** An allocation goes through exactly when the quantity does not exceed the stock minus all shares. The order then
      holds exactly the quantity, in place of any share it had, and nothing else changes. */
  lemma AllocateIs(b: BatchValue, order: OrderId, q: int)
    ensures b.Allocate(order, q) == if q > b.qty - Sum(b.allocations) then Err(InsufficientQty)
                                    else Ok(b.(allocations := b.allocations[order := q]))
    ensures b.Allocate(order, q).Ok? ==>
              var b' := b.Allocate(order, q).value;
              && order in b'.allocations && b'.allocations[order] == q
              && b'.allocations - {order} == b.allocations - {order}
              && b'.AvailableQty() ==
                   b.AvailableQty() + (if order in b.allocations then b.allocations[order] else 0) - q
  {
    SumPut(b.allocations, order, q);
  }

  /** A deallocation goes through exactly for an order that holds a share, and removes that share only. */
  lemma DeallocateIs(b: BatchValue, order: OrderId)
    ensures b.Deallocate(order) == if order !in b.allocations then Err(OrderNotAllocated)
                                   else Ok(b.(allocations := b.allocations - {order}))
  {
  }

  lemma DeallocateKeepsValid(b: BatchValue, order: OrderId)
    requires b.Valid() && b.Deallocate(order).Ok?
    ensures b.Deallocate(order).value.Valid()
    ensures b.Deallocate(order).value.AvailableQty() == b.AvailableQty() + b.allocations[order]
  {
    SumRemove(b.allocations, order);
  }

  /** Allocating and then deallocating an order that held nothing restores the batch. */
  lemma DeallocateUndoesAllocate(b: BatchValue, order: OrderId, q: int)
    requires order !in b.allocations && b.Allocate(order, q).Ok?
    ensures b.Allocate(order, q).value.Deallocate(order) == Ok(b)
  {
    assert b.allocations[order := q] - {order} == b.allocations;
  }

  /** The check ignores what the order already holds: a replacement that would fit is refused exactly when it
      asks for more than the free stock and no more than the free stock plus the order's own share. */
  lemma FittingReallocationRefusedIff(b: BatchValue, order: OrderId, q: int)
    requires b.Valid() && order in b.allocations && q >= 0
    ensures b.Allocate(order, q).Err? && b.(allocations := b.allocations[order := q]).Valid() <==>
            b.AvailableQty() < q <= b.AvailableQty() + b.allocations[order]
  {
    SumPut(b.allocations, order, q);
    var replaced := b.allocations[order := q];
    assert forall o :: o in replaced ==> replaced[o] >= 0;
  }

  /** Negative quantities defeat the bound: three accepted calls leave 15 allocated out of 10. */
  lemma NegativeAllocationOverbooks(id: BatchId, sku: string, x: OrderId, y: OrderId)
    requires x != y
    ensures var b0 := NewBatch(id, sku, 10, None);
            && b0.Allocate(x, -5).Ok?
            && var b1 := b0.Allocate(x, -5).value;
            && b1.Allocate(y, 15).Ok?
            && var b2 := b1.Allocate(y, 15).value;
            && b2.Allocate(x, 0).Ok?
            && Sum(b2.Allocate(x, 0).value.allocations) == 15 > b2.qty
  {
    var m0: Allocations := map[];
    SumPut(m0, x, -5);
    assert m0 - {x} == m0;
    var m1 := m0[x := -5];
    SumPut(m1, y, 15);
    assert m1 - {y} == m1;
    var m2 := m1[y := 15];
    SumPut(m2, x, 0);
  }

  class Batch {
    var id: BatchId
    var sku: string
    var qty: int
    var eta: Option<Time>
    var allocations: Allocations
    var version: int

    function Value(): BatchValue
      reads this
    {
      BatchValue(id, sku, qty, eta, allocations, version)
    }

    constructor New(id: BatchId, sku: string, qty: int, eta: Option<Time>)
      ensures Value() == NewBatch(id, sku, qty, eta)
    {
      this.id, this.sku, this.qty, this.eta := id, sku, qty, eta;
      allocations, version := map[], 0;
    }

    constructor Reconstruct(v: BatchValue)
      ensures Value() == v
    {
      id, sku, qty, eta := v.id, v.sku, v.qty, v.eta;
      allocations, version := v.allocations, v.version;
    }

    /** The map is ranged over in an arbitrary order. */
    method AvailableQty() returns (free: int)
      ensures free == Value().AvailableQty()
    {
      var sum := 0;
      var todo := allocations;
      while todo != map[]
        invariant sum + Sum(todo) == Sum(allocations)
        decreases |todo|
      {
        var o :| o in todo;
        SumRemove(todo, o);
        sum := sum + todo[o];
        todo := todo - {o};
      }
      free := qty - sum;
    }

    method CanAllocate(q: int) returns (can: bool)
      ensures can <==> Value().AvailableQty() >= q
    {
      var free := AvailableQty();
      can := free >= q;
    }

    method Allocate(order: OrderId, q: int) returns (err: Option<Error>)
      modifies this
      ensures match old(Value()).Allocate(order, q)
              case Ok(v) => err == None && Value() == v
              case Err(e) => err == Some(e) && Value() == old(Value())
    {
      var can := CanAllocate(q);
      if !can {
        return Some(InsufficientQty);
      }
      allocations := allocations[order := q];
      return None;
    }

    method Deallocate(order: OrderId) returns (err: Option<Error>)
      modifies this
      ensures match old(Value()).Deallocate(order)
              case Ok(v) => err == None && Value() == v
              case Err(e) => err == Some(e) && Value() == old(Value())
    {
      if order !in allocations {
        return Some(OrderNotAllocated);
      }
      allocations := allocations - {order};
      return None;
    }
  }
}
