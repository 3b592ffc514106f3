/** The shopping cart: an ordered list of product references in which
    duplicates are allowed, insertion order is display order, and the total
    is computed from the products' current prices. */
module Cart {
  import opened Products

  /** Sum of the current prices of `s`, read through the references. */
  function TotalOf(s: seq<Product>): real
    reads s
  {
    if s == [] then 0.0 else TotalOf(s[..|s| - 1]) + s[|s| - 1].price
  }

  /** `s` without its element at `index`, the rest in their original order. */
  function RemoveAt<T>(s: seq<T>, index: nat): (r: seq<T>)
    requires index < |s|
    ensures |r| == |s| - 1
    ensures forall k :: 0 <= k < index ==> r[k] == s[k]
    ensures forall k :: index <= k < |r| ==> r[k] == s[k + 1]
  {
    s[..index] + s[index + 1..]
  }

  class ShoppingCart {
    var items: seq<Product>

    constructor ()
      ensures items == []
    {
      items := [];
    }

    /** Appends `product` at the end of the cart. */
    method AddProduct(product: Product)
      modifies this
      ensures items == old(items) + [product]
    {
      items := items + [product];
    }

    /** Removes the item at 0-based `index` when it is in range; otherwise
        reports an invalid index (`removed` is false) and changes nothing. */
    method RemoveProduct(index: int) returns (removed: bool)
      modifies this
      ensures removed <==> 0 <= index < |old(items)|
      ensures removed ==> items == RemoveAt(old(items), index)
      ensures !removed ==> items == old(items)
    {
      if 0 <= index < |items| {
        items := items[..index] + items[index + 1..];
        removed := true;
      } else {
        removed := false;
      }
    }

    /** Adds up the current prices of the items, front to back. */
    method CalculateTotal() returns (total: real)
      ensures total == TotalOf(items)
    {
      total := 0.0;
      for i := 0 to |items|
        invariant total == TotalOf(items[..i])
      {
        assert items[..i + 1][..i] == items[..i];
        total := total + items[i].price;
      }
      assert items[..|items|] == items;
    }

    /** The number of items in the cart, duplicates counted separately. */
    method GetItemCount() returns (n: nat)
      ensures n == |items|
    {
      n := |items|;
    }

    /** Empties the cart; only the cart's own list is touched. */
    method ClearCart()
      modifies this
      ensures items == []
    {
      items := [];
    }
  }

  /** The total of a concatenation is the sum of the totals. */
  lemma {:induction false} TotalOfConcat(a: seq<Product>, b: seq<Product>)
    ensures TotalOf(a + b) == TotalOf(a) + TotalOf(b)
    decreases |b|
  {
    if b == [] {
      assert a + b == a;
    } else {
      var b' := b[..|b| - 1];
      TotalOfConcat(a, b');
      assert (a + b)[..|a + b| - 1] == a + b';
    }
  }

  /** Adding a product raises the total by that product's current price. */
  lemma TotalAfterAdd(s: seq<Product>, product: Product)
    ensures TotalOf(s + [product]) == TotalOf(s) + product.price
  {
    assert (s + [product])[..|s|] == s;
  }

  /** Removing the item at `index` lowers the total by exactly its price. */
  lemma TotalAfterRemove(s: seq<Product>, index: nat)
    requires index < |s|
    ensures TotalOf(RemoveAt(s, index)) == TotalOf(s) - s[index].price
  {
    var front, x, back := s[..index], s[index], s[index + 1..];
    assert RemoveAt(s, index) == front + back;
    assert s == (front + [x]) + back;
    calc {
      TotalOf(s);
      { TotalOfConcat(front + [x], back); }
      TotalOf(front + [x]) + TotalOf(back);
      { TotalAfterAdd(front, x); }
      TotalOf(front) + x.price + TotalOf(back);
      { TotalOfConcat(front, back); }
      TotalOf(front + back) + x.price;
    }
  }

  /** Removal takes out exactly one occurrence of the removed product. */
  lemma RemoveAtMultiset<T>(s: seq<T>, index: nat)
    requires index < |s|
    ensures multiset(RemoveAt(s, index)) + multiset{s[index]} == multiset(s)
  {
    assert s == s[..index] + [s[index]] + s[index + 1..];
  }

  /** With no negative prices in the cart, the total is not negative. */
  lemma {:induction false} TotalOfNonNegative(s: seq<Product>)
    requires forall k :: 0 <= k < |s| ==> 0.0 <= s[k].price
    ensures 0.0 <= TotalOf(s)
    decreases |s|
  {
    if s != [] {
      TotalOfNonNegative(s[..|s| - 1]);
    }
  }

  /** The number of times `p` occurs in `s`. */
  function Occurrences<T(==)>(s: seq<T>, p: T): nat
  {
    if s == [] then 0 else Occurrences(s[..|s| - 1], p) + (if s[|s| - 1] == p then 1 else 0)
  }

  /** `Occurrences` is the multiplicity of `p` in the multiset of `s`. */
  lemma {:induction false} OccurrencesIsMultiplicity<T>(s: seq<T>, p: T)
    ensures Occurrences(s, p) == multiset(s)[p]
    decreases |s|
  {
    if s != [] {
      var init := s[..|s| - 1];
      OccurrencesIsMultiplicity(init, p);
      assert s == init + [s[|s| - 1]];
    }
  }

  /** `n` copies of `d` added up; the repeated addition the total performs
      for a product that occurs `n` times. */
  function Times(d: real, n: nat): real
  {
    if n == 0 then 0.0 else Times(d, n - 1) + d
  }

  lemma {:induction false} TimesIsProduct(d: real, n: nat)
    ensures Times(d, n) == d * (n as real)
  {
    if n > 0 {
      TimesIsProduct(d, n - 1);
    }
  }

  /** The shift in `TotalFollowsPriceChange` is the price change times the
      multiplicity of the product in the item list. */
  lemma ShiftIsChangeTimesMultiplicity(d: real, s: seq<Product>, p: Product)
    ensures Times(d, Occurrences(s, p)) == d * (multiset(s)[p] as real)
  {
    TimesIsProduct(d, Occurrences(s, p));
    OccurrencesIsMultiplicity(s, p);
  }

  /** Prices are read live: when only product `p` changed price between two
      states, the total of any item list moves by the price change once for
      every time `p` occurs in it (by `ShiftIsChangeTimesMultiplicity`, the
      change times the multiplicity of `p`). */
  twostate lemma TotalFollowsPriceChange(s: seq<Product>, p: Product)
    requires forall k :: 0 <= k < |s| && s[k] != p ==> old(s[k].price) == s[k].price
    ensures TotalOf(s) == old(TotalOf(s)) + Times(p.price - old(p.price), Occurrences(s, p))
  {
    var d := p.price - old(p.price);
    for i := 0 to |s|
      invariant TotalOf(s[..i]) == old(TotalOf(s[..i])) + Times(d, Occurrences(s[..i], p))
    {
      var done, next := s[..i], s[..i + 1];
      assert next[..i] == done && next[i] == s[i];
      assert TotalOf(next) == TotalOf(done) + s[i].price;
      assert old(TotalOf(next)) == old(TotalOf(done)) + old(s[i].price);
      assert Occurrences(next, p) == Occurrences(done, p) + if s[i] == p then 1 else 0;
    }
    assert s[..|s|] == s;
  }
}
