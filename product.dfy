/** Catalog products: a name, a category with its own attributes, and a
    price that can be changed in place after the product was created. */
module Products {

  /** The attributes that distinguish the three product kinds. They are only
      ever displayed, never consulted by the order lifecycle. */
  datatype Category =
    | Electronics(brand: string, warrantyMonths: int)
    | Clothing(size: string, material: string)
    | Book(author: string, pages: int)

  /** A product is shared by reference between the catalog, carts and order
      histories, so it is a heap object: a price change made through any
      reference is seen through all of them. Prices are exact reals. */
  class Product {
    const name: string
    const category: Category
    var price: real

    constructor (name: string, price: real, category: Category)
      ensures this.name == name && this.price == price && this.category == category
    {
      this.name := name;
      this.price := price;
      this.category := category;
    }

    /** Overwrites the price; like the original, no value is rejected. */
    method SetPrice(p: real)
      modifies this
      ensures price == p
    {
      price := p;
    }

    /** Price comparison: this product costs more than `other`. */
    predicate Greater(other: Product): (more: bool)
      reads this, other
      ensures more ==> this != other
    {
      price > other.price
    }

    /** Price comparison: this product costs less than `other`. */
    predicate Less(other: Product): (cheaper: bool)
      reads this, other
      ensures cheaper ==> this != other
    {
      price < other.price
    }
  }

  /** The price left after taking `percentage` percent off `price`. The
      percentage is not range-checked: above 100 the price turns negative,
      below 0 it rises. */
  function Discounted(price: real, percentage: real): (r: real)
    ensures 0.0 <= price && 0.0 <= percentage <= 100.0 ==> 0.0 <= r <= price
  {
    price - price * percentage / 100.0
  }

  /** Takes `percentage` percent off the product's price, in place. */
  method ApplyDiscount(product: Product, percentage: real)
    modifies product
    ensures product.price == Discounted(old(product.price), percentage)
  {
    product.price := product.price - product.price * percentage / 100.0;
  }

  /** How the unchecked percentage behaves at and beyond its intended range. */
  lemma DiscountEdges(price: real, percentage: real)
    requires 0.0 < price
    ensures percentage == 0.0 ==> Discounted(price, percentage) == price
    ensures percentage == 100.0 ==> Discounted(price, percentage) == 0.0
    ensures 0.0 < percentage ==> Discounted(price, percentage) < price
    ensures 100.0 < percentage ==> Discounted(price, percentage) < 0.0
    ensures percentage < 0.0 ==> price < Discounted(price, percentage)
  {
  }

  /** Two successive discounts give the same price in either order, and
      equal a single discount of a + b - a*b/100 percent. */
  lemma DiscountsCompose(price: real, a: real, b: real)
    ensures Discounted(Discounted(price, a), b) == Discounted(Discounted(price, b), a)
    ensures Discounted(Discounted(price, a), b) == Discounted(price, a + b - a * b / 100.0)
  {
  }

  /** The two price comparisons form a strict order, each the converse of
      the other, and two products neither less nor greater cost the same. */
  lemma PriceComparisonIsStrictOrder(x: Product, y: Product, z: Product)
    ensures !x.Less(x) && !x.Greater(x)
    ensures x.Greater(y) <==> y.Less(x)
    ensures x.Less(y) ==> !y.Less(x)
    ensures x.Less(y) && y.Less(z) ==> x.Less(z)
    ensures !x.Less(y) && !x.Greater(y) ==> x.price == y.price
  {
  }

  /** The worked example: 20 percent off a price of 100 leaves 80. */
  lemma DiscountExample()
    ensures Discounted(100.0, 20.0) == 80.0
  {
  }
}
