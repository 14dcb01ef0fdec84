/** The catalogue entry: a product with a validated name and a price. */
module Products {
  import opened Wrappers
  import opened Names

  /** A product; `price` is a Python float, taken here as an exact real. */
  datatype Product = Product(name: string, price: real)

  /** Raised by the constructor for a name outside `[a-zA-Z]+[0-9]+`. */
  datatype ValueError = ValueError

  /**
    `Product(name, price)`: rejects the name unless the whole of it is
    letters followed by digits, and otherwise stores both arguments unchanged.
   */
  function NewProduct(name: string, price: real): (r: Result<Product, ValueError>)
    ensures r.Ok? <==> ValidName(name)
    ensures r.Ok? ==> r.value.name == name && r.value.price == price
  {
    if MatchesProductName(name) then Ok(Product(name, price)) else Err(ValueError)
  }

  /** `Product.__eq__`: compares the name and the price, which is exactly value equality of products. */
  function Equals(p: Product, other: Product): (b: bool)
    ensures b <==> p == other
  {
    p.name == other.name && p.price == other.price
  }
}
