/** The records the recommendation worker receives: products from the
    catalogue and users with the products they bought. */
module Records {
  /** A catalogue entry `{name, price, category, color}`; `name` is its key. */
  datatype Product = Product(name: string, price: real, category: string, color: string)

  /** A user: an age and the product records they bought, in order. An empty
      `purchases` is a cold-start user. */
  datatype User = User(age: real, purchases: seq<Product>)

  function Ages(users: seq<User>): (ages: seq<real>)
    ensures |ages| == |users|
  {
    seq(|users|, i requires 0 <= i < |users| => users[i].age)
  }

  function Prices(products: seq<Product>): (prices: seq<real>)
    ensures |prices| == |products|
  {
    seq(|products|, i requires 0 <= i < |products| => products[i].price)
  }

  function Categories(products: seq<Product>): (categories: seq<string>)
    ensures |categories| == |products|
  {
    seq(|products|, i requires 0 <= i < |products| => products[i].category)
  }

  function Colors(products: seq<Product>): (colors: seq<string>)
    ensures |colors| == |products|
  {
    seq(|products|, i requires 0 <= i < |products| => products[i].color)
  }
}
