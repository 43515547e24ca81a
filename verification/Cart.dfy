/** A line of a cart, as it is quoted and as it is ordered. */
module Cart {

  datatype Line = Line(product: nat, qty: int)
}
