/** The records the dashboard exchanges with its backend. */
module Types {

  /** A product row; the price is a number of shillings, kept exact. */
  datatype Product = Product(
    id: string,
    name: string,
    description: string,
    price: real,
    category: string,
    stock_quantity: int,
    image_url: string,
    is_active: bool)
}
