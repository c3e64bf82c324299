/** The catalog entity shared by every component: a product on the menu. */
module Catalog {

  /** Product: id, name, category, unit price (VNĐ) and the availability flag. */
  datatype Product = Product(id: int, name: string, category: string, price: real, available: bool)
}
