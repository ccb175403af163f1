/** The catalogue record and the price pair shared by the home page and the side bar. */
module Catalog {

  /**
   * One record of the catalogue file. The image URI is not modelled; prices and
   * ratings are exact decimals.
   */
  datatype Product = Product(
    id: int,
    title: string,
    description: string,
    category: string,
    brand: string,
    price: real,
    rating: real)

  /** The `[min, max]` pair of the price filter. */
  datatype PriceRange = PriceRange(lo: int, hi: int)

  /** The initial price filter, `[0, 2000]`, which is also the slider's extent. */
  const DefaultPriceRange := PriceRange(0, 2000)
}
