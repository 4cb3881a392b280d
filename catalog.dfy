/** The product record of the catalogue (the `Product` interface of the
    product card). Prices and yarn quotas are JavaScript numbers in the
    source; the model takes them as whole numbers. The image reference is
    only ever an image source for display and is not part of the model. */
module Catalog {

  /** How many colours the customer must choose in each yarn class. */
  datatype YarnRequirements = YarnRequirements(normal: int, doubleStrand: int)

  /** The colours on offer in each yarn class. */
  datatype AvailableColors = AvailableColors(normal: seq<string>, doubleStrand: seq<string>)

  datatype Product = Product(
    id: string,
    name: string,
    description: string,
    price: int,
    category: string,
    yarnRequirements: YarnRequirements,
    availableColors: AvailableColors)

  /** Each yarn class offers at least as many colours as its quota asks for,
      and the quotas are not negative. */
  predicate QuotasReachable(p: Product)
  {
    && 0 <= p.yarnRequirements.normal <= |p.availableColors.normal|
    && 0 <= p.yarnRequirements.doubleStrand <= |p.availableColors.doubleStrand|
  }
}
