/** The generic response tree that the service's XML is parsed into:
    a response optionally holds an items container, which holds tagged items,
    each of which is a list of name/value properties. */
module Schema {
  import opened Wrappers

  /** One name/value pair of an item; the value may be null. */
  datatype Property = Property(name: string, value: Option<string>)

  /** A tagged property bag; the type tag may be null. */
  datatype Item = Item(itemType: Option<string>, property: seq<Property>)

  /** The items container with its page metadata. */
  datatype Items = Items(
    item: seq<Item>,
    pagenumber: int,
    itemsnumber: int,
    totalpages: int,
    totalitems: int,
    hasnext: bool)

  /** The whole service response; `items` is null for a response without a container. */
  datatype Netlicensing = Netlicensing(items: Option<Items>)
}
