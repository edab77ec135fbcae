/** Values exchanged with the inventory endpoint: the raw assets and descriptions
    of one page, and the item records built from them. */
module InventoryTypes {

  datatype Option<+T> = None | Some(value: T) {
    function GetOr(default: T): T {
      match this
      case Some(v) => v
      case None => default
    }
  }

  datatype Result<+T, +E> = Ok(value: T) | Err(error: E)

  /** JavaScript truthiness of an optional string field: a missing field and
      the empty string are both falsy. */
  predicate Truthy(s: Option<string>) {
    s.Some? && s.value != ""
  }

  /** One entry of a page's `descriptions` array. Everything the core does not
      inspect is kept as opaque metadata. */
  datatype Description = Description(
    classid: string,
    instanceid: Option<string>,
    tradable: bool,
    metadata: map<string, string>)

  /** One entry of a page's `assets` array. */
  datatype Asset = Asset(
    assetid: string,
    classid: string,
    instanceid: Option<string>,
    amount: string,
    currencyid: Option<string>)

  /** An asset carrying a (truthy) currencyid is a currency, not an item. */
  predicate IsCurrency(a: Asset) {
    Truthy(a.currencyid)
  }

  /** The item record built for a kept asset: the asset, its resolved
      description (possibly absent), the context id and its position. */
  datatype Item = Item(
    asset: Asset,
    description: Option<Description>,
    contextid: string,
    pos: int)
}
