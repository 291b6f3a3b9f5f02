/** A line item of the bill, with its three text fields kept exactly as typed. */
module Items {

  /** The editable fields of an item, the keys the row inputs pass to `updateItem`. */
  datatype Field = Name | Quantity | Price

  datatype Item = Item(id: int, name: string, quantity: string, price: string) {

    function Get(f: Field): string {
      match f
      case Name => name
      case Quantity => quantity
      case Price => price
    }

    /** `{ ...item, [f]: value }`: the item with field `f` replaced and everything else kept. */
    function With(f: Field, value: string): (r: Item)
      ensures r.id == id && r.Get(f) == value
      ensures forall g :: g != f ==> r.Get(g) == Get(g)
    {
      match f
      case Name => this.(name := value)
      case Quantity => this.(quantity := value)
      case Price => this.(price := value)
    }
  }

  /** A freshly added row: an id and three empty fields. */
  function EmptyItem(id: int): Item {
    Item(id, "", "", "")
  }
}
