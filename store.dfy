/** The in-memory record list every page keeps in its state: seeded once, then
    appended to by create, rewritten by edit and filtered by delete. */
module Store {
  import opened Lists

  class EntityStore<R(!new)> {
    /** How a record names itself (its `id` field). */
    const key: R -> string
    /** The list, in insertion order. */
    var items: seq<R>

    constructor (key: R -> string, seed: seq<R>)
      ensures this.key == key && items == seed
    {
      this.key := key;
      items := seed;
    }

    /** `setItems([...items, rec])`: one record more, at the end. */
    method Append(rec: R)
      modifies this
      ensures items == old(items) + [rec]
    {
      items := items + [rec];
    }

    /** `setItems(items.map(x => x.id === id ? upd(x) : x))`: every record under `id`
        rewritten by `upd`, the others untouched, the length kept. */
    method UpdateById(id: string, upd: R -> R)
      modifies this
      ensures items == MapWhere(old(items), key, id, upd)
      ensures |items| == |old(items)|
    {
      items := MapWhere(items, key, id, upd);
    }

    /** `setItems(items.filter(x => x.id !== id))`: every record under `id` gone, the
        others kept in order. */
    method DeleteById(id: string)
      modifies this
      ensures items == RemoveId(old(items), key, id)
      ensures forall x :: x in items <==> x in old(items) && key(x) != id
    {
      items := RemoveId(items, key, id);
    }
  }
}
