/** The fields of Map and of its entities that the cluster reaches through Server::get()->map(),
    cell->map() and entity->cell(). */
module MapFields {
  import opened Hex
  import opened World
  import opened Invariants

  class MapData {
    const alloc: (nat, set<CellId>) -> CellId
    const updaters: set<EntityId>
    const clients: set<EntityId>

    var births: nat
    var pool: map<CellId, Cell>
    var cells: map<Coord, CellId>
    var place: map<EntityId, CellId>
    var ops: seq<MapOp>

    ghost predicate Valid()
      reads this
    {
      NeverLive(alloc) && IsTable(cells, pool)
    }

    constructor (alloc: (nat, set<CellId>) -> CellId, updaters: set<EntityId>, clients: set<EntityId>)
      requires NeverLive(alloc)
      ensures Valid()
      ensures this.alloc == alloc && this.updaters == updaters && this.clients == clients
      ensures births == 0 && pool == map[] && cells == map[] && place == map[] && ops == []
    {
      this.alloc, this.updaters, this.clients := alloc, updaters, clients;
      births, pool, cells, place, ops := 0, map[], map[], map[], [];
    }
  }
}
