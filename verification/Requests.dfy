/** What an entity asks of a cell, and what it tells it. */
module Requests {

  datatype RequestType = SPAWN | DESPAWN
}
