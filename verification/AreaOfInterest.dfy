/** MapAwareEntity::onAdded and onRemoved: which cells learn of an entity, and which cells a client has asked
    about, while it is spawned, walks and disconnects. */
module AreaOfInterest {
  import opened Hex
  import opened World
  import opened Requests

  datatype Note = Note(at: Coord, kind: RequestType)

  /** N[c] */
  function Surroundings(c: Coord): seq<Coord> {
    Siblings(c) + [c]
  }

  lemma SurroundingsAreTheBall(c: Coord, o: Coord)
    ensures o in Surroundings(c) <==> Near(o, c)
  {
    SiblingsAreTheRing(c, o);
    assert o in Surroundings(c) <==> o in Siblings(c) || o == c;
  }

  /** The offsets of getCellsExcluding(cell, exclude) */
  function Excluding(c: Coord, exclude: Option<Coord>): seq<Coord>
    requires exclude.Some? ==> DirectionIndex(Minus(c, exclude.value)) != -1
  {
    if exclude.None? then Surroundings(c) else Ahead(c, exclude.value)
  }

  function NotesFor(cells: seq<Coord>, kind: RequestType): seq<Note> {
    seq(|cells|, i requires 0 <= i < |cells| => Note(cells[i], kind))
  }

  /** The cells told SPAWN and not DESPAWN since. */
  ghost function Told(log: seq<Note>): iset<Coord> {
    if log == [] then iset{}
    else
      var last := log[|log| - 1];
      var before := Told(log[..|log| - 1]);
      if last.kind == SPAWN then before + iset{last.at} else before - iset{last.at}
  }

  /** For each cell the notes alternate, SPAWN first: none repeats what the cell already knows. */
  ghost predicate AlternatesPerCell(log: seq<Note>) {
    forall i :: 0 <= i < |log| ==> (log[i].at in Told(log[..i]) <==> log[i].kind == DESPAWN)
  }

  ghost function BallOf(c: Coord): iset<Coord> {
    iset o | Near(o, c)
  }

  lemma NextNote(cells: seq<Coord>, kind: RequestType, i: nat)
    requires i < |cells|
    ensures NotesFor(cells, kind)[..i + 1] == NotesFor(cells, kind)[..i] + [Note(cells[i], kind)]
  {
  }

  ghost function Members(cells: seq<Coord>): iset<Coord> {
    iset o | o in cells
  }

  lemma LastMember(cells: seq<Coord>)
    requires cells != [] && forall i, j :: 0 <= i < j < |cells| ==> cells[i] != cells[j]
    ensures var n := |cells| - 1;
            Members(cells) == Members(cells[..n]) + iset{cells[n]} && cells[n] !in Members(cells[..n])
    ensures cells[|cells| - 1] in cells && forall o :: o in cells[..|cells| - 1] ==> o in cells
  {
    var n := |cells| - 1;
    assert forall o :: o in cells <==> o in cells[..n] || o == cells[n];
  }

  lemma LastNote(log: seq<Note>, cells: seq<Coord>, kind: RequestType)
    requires cells != []
    ensures var n := |cells| - 1;
            log + NotesFor(cells, kind) == (log + NotesFor(cells[..n], kind)) + [Note(cells[n], kind)]
  {
  }

  lemma {:induction false} TellAll(log: seq<Note>, cells: seq<Coord>, kind: RequestType)
    requires AlternatesPerCell(log)
    requires forall i, j :: 0 <= i < j < |cells| ==> cells[i] != cells[j]
    requires forall o :: o in cells ==> (o in Told(log) <==> kind == DESPAWN)
    ensures AlternatesPerCell(log + NotesFor(cells, kind))
    ensures Told(log + NotesFor(cells, kind)) ==
            if kind == SPAWN then Told(log) + Members(cells) else Told(log) - Members(cells)
    decreases |cells|
  {
    if cells == [] {
      assert log + NotesFor(cells, kind) == log;
    } else {
      var n := |cells| - 1;
      LastMember(cells);
      LastNote(log, cells, kind);
      TellAll(log, cells[..n], kind);
      assert cells[n] in Told(log) <==> cells[n] in Told(log + NotesFor(cells[..n], kind));
      TellOne(log + NotesFor(cells[..n], kind), Note(cells[n], kind));
    }
  }

  lemma TellOne(log: seq<Note>, note: Note)
    requires AlternatesPerCell(log) && (note.at in Told(log) <==> note.kind == DESPAWN)
    ensures AlternatesPerCell(log + [note])
    ensures Told(log + [note]) == if note.kind == SPAWN then Told(log) + iset{note.at} else Told(log) - iset{note.at}
  {
    var all := log + [note];
    assert all[..|all| - 1] == log;
    forall i | 0 <= i < |all|
      ensures all[i].at in Told(all[..i]) <==> all[i].kind == DESPAWN
    {
      if i < |log| {
        assert all[..i] == log[..i];
      }
    }
  }

  lemma SurroundingsDistinct(c: Coord)
    ensures forall i, j :: 0 <= i < j < |Surroundings(c)| ==> Surroundings(c)[i] != Surroundings(c)[j]
  {
    assert Surroundings(c) == [Coord(c.q, c.r - 1), Coord(c.q + 1, c.r - 1), Coord(c.q + 1, c.r),
                               Coord(c.q, c.r + 1), Coord(c.q - 1, c.r + 1), Coord(c.q - 1, c.r), c];
  }

  /** Entering N[c] from outside the map, or from the adjacent cell `from`. */
  lemma TellSpawn(log: seq<Note>, c: Coord, from: Option<Coord>)
    requires AlternatesPerCell(log)
    requires from.Some? ==> Near(c, from.value) && c != from.value && Told(log) == BallOf(from.value) * BallOf(c)
    requires from.None? ==> Told(log) == iset{}
    ensures DirectionIndex(Minus(c, from.GetOr(c))) != -1 || from.None?
    ensures var more := log + NotesFor(Excluding(c, from), SPAWN); AlternatesPerCell(more) && Told(more) == BallOf(c)
  {
    if from.None? {
      SurroundingsDistinct(c);
      forall o ensures o in Surroundings(c) <==> Near(o, c) { SurroundingsAreTheBall(c, o); }
      TellAll(log, Surroundings(c), SPAWN);
    } else {
      AheadIsTheDifference(c, from.value);
      TellAll(log, Ahead(c, from.value), SPAWN);
    }
  }

  /** Leaving N[c] for the adjacent cell `to`, or altogether. */
  lemma TellDespawn(log: seq<Note>, c: Coord, to: Option<Coord>)
    requires AlternatesPerCell(log) && Told(log) == BallOf(c)
    requires to.Some? ==> Near(c, to.value) && c != to.value
    ensures DirectionIndex(Minus(c, to.GetOr(c))) != -1 || to.None?
    ensures var more := log + NotesFor(Excluding(c, to), DESPAWN);
            AlternatesPerCell(more)
            && Told(more) == if to.None? then iset{} else BallOf(to.value) * BallOf(c)
  {
    if to.None? {
      SurroundingsDistinct(c);
      forall o ensures o in Surroundings(c) <==> Near(o, c) { SurroundingsAreTheBall(c, o); }
      TellAll(log, Surroundings(c), DESPAWN);
    } else {
      AheadIsTheDifference(c, to.value);
      TellAll(log, Ahead(c, to.value), DESPAWN);
    }
  }

  // ---------- Spawning again ----------

  lemma {:induction false} SpawnsKeepTold(log: seq<Note>, cells: seq<Coord>)
    ensures Told(log + NotesFor(cells, SPAWN)) == Told(log) + Members(cells)
    decreases |cells|
  {
    if cells == [] {
      assert log + NotesFor(cells, SPAWN) == log;
    } else {
      var n := |cells| - 1;
      LastNote(log, cells, SPAWN);
      SpawnsKeepTold(log, cells[..n]);
      var before, note := log + NotesFor(cells[..n], SPAWN), Note(cells[n], SPAWN);
      assert (before + [note])[..|before + [note]| - 1] == before;
      assert forall o :: o in cells <==> o in cells[..n] || o == cells[n];
    }
  }

  lemma RepeatBreaks(log: seq<Note>, cells: seq<Coord>, k: nat)
    requires k < |cells| && cells[k] in Told(log)
    ensures !AlternatesPerCell(log + NotesFor(cells, SPAWN))
  {
    var all := log + NotesFor(cells, SPAWN);
    SpawnsKeepTold(log, cells[..k]);
    assert all[..|log| + k] == log + NotesFor(cells[..k], SPAWN);
    assert all[|log| + k] == Note(cells[k], SPAWN);
  }

  /** A client that is spawned asks each cell of N[c] once more. Its requests alternate iff none of those cells still
      counts as asked; a client that left the map is still counted by the cells around the place where it left. */
  lemma SpawnAlternatesIff(log: seq<Note>, c: Coord)
    requires AlternatesPerCell(log)
    ensures AlternatesPerCell(log + NotesFor(Surroundings(c), SPAWN)) <==> BallOf(c) !! Told(log)
    ensures Told(log + NotesFor(Surroundings(c), SPAWN)) == Told(log) + BallOf(c)
  {
    var cells := Surroundings(c);
    forall o ensures o in cells <==> Near(o, c) { SurroundingsAreTheBall(c, o); }
    SurroundingsDistinct(c);
    SpawnsKeepTold(log, cells);
    assert Members(cells) == BallOf(c);
    if BallOf(c) !! Told(log) {
      TellAll(log, cells, SPAWN);
    } else {
      var o :| o in BallOf(c) && o in Told(log);
      var k :| 0 <= k < |cells| && cells[k] == o;
      RepeatBreaks(log, cells, k);
    }
  }

  lemma SpawnAsks(log: seq<Note>, c: Coord)
    ensures AlternatesPerCell(log) ==>
              var more := log + NotesFor(Excluding(c, None), SPAWN);
              (AlternatesPerCell(more) && Told(more) == BallOf(c) <==> Told(log) == iset{})
  {
    if AlternatesPerCell(log) {
      SpawnAlternatesIff(log, c);
      if Told(log) != iset{} {
        var o :| o in Told(log);
        assert o in Told(log) + BallOf(c);
      }
    }
  }

  // ---------- The entity ----------

  class MapAwareEntity {
    const isClient: bool
    /** _cell, by its offset */
    var cell: Option<Coord>
    /** The spawn and despawn packets broadcast to cells, in order. */
    var broadcasts: seq<Note>
    /** The requests made of cells on behalf of the client, in order. */
    var requests: seq<Note>

    /** What onAdded and onRemoved keep: a cell has been told of the entity iff it is in its surroundings. */
    ghost predicate Valid()
      reads this
    {
      && AlternatesPerCell(broadcasts)
      && Told(broadcasts) == (if cell.Some? then BallOf(cell.value) else iset{})
      && (!isClient ==> requests == [])
    }

    /** The cells around it are also those that its client has asked about, each once. */
    ghost predicate Asked()
      reads this
    {
      AlternatesPerCell(requests) && (isClient && cell.Some? ==> Told(requests) == BallOf(cell.value))
    }

    constructor (isClient: bool)
      ensures Valid() && Asked() && cell == None && this.isClient == isClient && requests == []
    {
      this.isClient, cell, broadcasts, requests := isClient, None, [], [];
    }

    /** MapAwareEntity::onRemoved. Between the onRemoved and the onAdded of one move, `Valid` does not hold. */
    method OnRemoved(c: Coord, to: Option<Coord>)
      requires to.Some? ==> DirectionIndex(Minus(c, to.value)) != -1
      modifies this
      ensures cell == None
      ensures broadcasts == old(broadcasts) + NotesFor(Excluding(c, to), DESPAWN)
      ensures requests == old(requests) + (if to.Some? && isClient then NotesFor(Excluding(c, to), DESPAWN) else [])
    {
      cell := None;
      var cells := Excluding(c, to);
      var i := 0;
      while i < |cells|
        invariant 0 <= i <= |cells| && cell == None
        invariant broadcasts == old(broadcasts) + NotesFor(cells, DESPAWN)[..i]
        invariant requests == old(requests) + (if to.Some? && isClient then NotesFor(cells, DESPAWN)[..i] else [])
      {
        NextNote(cells, DESPAWN, i);
        broadcasts := broadcasts + [Note(cells[i], DESPAWN)];
        if to.Some? && isClient {
          requests := requests + [Note(cells[i], DESPAWN)];
        }
        i := i + 1;
      }
      assert NotesFor(cells, DESPAWN)[..i] == NotesFor(cells, DESPAWN);
    }

    /** MapAwareEntity::onAdded */
    method OnAdded(c: Coord, from: Option<Coord>)
      requires from.Some? ==> DirectionIndex(Minus(c, from.value)) != -1
      modifies this
      ensures cell == Some(c)
      ensures broadcasts == old(broadcasts) + NotesFor(Excluding(c, from), SPAWN)
      ensures requests == old(requests) + (if isClient then NotesFor(Excluding(c, from), SPAWN) else [])
    {
      cell := Some(c);
      var cells := Excluding(c, from);
      var i := 0;
      while i < |cells|
        invariant 0 <= i <= |cells| && cell == Some(c)
        invariant broadcasts == old(broadcasts) + NotesFor(cells, SPAWN)[..i]
        invariant requests == old(requests) + (if isClient then NotesFor(cells, SPAWN)[..i] else [])
      {
        NextNote(cells, SPAWN, i);
        broadcasts := broadcasts + [Note(cells[i], SPAWN)];
        if isClient {
          requests := requests + [Note(cells[i], SPAWN)];
        }
        i := i + 1;
      }
      assert NotesFor(cells, SPAWN)[..i] == NotesFor(cells, SPAWN);
    }

    /** An ADD with no old cell. The first one asks about exactly the surroundings. */
    method Spawn(c: Coord)
      requires Valid() && cell == None
      modifies this
      ensures Valid() && cell == Some(c)
      ensures old(requests) == [] ==> Asked()
      ensures isClient && old(Asked()) ==> (Asked() <==> old(Told(requests)) == iset{})
    {
      TellSpawn(broadcasts, c, None);
      SpawnAsks(requests, c);
      OnAdded(c, None);
    }

    /** The REMOVE and the ADD that onMove queues. */
    method Step(to: Coord)
      requires Valid() && cell.Some? && Near(cell.value, to) && cell.value != to
      modifies this
      ensures Valid() && cell == Some(to) && (old(Asked()) ==> Asked())
    {
      var c := cell.value;
      NearIsDistanceOne(c, to);
      TellDespawn(broadcasts, c, Some(to));
      TellSpawn(broadcasts + NotesFor(Excluding(c, Some(to)), DESPAWN), to, Some(c));
      if isClient && Asked() {
        TellDespawn(requests, c, Some(to));
        TellSpawn(requests + NotesFor(Excluding(c, Some(to)), DESPAWN), to, Some(c));
      }
      OnRemoved(c, Some(to));
      OnAdded(to, Some(c));
    }

    /** The REMOVE of an entity that leaves the map: every cell is told, but the client asks for nothing more. */
    method Disconnect()
      requires Valid() && cell.Some?
      modifies this
      ensures Valid() && cell == None && requests == old(requests) && (old(Asked()) ==> Asked())
    {
      TellDespawn(broadcasts, cell.value, None);
      OnRemoved(cell.value, None);
      assert old(requests) + [] == old(requests);
    }

    /** A whole walk of adjacent steps. */
    method Walk(path: seq<Coord>)
      requires Valid() && cell == None && path != []
      requires forall i :: 0 < i < |path| ==> Near(path[i - 1], path[i]) && path[i - 1] != path[i]
      modifies this
      ensures Valid() && cell == Some(path[|path| - 1])
      ensures Told(broadcasts) == BallOf(path[|path| - 1])
      ensures old(requests) == [] ==> Asked() && (isClient ==> Told(requests) == BallOf(path[|path| - 1]))
    {
      Spawn(path[0]);
      var i := 1;
      while i < |path|
        invariant 1 <= i <= |path| && Valid() && cell == Some(path[i - 1])
        invariant old(requests) == [] ==> Asked()
      {
        Step(path[i]);
        i := i + 1;
      }
    }
  }
}
