/**
 * TableService: the cafe tables and their status machine. A table is
 * AVAILABLE, OCCUPIED or DISABLED; `occupy` seats guests at a usable table,
 * `release` frees any table, and `save` normalises what the admin screen
 * submits. Tables are objects whose status and seating time change in place.
 * The repository is a map from table id to table; the clock is the `now`
 * parameter.
 */
module Tables {
  import opened Wrappers

  datatype TableStatus = Available | Occupied | Disabled

  /** IllegalArgumentException("Table not found") and IllegalStateException("Table is disabled"). */
  datatype TableError = TableNotFound | TableDisabled

  /** The fields of one table at one moment; a None status is a null one. */
  datatype TableState = TableState(name: string, active: bool, status: Option<TableStatus>, occupiedAt: Option<int>)

  class CafeTable {
    const id: int
    var name: string
    var active: bool
    var status: Option<TableStatus>
    var occupiedAt: Option<int>

    constructor (id: int, name: string, active: bool, status: Option<TableStatus>, occupiedAt: Option<int>)
      ensures this.id == id && State() == TableState(name, active, status, occupiedAt)
    {
      this.id := id;
      this.name := name;
      this.active := active;
      this.status := status;
      this.occupiedAt := occupiedAt;
    }

    function State(): TableState
      reads this
    {
      TableState(name, active, status, occupiedAt)
    }
  }

  // ---------------------------------------------------------------------------
  // The three transitions, on values.

  /** What save stores: a missing status becomes AVAILABLE, and an inactive
    * table is DISABLED and unseated whatever status it was given. */
  function Saved(t: TableState): (r: TableState)
    ensures r.status.Some? && r.name == t.name && r.active == t.active
    ensures !t.active ==> r.status == Some(Disabled) && r.occupiedAt.None?
    ensures t.active && t.status.Some? ==> r == t
  {
    var s := if t.status.None? then t.(status := Some(Available)) else t;
    if !s.active then s.(status := Some(Disabled), occupiedAt := None) else s
  }

  /** What occupy does: a DISABLED table is refused, an OCCUPIED one is left
    * as it is, any other (a null status included) is seated now. */
  function AfterOccupy(t: TableState, now: int): (r: Result<TableState, TableError>)
    ensures r.Err? <==> t.status == Some(Disabled)
    ensures r.Err? ==> r.error == TableDisabled
    ensures r.Ok? ==> r.value.status == Some(Occupied) && r.value.name == t.name && r.value.active == t.active
    ensures r.Ok? && t.status == Some(Occupied) ==> r.value == t
    ensures r.Ok? && t.status != Some(Occupied) ==> r.value.occupiedAt == Some(now)
  {
    if t.status == Some(Disabled) then Err(TableDisabled)
    else if t.status != Some(Occupied) then Ok(t.(status := Some(Occupied), occupiedAt := Some(now)))
    else Ok(t)
  }

  /** What release does, from any status. */
  function AfterRelease(t: TableState): (r: TableState)
    ensures r.status == Some(Available) && r.occupiedAt.None?
    ensures r.name == t.name && r.active == t.active
  {
    t.(status := Some(Available), occupiedAt := None)
  }

  /** Saving what save stored stores the same again. */
  lemma SavedIdempotent(t: TableState)
    ensures Saved(Saved(t)) == Saved(t)
  {
  }

  /** A second occupy, at any later time, keeps the first seating time. */
  lemma OccupyIdempotent(t: TableState, now: int, later: int)
    requires AfterOccupy(t, now).Ok?
    ensures AfterOccupy(AfterOccupy(t, now).value, later) == AfterOccupy(t, now)
  {
  }

  /** Release makes every table, a disabled one included, occupiable again. */
  lemma ReleaseThenOccupy(t: TableState, now: int)
    ensures AfterOccupy(AfterRelease(t), now) == Ok(t.(status := Some(Occupied), occupiedAt := Some(now)))
  {
  }

  /** A disabled table stays as it is under occupy, however often it is tried. */
  lemma DisabledStaysDisabled(t: TableState, now: int)
    requires !t.active
    ensures AfterOccupy(Saved(t), now) == Err(TableDisabled)
  {
  }

  // ---------------------------------------------------------------------------
  // The service over the repository.

  class TableService {
    var tables: map<int, CafeTable>

    /** Every table is stored under its own id. */
    ghost predicate Valid()
      reads this, tables.Values
    {
      forall id :: id in tables ==> tables[id].id == id
    }

    constructor ()
      ensures tables == map[] && Valid()
    {
      tables := map[];
    }

    /** getById: the stored table, or "Table not found". */
    method GetById(id: int) returns (r: Result<CafeTable, TableError>)
      ensures r.Ok? <==> id in tables
      ensures r.Ok? ==> r.value == tables[id]
      ensures r.Err? ==> r.error == TableNotFound
    {
      if id in tables {
        return Ok(tables[id]);
      }
      return Err(TableNotFound);
    }

    /** save: normalises the table in place and stores it under its id. */
    method Save(table: CafeTable) returns (saved: CafeTable)
      requires Valid()
      modifies this, table
      ensures Valid()
      ensures saved == table && tables == old(tables)[table.id := table]
      ensures table.State() == Saved(old(table.State()))
    {
      if table.status.None? {
        table.status := Some(Available);
      }
      if !table.active {
        table.status := Some(Disabled);
        table.occupiedAt := None;
      }
      tables := tables[table.id := table];
      saved := table;
    }

    /** delete: removes the row; a missing id is ignored. */
    method Delete(id: int)
      requires Valid()
      modifies this
      ensures Valid()
      ensures tables == old(tables) - {id}
    {
      tables := tables - {id};
    }

    /** occupy: seats the table now, unless it is missing or disabled; on an
      * error nothing changes. */
    method Occupy(id: int, now: int) returns (r: Result<CafeTable, TableError>)
      modifies if id in tables then {tables[id]} else {}
      ensures id !in tables ==> r == Err(TableNotFound)
      ensures id in tables ==> AfterOccupy(old(tables[id].State()), now).Ok? == r.Ok?
      ensures id in tables && r.Ok? ==>
        r.value == tables[id] && tables[id].State() == AfterOccupy(old(tables[id].State()), now).value
      ensures id in tables && r.Err? ==> r.error == TableDisabled && tables[id].State() == old(tables[id].State())
    {
      var found := GetById(id);
      if found.Err? {
        return Err(found.error);
      }
      var table := found.value;
      if table.status == Some(Disabled) {
        return Err(TableDisabled);
      }
      if table.status != Some(Occupied) {
        table.status := Some(Occupied);
        table.occupiedAt := Some(now);
      }
      return Ok(table);
    }

    /** release: frees the table, whatever its status. */
    method Release(id: int) returns (r: Result<CafeTable, TableError>)
      modifies if id in tables then {tables[id]} else {}
      ensures id !in tables ==> r == Err(TableNotFound)
      ensures id in tables ==> r == Ok(tables[id]) && tables[id].State() == AfterRelease(old(tables[id].State()))
    {
      var found := GetById(id);
      if found.Err? {
        return Err(found.error);
      }
      var table := found.value;
      table.status := Some(Available);
      table.occupiedAt := None;
      return Ok(table);
    }
  }
}
