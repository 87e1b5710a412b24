/** The generic repository of the teams service (teams/src/db/repositories/base.py). The
    concrete `TeamRepository` and `AthleteRepository` are this class over a team table and an
    athlete table; `model` is the name `get_model()` reports ("Team" or "Athlete"). */
module Repository {
  import opened Wrappers
  import opened Tables
  import opened Exceptions
  import opened Seqs

  /** An ORM entity handed to `create` or `update`; its `id` attribute may be unset. */
  datatype Entity<F> = Entity(id: Option<int>, data: F)

  /** How the object handed to `update` stands towards the fresh session `update` opens: a
      `Transient` object was built by the caller, a `Detached` one was loaded by an earlier
      `get` whose session is closed. */
  datatype Instance = Transient | Detached

  function NotFoundMessage(id: int): string {
    "Entity with id " + IntText(id) + " not found"
  }

  const MismatchMessage: string := "Entity id does not match the requested id"

  /** The gist of the session's refusal to attach an object beside another one with its key
      (the object's address and class path that Python prints are dropped). */
  const AttachMessage: string := "Can't attach instance; another instance with this key is already present in this session."

  /** What `session.add(entity)` followed by the commit raises once `session.get` has loaded the
      row with the same key: a detached object cannot be attached beside the loaded one, and a
      transient one is flushed as a second INSERT of the same primary key. */
  function SessionConflict(origin: Instance): Exception {
    match origin
    case Detached => OtherException("InvalidRequestError", None, AttachMessage)
    case Transient => IntegrityError(DuplicateKeyMessage)
  }

  /** `list()` without arguments. */
  const DefaultLimit: nat := 100

  class Repository<F> {
    const table: Table<F>
    const model: string

    ghost predicate Valid()
      reads table
    {
      table.Valid()
    }

    constructor (table: Table<F>, model: string)
      ensures this.table == table && this.model == model
    {
      this.table := table;
      this.model := model;
    }

    /** What `get(id)` returns: the stored entity with that id, or `None`. */
    function Find(id: int): (r: Option<Row<F>>)
      reads table
      ensures r.Some? <==> id in table.rows
      ensures r.Some? ==> r.value.id == id && r.value.data == table.rows[id]
    {
      if id in table.rows then Some(Row(id, table.rows[id])) else None
    }

    /** What `create(entity)` returns or raises. Nothing in `create` checks for an existing
        row: an explicit id that is already taken is refused by the table's primary key. */
    function CreateOutcome(e: Entity<F>): (r: Result<Row<F>, Exception>)
      reads table
      requires Valid()
      ensures r.Err? <==> e.id.Some? && e.id.value in table.rows
      ensures r.Err? ==> r.error == IntegrityError(DuplicateKeyMessage)
      ensures r.Ok? ==> r.value.id !in table.rows && r.value.data == e.data
      ensures r.Ok? && e.id.Some? ==> r.value.id == e.id.value
    {
      match e.id
      case None => Ok(Row(table.nextId, e.data))
      case Some(k) => if k in table.rows then Err(IntegrityError(DuplicateKeyMessage)) else Ok(Row(k, e.data))
    }

    /** What `update(id, entity)` returns or raises as written: "not found" for an absent id,
        "does not match" for an entity carrying another id, and otherwise the session conflict,
        because the entity added is never the instance `session.get` has just loaded. */
    function UpdateOutcome(id: int, e: Entity<F>, origin: Instance): (r: Result<Row<F>, Exception>)
      reads table
      ensures r.Err?
      ensures id !in table.rows ==> r.error == ValueError(NotFoundMessage(id))
      ensures id in table.rows && e.id.Some? && e.id.value != id ==> r.error == ValueError(MismatchMessage)
      ensures id in table.rows && (e.id.None? || e.id.value == id) ==> r.error == SessionConflict(origin)
    {
      if id !in table.rows then Err(ValueError(NotFoundMessage(id)))
      else if e.id.Some? && e.id.value != id then Err(ValueError(MismatchMessage))
      else Err(SessionConflict(origin))
    }

    /** What the update is evidently meant to do (what `session.merge(entity)` in place of
        `session.add(entity)` does): the same two refusals, and otherwise the entity stored under
        `id`. */
    function MergeOutcome(id: int, e: Entity<F>): (r: Result<Row<F>, Exception>)
      reads table
      ensures id !in table.rows ==> r == Err(ValueError(NotFoundMessage(id)))
      ensures id in table.rows && e.id.Some? && e.id.value != id ==> r == Err(ValueError(MismatchMessage))
      ensures r.Ok? <==> id in table.rows && (e.id.None? || e.id.value == id)
      ensures r.Ok? ==> r.value == Row(id, e.data)
    {
      if id !in table.rows then Err(ValueError(NotFoundMessage(id)))
      else if e.id.Some? && e.id.value != id then Err(ValueError(MismatchMessage))
      else Ok(Row(id, e.data))
    }

    /** The two outcomes part exactly where the row exists and the entity's id fits: there the
        code as written raises and the intended update stores the entity. */
    lemma UpdateFailsWhereMergeStores(id: int, e: Entity<F>, origin: Instance)
      ensures MergeOutcome(id, e).Ok? <==> UpdateOutcome(id, e, origin) == Err(SessionConflict(origin))
      ensures MergeOutcome(id, e).Err? ==> UpdateOutcome(id, e, origin) == MergeOutcome(id, e)
    {
      if id in table.rows && (e.id.None? || e.id.value == id) {
        assert MergeOutcome(id, e).Ok?;
        assert UpdateOutcome(id, e, origin).error == SessionConflict(origin);
      }
    }

    method Get(id: int) returns (r: Option<Row<F>>)
      ensures r == Find(id)
    {
      if id in table.rows {
        r := Some(Row(id, table.rows[id]));
      } else {
        r := None;
      }
    }

    /** At most `limit` entities, after skipping `offset`, in scan order. */
    method List(limit: nat := DefaultLimit, offset: nat := 0) returns (r: seq<Row<F>>)
      requires Valid()
      ensures |r| <= limit
      ensures r == Page(table.Scan(), offset, limit)
    {
      r := Page(table.Scan(), offset, limit);
    }

    /** Every entity in scan order (`list_all`, which the service layer calls). */
    method ListAll() returns (r: seq<Row<F>>)
      requires Valid()
      ensures r == table.Scan()
    {
      r := table.Scan();
    }

    method Create(e: Entity<F>) returns (r: Result<Row<F>, Exception>)
      requires Valid()
      modifies table
      ensures Valid()
      ensures r == old(CreateOutcome(e))
      ensures r.Ok? ==> table.rows == old(table.rows)[r.value.id := e.data]
      ensures r.Ok? ==> table.Scan() == old(table.Scan()) + [r.value]
      ensures r.Err? ==> unchanged(table)
    {
      match e.id {
        case None =>
          var id := table.Insert(e.data);
          r := Ok(Row(id, e.data));
        case Some(k) =>
          if k in table.rows {
            r := Err(IntegrityError(DuplicateKeyMessage));
          } else {
            table.InsertAt(k, e.data);
            r := Ok(Row(k, e.data));
          }
      }
    }

    /** `update(id, entity)` as written: it raises in every case, and the failed commit writes
        nothing. */
    method Update(id: int, e: Entity<F>, origin: Instance) returns (r: Result<Row<F>, Exception>)
      requires Valid()
      ensures r == UpdateOutcome(id, e, origin)
    {
      if id !in table.rows {
        r := Err(ValueError(NotFoundMessage(id)));
      } else if e.id.Some? && e.id.value != id {
        r := Err(ValueError(MismatchMessage));
      } else {
        r := Err(SessionConflict(origin));
      }
    }

    /** The intended update: on success the entity, its id forced to `id`, replaces the old
        record in place. */
    method Merge(id: int, e: Entity<F>) returns (r: Result<Row<F>, Exception>)
      requires Valid()
      modifies table
      ensures Valid()
      ensures r == old(MergeOutcome(id, e))
      ensures r.Ok? ==> table.rows == old(table.rows)[id := e.data] && table.order == old(table.order)
      ensures r.Err? ==> unchanged(table)
    {
      if id !in table.rows {
        r := Err(ValueError(NotFoundMessage(id)));
      } else if e.id.Some? && e.id.value != id {
        r := Err(ValueError(MismatchMessage));
      } else {
        table.Replace(id, e.data);
        r := Ok(Row(id, e.data));
      }
    }

    /** Removes the entity with that id, and only it; an absent id is a silent no-op. */
    method Delete(id: int)
      requires Valid()
      modifies table
      ensures Valid()
      ensures table.rows == old(table.rows) - {id} && table.order == Excluding(old(table.order), {id})
      ensures id !in old(table.rows) ==> unchanged(table)
    {
      if id in table.rows {
        table.Remove(id);
      } else {
        ExcludingAbsent(table.order, {id});
      }
    }
  }
}
