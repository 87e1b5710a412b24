/** The logging decorator over a repository
    (teams/src/db/repositories/logging_decorator.py). Every operation raises the operation
    counter by one before it delegates, and hands back the wrapped repository's result
    unchanged; the log lines and timings themselves are not modelled. */
module RepositoryLogging {
  import opened Wrappers
  import opened Tables
  import opened Exceptions
  import opened Seqs
  import opened Repository

  /** What `get_statistics()` reports. */
  datatype Statistics = Statistics(totalOperations: nat, loggingEnabled: bool, decoratedModel: string)

  class RepositoryLoggingDecorator<F> {
    const repository: Repository<F>
    var operationCount: nat
    var logOperations: bool

    constructor (repository: Repository<F>, logOperations: bool := true)
      ensures this.repository == repository
      ensures this.logOperations == logOperations && operationCount == 0
    {
      this.repository := repository;
      this.logOperations := logOperations;
      operationCount := 0;
    }

    /** `get_model()` is delegated. */
    function Model(): string {
      repository.model
    }

    method Get(id: int) returns (r: Option<Row<F>>)
      modifies this
      ensures operationCount == old(operationCount) + 1 && logOperations == old(logOperations)
      ensures r == repository.Find(id)
    {
      operationCount := operationCount + 1;
      r := repository.Get(id);
    }

    method List(limit: nat := DefaultLimit, offset: nat := 0) returns (r: seq<Row<F>>)
      requires repository.Valid()
      modifies this
      ensures operationCount == old(operationCount) + 1 && logOperations == old(logOperations)
      ensures r == Page(repository.table.Scan(), offset, limit)
    {
      operationCount := operationCount + 1;
      r := repository.List(limit, offset);
    }

    method Create(e: Entity<F>) returns (r: Result<Row<F>, Exception>)
      requires repository.Valid()
      modifies this, repository.table
      ensures repository.Valid()
      ensures operationCount == old(operationCount) + 1 && logOperations == old(logOperations)
      ensures r == old(repository.CreateOutcome(e))
      ensures r.Ok? ==> repository.table.Scan() == old(repository.table.Scan()) + [r.value]
      ensures r.Err? ==> unchanged(repository.table)
    {
      operationCount := operationCount + 1;
      r := repository.Create(e);
    }

    /** An update the wrapped repository refuses is counted all the same. The wrapped update
        is the intended one, `Repository.Merge`. */
    method Update(id: int, e: Entity<F>) returns (r: Result<Row<F>, Exception>)
      requires repository.Valid()
      modifies this, repository.table
      ensures repository.Valid()
      ensures operationCount == old(operationCount) + 1 && logOperations == old(logOperations)
      ensures r == old(repository.MergeOutcome(id, e))
      ensures r.Ok? ==> repository.table.rows == old(repository.table.rows)[id := e.data]
      ensures r.Ok? ==> repository.table.order == old(repository.table.order)
      ensures r.Err? ==> unchanged(repository.table)
    {
      operationCount := operationCount + 1;
      r := repository.Merge(id, e);
    }

    method Delete(id: int)
      requires repository.Valid()
      modifies this, repository.table
      ensures repository.Valid()
      ensures operationCount == old(operationCount) + 1 && logOperations == old(logOperations)
      ensures repository.table.rows == old(repository.table.rows) - {id}
      ensures repository.table.order == Excluding(old(repository.table.order), {id})
    {
      operationCount := operationCount + 1;
      repository.Delete(id);
    }

    /** Reports the counter and the flag, and changes neither. */
    method GetStatistics() returns (s: Statistics)
      ensures s.totalOperations == operationCount
      ensures s.loggingEnabled == logOperations
      ensures s.decoratedModel == Model()
    {
      s := Statistics(operationCount, logOperations, Model());
    }

    method EnableLogging()
      modifies this
      ensures logOperations && operationCount == old(operationCount)
    {
      logOperations := true;
    }

    method DisableLogging()
      modifies this
      ensures !logOperations && operationCount == old(operationCount)
    {
      logOperations := false;
    }
  }
}
