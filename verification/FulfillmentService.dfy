/**
 The reference fulfillment store and the service that commits a closure together with its
 settlement. Every command leaves the committed state exactly as `Read` then `CommitWork` say.
 */
module FulfillmentService {
  import opened Common
  import opened Money
  import opened MoneyStore
  import opened Fulfillment
  import FulfillmentEffects
  import FulfillmentSerial

  /** What the store tells its caller about a guarded write. */
  datatype ConditionalWrite = WriteApplied | WriteStale | WriteForbidden

  class InMemoryFulfillmentRepository {
    var rows: map<FulfillmentId, Row>

    constructor ()
      ensures rows == map[]
    {
      rows := map[];
    }

    twostate predicate Wrote(w: RowWrite, outcome: ConditionalWrite)
      reads this
    {
      match ApplyRow(old(rows), w)
      case Applied(after) => outcome == WriteApplied && rows == after
      case Stale => outcome == WriteStale && rows == old(rows)
      case Forbidden => outcome == WriteForbidden && rows == old(rows)
    }

    method FindByOrderReference(order: string) returns (found: bool)
      ensures found == OrderTaken(rows, order)
    {
      var rest := rows.Keys;
      while rest != {}
        invariant rest <= rows.Keys
        invariant forall id :: id in rows && id !in rest ==> rows[id].order != order
        decreases rest
      {
        var id :| id in rest;
        rest := rest - {id};
        if rows[id].order == order {
          return true;
        }
      }
      found := false;
    }

    /** Whether another fulfillment already traces this job. */
    method JobReferenceTaken(id: FulfillmentId, job: Option<string>) returns (taken: bool)
      ensures taken == JobTaken(rows, id, job)
    {
      if job.None? {
        return false;
      }
      var rest := rows.Keys;
      while rest != {}
        invariant rest <= rows.Keys
        invariant forall other :: other in rows && other !in rest && other != id ==> rows[other].job != job
        decreases rest
      {
        var other :| other in rest;
        rest := rest - {other};
        if other != id && rows[other].job == job {
          return true;
        }
      }
      taken := false;
    }

    method PutRow(id: FulfillmentId, row: Row) returns (outcome: ConditionalWrite)
      modifies this
      ensures outcome == (if RowAllowed(row) then WriteApplied else WriteForbidden)
      ensures rows == (if RowAllowed(row) then old(rows)[id := row] else old(rows))
    {
      if !RowAllowed(row) {
        return WriteForbidden;
      }
      rows := rows[id := row];
      outcome := WriteApplied;
    }

    method InsertIfAbsent(id: FulfillmentId, row: Row) returns (outcome: ConditionalWrite)
      modifies this
      ensures Wrote(RowWrite.InsertIfAbsent(id, row), outcome)
    {
      var taken := FindByOrderReference(row.order);
      if taken {
        return WriteStale;
      }
      outcome := PutRow(id, row);
    }

    method UpdateIfStatusIn(id: FulfillmentId, row: Row, openOnly: bool) returns (outcome: ConditionalWrite)
      modifies this
      ensures Wrote(if openOnly then UpdateIfOpen(id, row) else UpdateIfCoordinating(id, row), outcome)
    {
      if id !in rows || (if openOnly then IsClosed(rows[id].status) else rows[id].status != Coordinating) {
        return WriteStale;
      }
      outcome := PutRow(id, row);
    }

    method Update(id: FulfillmentId, row: Row) returns (outcome: ConditionalWrite)
      modifies this
      ensures Wrote(RowWrite.Update(id, row), outcome)
    {
      var taken := JobReferenceTaken(id, row.job);
      if taken {
        return WriteForbidden;
      }
      outcome := PutRow(id, row);
    }

    method MarkExecutedAfterCancellation(id: FulfillmentId, at: Time, job: string) returns (outcome: ConditionalWrite)
      modifies this
      ensures Wrote(MarkExecuted(id, at, job), outcome)
    {
      if id !in rows || rows[id].status != Cancelled || rows[id].executedAt.Some? {
        return WriteStale;
      }
      outcome := PutRow(id, rows[id].(executedAt := Some(at), executedJob := Some(job)));
    }

    method Write(w: RowWrite) returns (outcome: ConditionalWrite)
      modifies this
      ensures Wrote(w, outcome)
    {
      match w
      case InsertIfAbsent(id, row) => outcome := InsertIfAbsent(id, row);
      case UpdateIfOpen(id, row) => outcome := UpdateIfStatusIn(id, row, true);
      case UpdateIfCoordinating(id, row) => outcome := UpdateIfStatusIn(id, row, false);
      case Update(id, row) => outcome := Update(id, row);
      case MarkExecuted(id, at, job) => outcome := MarkExecutedAfterCancellation(id, at, job);
    }
  }

  class FulfillmentService {
    const repo: InMemoryFulfillmentRepository
    const money: InMemoryMoneyRepository
    var outbox: seq<Event>

    constructor (repo: InMemoryFulfillmentRepository, money: InMemoryMoneyRepository)
      ensures this.repo == repo && this.money == money && outbox == []
    {
      this.repo, this.money, outbox := repo, money, [];
    }

    function State(): World
      reads this, repo, money
    {
      World(money.Rows(), repo.rows, outbox)
    }

    /**
     Runs the staged money, then the guarded row write, then the deferred checks, and appends
     the events last. A lost write unwinds the money staged before it.
     */
    method WithTransaction(work: Work) returns (committed: bool)
      modifies this, repo, money
      ensures committed == CommitWork(old(State()), work).Committed?
      ensures State() == (if committed then CommitWork(old(State()), work).world else old(State()))
    {
      var journal := new MemoryJournal();
      var before := repo.rows;
      committed := money.RunMutations(work.money, journal);
      if committed && work.row.Some? {
        var outcome := repo.Write(work.row.value);
        committed := outcome == WriteApplied;
      }
      if committed {
        committed := money.Verify(journal);
        VerifiedMeansDeferredHold(money.Rows(), work.money, journal.Checks());
      }
      if committed {
        outbox := outbox + work.events;
      } else {
        repo.rows := before;
        money.Rollback(journal);
      }
    }

    /** Reads, and commits what was staged if anything was. A command that is refused throws. */
    method Handle(id: nat, now: Time, c: Command) returns (committed: bool, refused: bool)
      modifies this, repo, money
      ensures var reading := Read(old(State()), id, now, c);
              if reading.Staging? && CommitWork(old(State()), reading.work).Committed?
              then committed && State() == CommitWork(old(State()), reading.work).world
              else !committed && State() == old(State())
      ensures State() == FulfillmentSerial.Step(FulfillmentSerial.Office(old(State()), id), now,
                                                FulfillmentSerial.Coordinate(c)).world
      ensures refused <==> FulfillmentEffects.IsRefused(old(State()).rows, c)
    {
      var reading := Read(State(), id, now, c);
      committed, refused := false, reading.Rejected?;
      if reading.Staging? {
        committed := WithTransaction(reading.work);
      }
    }
  }
}
