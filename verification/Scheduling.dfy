/** Recovery of unfinished runs, as one worker executes it when nobody interferes. */
module Scheduling {
  import opened Prelude
  import Leases
  import opened ApplyProtocol

  function Settled(row: SyncRun): SyncRun {
    if Unfinished(row) then row.(status := Verdict(row), interrupted := row.interrupted || Verdict(row).Interrupted?)
    else row
  }

  /** The listed runs get their verdict if they are still unfinished; all other rows stay. */
  function Recovered(rows: map<RunId, SyncRun>, listed: set<RunId>): map<RunId, SyncRun> {
    map r | r in rows :: if r in listed then Settled(rows[r]) else rows[r]
  }

  /** The row of a listed run after recovery: an apply with journal rows has failed, any other unfinished run is
      interrupted, and finished runs stay. */
  ghost predicate RecoveredAs(before: SyncRun, after: SyncRun) {
    if before.status == Applying && before.journal.Some? && |before.journal.value| > 0 then
      after == before.(status := Failed)
    else if before.status == Applying || before.status == Preparing then
      after == before.(status := Interrupted, interrupted := true)
    else after == before
  }

  lemma SettledAs(row: SyncRun)
    ensures RecoveredAs(row, Settled(row))
  {
  }

  /** The sync_runs rows of one pair. */
  class RunTable {
    var rows: map<RunId, SyncRun>

    constructor (initial: map<RunId, SyncRun>)
      ensures rows == initial
    {
      rows := initial;
    }

    method ListUnfinished() returns (listed: set<RunId>)
      ensures listed == set r | r in rows && (rows[r].status == Preparing || rows[r].status == Applying)
    {
      listed := set r | r in rows && (rows[r].status.Preparing? || rows[r].status.Applying?);
    }

    /** Rewrite the status of every listed run that is still unfinished. */
    method SettleAll(listed: set<RunId>)
      requires listed <= rows.Keys
      modifies this
      ensures rows == Recovered(old(rows), listed) && rows.Keys == old(rows).Keys
      ensures forall r :: r in rows ==> if r in listed then RecoveredAs(old(rows)[r], rows[r])
                                        else rows[r] == old(rows)[r]
    {
      forall row ensures RecoveredAs(row, Settled(row)) {
        SettledAs(row);
      }
      var todo := listed;
      while todo != {}
        invariant todo <= listed && rows.Keys == old(rows).Keys
        invariant forall r :: r in rows
                    ==> rows[r] == if r in listed && r !in todo then Settled(old(rows)[r]) else old(rows)[r]
      {
        var r :| r in todo;
        var row := rows[r];
        if row.status.Preparing? || row.status.Applying? {
          var writesPossible := row.status.Applying? && row.journal.Some? && row.journal.value != [];
          if writesPossible {
            rows := rows[r := row.(status := Failed)];
          } else {
            rows := rows[r := row.(status := Interrupted, interrupted := true)];
          }
        }
        todo := todo - {r};
      }
    }

    /** Recovery of the runs that were listed, whatever other workers committed since. An empty list does
        nothing; a busy pair raises and changes nothing. */
    method RecoverListed(listed: set<RunId>, pair: Leases.PairRow, token: Leases.Token, now: int) returns (raised: bool)
      requires listed <= rows.Keys
      modifies this, pair
      ensures pair.automatic == old(pair.automatic)
      ensures raised <==> listed != {} && old(pair.operation).token.Some?
                          && old(pair.operation).expires.Some? && old(pair.operation).expires.value > now
      ensures raised || listed == {} ==> rows == old(rows) && pair.operation == old(pair.operation)
      ensures !raised ==> rows == Recovered(old(rows), listed) && rows.Keys == old(rows).Keys
      ensures !raised ==> forall r :: r in rows ==> if r in listed then RecoveredAs(old(rows)[r], rows[r])
                                                    else rows[r] == old(rows)[r]
      ensures !raised && listed != {} ==> pair.operation == Leases.UNLOCKED
    {
      raised := false;
      if listed == {} {
        assert Recovered(rows, listed) == rows;
      } else {
        var granted := pair.AcquirePairLease(Leases.Operation, token, now, Leases.PAIR_LEASE_DURATION);
        assert pair.automatic == old(pair.Of(Leases.Automatic)) by {
          assert pair.automatic == pair.Of(Leases.Automatic);
        }
        if granted {
          SettleAll(listed);
          assert pair.Of(Leases.Operation).token == Some(token);
          pair.Release(Leases.Operation, token);
          assert pair.automatic == pair.Of(Leases.Automatic);
        } else {
          raised := true;
        }
      }
    }

    /** A whole recovery with nobody else at work. Unless the pair is busy with something unfinished, it
        leaves nothing unfinished, touches no finished run, and exactly the applies with a journal stay
        uncertain, beside the failures there were. */
    method RecoverInterruptedRuns(pair: Leases.PairRow, token: Leases.Token, now: int) returns (raised: bool)
      modifies this, pair
      ensures rows.Keys == old(rows).Keys && pair.automatic == old(pair.automatic)
      ensures raised <==> old(pair.operation).token.Some? && old(pair.operation).expires.Some?
                          && old(pair.operation).expires.value > now
                          && exists r :: r in old(rows) && Unfinished(old(rows)[r])
      ensures raised ==> rows == old(rows) && pair.operation == old(pair.operation)
      ensures !raised ==> forall r :: r in rows ==>
                && RecoveredAs(old(rows)[r], rows[r])
                && !Unfinished(rows[r]) && (!Unfinished(old(rows)[r]) ==> rows[r] == old(rows)[r])
                && (Uncertain(rows[r]) <==> old(rows)[r].status.Failed?
                                            || (old(rows)[r].status.Applying? && Journalled(old(rows)[r])))
    {
      var listed := ListUnfinished();
      raised := RecoverListed(listed, pair, token, now);
    }
  }
}
