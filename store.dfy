/** The storage engine and the change-notification sink, reduced to what the
    provider can observe of them. The database answers each insert and delete
    through an oracle, a function of everything done to it before, and keeps a
    log of the calls it received; the resolver keeps the list of URIs it was
    told about. Both also record into one shared timeline, so that the order
    between a database call and a notification can be stated. */
module Store {
  import opened Wrappers
  import opened Uris

  /** `ContentValues`: column name to value. */
  type ContentValues = map<string, string>

  /** What `SQLiteDatabase.insert` did: return a row id (-1 when the row was
      refused), or throw. */
  datatype InsertOutcome = RowId(id: Long) | Thrown

  /** One call the provider made on the database. */
  datatype DbOp =
    | BeginTransaction
    | SetTransactionSuccessful
    | EndTransaction
    | Insert(table: string, values: ContentValues, outcome: InsertOutcome)
    | Delete(table: string, whereClause: string, whereArgs: Option<seq<string>>, count: nat)

  /** How the storage engine answers, given the calls it has received so far. */
  datatype Oracle = Oracle(
    insert: (seq<DbOp>, string, ContentValues) -> InsertOutcome,
    delete: (seq<DbOp>, string, string, Option<seq<string>>) -> nat)

  /** One thing that happened: a call on the database or a change
      notification. */
  datatype Event = Call(op: DbOp) | Notify(uri: Uri)

  /** The calls in `ops` as events, in the same order. */
  ghost function Calls(ops: seq<DbOp>): (es: seq<Event>)
    ensures |es| == |ops|
  {
    seq(|ops|, i requires 0 <= i < |ops| => Call(ops[i]))
  }

  lemma CallsAppend(a: seq<DbOp>, b: seq<DbOp>)
    ensures Calls(a + b) == Calls(a) + Calls(b)
  {
    assert forall i :: 0 <= i < |a + b| ==> Calls(a + b)[i] == (Calls(a) + Calls(b))[i];
  }

  /** One more call after the calls made since `base`. */
  lemma CallsStep(events: seq<Event>, start: seq<Event>, base: nat, before: seq<DbOp>, op: DbOp)
    requires base <= |before| && events == start + Calls(before[base..])
    ensures events + [Call(op)] == start + Calls((before + [op])[base..])
  {
    assert (before + [op])[base..] == before[base..] + [op];
    CallsAppend(before[base..], [op]);
  }

  /** The calls made since `l0` are those up to `l1` followed by those after. */
  lemma CallsCompose(e0: seq<Event>, e1: seq<Event>, e2: seq<Event>, l0: seq<DbOp>, l1: seq<DbOp>, l2: seq<DbOp>)
    requires |l0| <= |l1| <= |l2| && l2[..|l1|] == l1
    requires e1 == e0 + Calls(l1[|l0|..]) && e2 == e1 + Calls(l2[|l1|..])
    ensures e2 == e0 + Calls(l2[|l0|..])
  {
    var a, b := l1[|l0|..], l2[|l1|..];
    assert l2[|l0|..] == a + b by { SliceSplit(l0, l1, l2); }
    assert Calls(a + b) == Calls(a) + Calls(b) by { CallsAppend(a, b); }
    assert e2 == e0 + (Calls(a) + Calls(b));
  }

  lemma SliceSplit(l0: seq<DbOp>, l1: seq<DbOp>, l2: seq<DbOp>)
    requires |l0| <= |l1| <= |l2| && l2[..|l1|] == l1
    ensures l2[|l0|..] == l1[|l0|..] + l2[|l1|..]
  {
    forall i | 0 <= i < |l2| - |l0|
      ensures l2[|l0|..][i] == (l1[|l0|..] + l2[|l1|..])[i]
    {
      if |l0| + i < |l1| {
        assert l2[|l0| + i] == l2[..|l1|][|l0| + i];
      }
    }
  }

  /** The last two events of `start + calls + [e]`: the last call, then `e`. */
  lemma LastTwoEvents(start: seq<Event>, calls: seq<Event>, e: Event)
    requires |calls| >= 1
    ensures var s := start + calls + [e];
      s[|s| - 1] == e && s[|s| - 2] == calls[|calls| - 1]
  {
  }

  /** The timeline of the process: every database call and every
      notification, in the order they happen. */
  class Trace {
    ghost var events: seq<Event>

    constructor ()
      ensures events == []
    {
      events := [];
    }
  }

  class Database {
    const oracle: Oracle
    var log: seq<DbOp>
    ghost const trace: Trace

    constructor (oracle: Oracle, ghost trace: Trace)
      ensures this.oracle == oracle && this.trace == trace && log == []
    {
      this.oracle := oracle;
      this.trace := trace;
      log := [];
    }

    method BeginTransaction()
      modifies this, trace
      ensures log == old(log) + [DbOp.BeginTransaction]
      ensures trace.events == old(trace.events) + [Call(DbOp.BeginTransaction)]
    {
      log := log + [DbOp.BeginTransaction];
      trace.events := trace.events + [Call(DbOp.BeginTransaction)];
    }

    method SetTransactionSuccessful()
      modifies this, trace
      ensures log == old(log) + [DbOp.SetTransactionSuccessful]
      ensures trace.events == old(trace.events) + [Call(DbOp.SetTransactionSuccessful)]
    {
      log := log + [DbOp.SetTransactionSuccessful];
      trace.events := trace.events + [Call(DbOp.SetTransactionSuccessful)];
    }

    method EndTransaction()
      modifies this, trace
      ensures log == old(log) + [DbOp.EndTransaction]
      ensures trace.events == old(trace.events) + [Call(DbOp.EndTransaction)]
    {
      log := log + [DbOp.EndTransaction];
      trace.events := trace.events + [Call(DbOp.EndTransaction)];
    }

    /** `insert(table, null, values)`. */
    method Insert(table: string, values: ContentValues) returns (outcome: InsertOutcome)
      modifies this, trace
      ensures outcome == oracle.insert(old(log), table, values)
      ensures log == old(log) + [DbOp.Insert(table, values, outcome)]
      ensures trace.events == old(trace.events) + [Call(DbOp.Insert(table, values, outcome))]
    {
      outcome := oracle.insert(log, table, values);
      log := log + [DbOp.Insert(table, values, outcome)];
      trace.events := trace.events + [Call(DbOp.Insert(table, values, outcome))];
    }

    /** `delete(table, whereClause, whereArgs)`: the number of rows deleted. */
    method Delete(table: string, whereClause: string, whereArgs: Option<seq<string>>) returns (count: nat)
      modifies this, trace
      ensures count == oracle.delete(old(log), table, whereClause, whereArgs)
      ensures log == old(log) + [DbOp.Delete(table, whereClause, whereArgs, count)]
      ensures trace.events == old(trace.events) + [Call(DbOp.Delete(table, whereClause, whereArgs, count))]
    {
      count := oracle.delete(log, table, whereClause, whereArgs);
      log := log + [DbOp.Delete(table, whereClause, whereArgs, count)];
      trace.events := trace.events + [Call(DbOp.Delete(table, whereClause, whereArgs, count))];
    }
  }

  class ContentResolver {
    var notified: seq<Uri>
    ghost const trace: Trace

    constructor (ghost trace: Trace)
      ensures notified == [] && this.trace == trace
    {
      notified := [];
      this.trace := trace;
    }

    /** `notifyChange(uri, null)`. */
    method NotifyChange(uri: Uri)
      modifies this, trace
      ensures notified == old(notified) + [uri]
      ensures trace.events == old(trace.events) + [Notify(uri)]
    {
      notified := notified + [uri];
      trace.events := trace.events + [Notify(uri)];
    }
  }
}
