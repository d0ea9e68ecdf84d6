/**
 * The `Batch` statement: a builder that queues raw SQL parts and context
 * attributes, then sends every part to the database in one native batch.
 */
module BatchStatement {
  import opened Wrappers
  import opened BatchSemantics

  class Batch {
    /** The queued SQL parts, in insertion order. */
    var parts: seq<string>
    /** The statement context's attributes. */
    var context: Attributes
    /** The cleanup ledger kept by the base statement. */
    var cleanables: seq<Cleanable>
    /** Every call made on a collaborator so far, oldest first. */
    ghost var calls: seq<Call>

    const rewriter: Rewriter
    const connection: Connection

    constructor (rewriter: Rewriter, connection: Connection, context: Attributes)
      ensures parts == [] && cleanables == [] && calls == []
      ensures this.context == context
      ensures this.rewriter == rewriter && this.connection == connection
    {
      this.rewriter := rewriter;
      this.connection := connection;
      this.context := context;
      parts := [];
      cleanables := [];
      calls := [];
    }

    /** Queues `sql` after the parts already queued and returns this same batch. */
    method Add(sql: string) returns (self: Batch)
      modifies this
      ensures self == this
      ensures parts == old(parts) + [sql]
      ensures context == old(context) && cleanables == old(cleanables) && calls == old(calls)
    {
      parts := parts + [sql];
      self := this;
    }

    /** Sets the context attribute `key` to `value` and returns this same batch. */
    method Define(key: string, value: Value) returns (self: Batch)
      modifies this
      ensures self == this
      ensures context == old(context)[key := value]
      ensures key in context && context[key] == value
      ensures parts == old(parts) && cleanables == old(cleanables) && calls == old(calls)
    {
      context := context[key := value];
      self := this;
    }

    /** Registers a resource to release at cleanup. */
    method AddCleanable(c: Cleanable)
      modifies this
      ensures cleanables == old(cleanables) + [c]
      ensures calls == old(calls) + [BatchSemantics.AddCleanable(c)]
      ensures parts == old(parts) && context == old(context)
    {
      cleanables := cleanables + [c];
      calls := calls + [BatchSemantics.AddCleanable(c)];
    }

    /** Releases every registered resource and empties the ledger. */
    method Cleanup()
      modifies this
      ensures cleanables == []
      ensures calls == old(calls) + [BatchSemantics.Cleanup(old(cleanables))]
      ensures parts == old(parts) && context == old(context)
    {
      calls := calls + [BatchSemantics.Cleanup(cleanables)];
      cleanables := [];
    }

    /**
     * The loop of `execute()` that rewrites every part with an empty binding
     * and adds it to the native batch, stopping at the first failure. Its
     * outcome is `Configure` of the parts.
     */
    method ConfigureStatement() returns (c: Configuration)
      modifies this
      ensures c == Configure(parts, rewriter, connection, context)
      ensures calls == old(calls) + AddBatchCalls(c.added)
      ensures parts == old(parts) && context == old(context) && cleanables == old(cleanables)
    {
      var fragments: seq<string> := [];
      var failure: Option<StatementException> := None;
      var i := 0;
      while i < |parts| && failure.None?
        invariant 0 <= i <= |parts|
        invariant failure.None? ==> Configure(parts[..i], rewriter, connection, context) == Configured(fragments)
        invariant failure.Some? ==> Configure(parts[..i], rewriter, connection, context) == ConfigureFailed(fragments, failure.value)
        invariant calls == old(calls) + AddBatchCalls(fragments)
        invariant parts == old(parts) && context == old(context) && cleanables == old(cleanables)
      {
        ConfigureStep(parts, i, rewriter, connection, context);
        match rewriter(parts[i], EmptyBinding, context) {
          case Failure(err) =>
            failure := Some(RewriteFailed(err));
          case Success(sql) =>
            calls := calls + [AddBatch(sql)];
            match connection.addBatch(i, sql) {
              case Some(cause) =>
                failure := Some(UnableToExecuteStatement(Some(ConfigureFailureMessage), cause, context));
              case None =>
            }
            AddBatchCallsSnoc(fragments, sql);
            fragments := fragments + [sql];
        }
        i := i + 1;
      }
      if failure.Some? {
        ConfigureFailureSticks(parts, i, rewriter, connection, context);
        c := ConfigureFailed(fragments, failure.value);
      } else {
        assert parts[..i] == parts;
        c := Configured(fragments);
      }
    }

    /**
     * The timed `executeBatch` of `execute()`: its failure becomes
     * `UnableToExecuteStatement` without a message; on success the timing
     * collector is told the elapsed time once and the counts are returned.
     */
    method ExecuteTimed(fragments: seq<string>, elapsed: nat) returns (r: ExecuteResult)
      modifies this
      ensures |calls| >= |old(calls)| && calls[..|old(calls)|] == old(calls)
      ensures connection.executeBatch(fragments).Failure? ==>
        && r == Threw(UnableToExecuteStatement(None, connection.executeBatch(fragments).error, context))
        && calls == old(calls) + [ExecuteBatch]
      ensures connection.executeBatch(fragments).Success? ==>
        && r == Returned(connection.executeBatch(fragments).value)
        && calls == old(calls) + [ExecuteBatch, CollectTiming(elapsed, context)]
      ensures parts == old(parts) && context == old(context) && cleanables == old(cleanables)
    {
      calls := calls + [ExecuteBatch];
      match connection.executeBatch(fragments) {
        case Failure(cause) =>
          r := Threw(UnableToExecuteStatement(None, cause, context));
        case Success(counts) =>
          calls := calls + [CollectTiming(elapsed, context)];
          r := Returned(counts);
      }
    }

    /** What `execute()` does once statement `stmt` has been created: it is `StatementRun`. */
    method ExecuteOnStatement(stmt: nat, elapsed: nat) returns (r: ExecuteResult)
      modifies this
      ensures r == StatementRun(stmt, parts, rewriter, connection, context, old(cleanables), elapsed).result
      ensures calls == old(calls) + StatementRun(stmt, parts, rewriter, connection, context, old(cleanables), elapsed).calls
      ensures cleanables == []
      ensures parts == old(parts) && context == old(context)
    {
      ghost var before, ledger := calls, cleanables;
      AddCleanable(CloseStatement(stmt));
      ghost var registered := [BatchSemantics.AddCleanable(CloseStatement(stmt))];
      ghost var release := BatchSemantics.Cleanup(ledger + [CloseStatement(stmt)]);
      var c := ConfigureStatement();
      ghost var configured := calls;
      Regroup(before, registered, AddBatchCalls(c.added));
      match c {
        case ConfigureFailed(_, e) =>
          r := Threw(e);
          Cleanup();
          Regroup(before, registered + AddBatchCalls(c.added), [release]);
        case Configured(fragments) =>
          r := ExecuteTimed(fragments, elapsed);
          ghost var timed := calls[|configured|..];
          Cleanup();
          Regroup(before, registered + AddBatchCalls(c.added), timed + [release]);
      }
    }

    /**
     * Runs the queued parts as one native batch. `elapsed` is the time the
     * clock reports around `executeBatch`. The calls made and the outcome are
     * those of `Execution`; the parts and the context stay as they were.
     */
    method Execute(elapsed: nat) returns (r: ExecuteResult)
      modifies this
      ensures parts == old(parts) && context == old(context)
      ensures r == Execution(parts, rewriter, connection, context, old(cleanables), elapsed).result
      ensures calls == old(calls) + Execution(parts, rewriter, connection, context, old(cleanables), elapsed).calls
      ensures cleanables == if parts == [] then old(cleanables) else []
    {
      if |parts| == 0 {
        return Returned([]);
      }
      ghost var before := calls;
      calls := calls + [CreateStatement];
      match connection.createStatement {
        case Failure(cause) =>
          r := Threw(UnableToCreateStatement(cause, context));
          Cleanup();
          assert calls == before + [CreateStatement, BatchSemantics.Cleanup(old(cleanables))];
        case Success(stmt) =>
          r := ExecuteOnStatement(stmt, elapsed);
          assert calls == before + ([CreateStatement] + StatementRun(stmt, parts, rewriter, connection, context, old(cleanables), elapsed).calls);
      }
    }
  }
}
