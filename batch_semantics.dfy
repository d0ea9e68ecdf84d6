/**
 * What `Batch.execute()` does, as functions of the queued parts and of the
 * answers its collaborators give: the JDBC connection and the statement it
 * creates, the statement rewriter, and the timing collector.
 *
 * Every call the batch makes on a collaborator is recorded as a `Call`, so the
 * order of creation, cleanup registration, `addBatch`, `executeBatch`, timing
 * collection and cleanup can be stated and proved.
 */
module BatchSemantics {
  import opened Wrappers
  import ColonPrefixSql

  /** A context attribute or bound argument (a Java `Object`); its contents never matter here. */
  type Value(==)

  /** The statement context's attributes. */
  type Attributes = map<string, Value>

  /** Named and positional arguments; batch parts are rewritten with an empty one. */
  datatype Binding = Binding(named: map<string, Value>, positional: map<nat, Value>)

  const EmptyBinding: Binding := Binding(map[], map[])

  /**
   * `rewriter.rewrite(part, binding, context).getSql()`: the rewritten SQL, or
   * the malformed-template exception the rewriter throws.
   */
  type Rewriter = (string, Binding, Attributes) -> Result<string, ColonPrefixSql.TemplateError>

  /** A `java.sql.SQLException` raised by the driver. */
  datatype SqlException = SqlException(message: string)

  /** A resource registered for cleanup: closing the JDBC statement with this handle. */
  datatype Cleanable = CloseStatement(statement: nat)

  /**
   * How the JDBC connection, and the statement it creates, answer each call:
   * `createStatement` gives a statement handle or fails; `addBatch(i, sql)` is
   * the outcome of adding the i-th fragment; `executeBatch(fragments)` is the
   * outcome of running the fragments added so far.
   */
  datatype Connection = Connection(
    createStatement: Result<nat, SqlException>,
    addBatch: (nat, string) -> Option<SqlException>,
    executeBatch: seq<string> -> Result<seq<int>, SqlException>)

  /** The exceptions `execute()` raises. */
  datatype StatementException =
    | UnableToCreateStatement(cause: SqlException, context: Attributes)
    | UnableToExecuteStatement(message: Option<string>, cause: SqlException, context: Attributes)
    | RewriteFailed(error: ColonPrefixSql.TemplateError)

  const ConfigureFailureMessage: string := "Unable to configure JDBC statement"

  /** A call on a collaborator. */
  datatype Call =
    | CreateStatement                                   // connection.createStatement()
    | AddCleanable(cleanable: Cleanable)                // registering the statement for cleanup
    | AddBatch(sql: string)                             // stmt.addBatch(sql)
    | ExecuteBatch                                      // stmt.executeBatch()
    | CollectTiming(elapsed: nat, context: Attributes)  // timingCollector.collect(elapsed, context)
    | Cleanup(released: seq<Cleanable>)                 // cleanup(), releasing the ledger

  datatype ExecuteResult = Returned(counts: seq<int>) | Threw(exception: StatementException)

  /** The calls `execute()` makes and what it returns or throws. */
  datatype Run = Run(calls: seq<Call>, result: ExecuteResult)

  /** The outcome of the loop that feeds the parts to `addBatch`. */
  datatype Configuration =
    | Configured(added: seq<string>)
    | ConfigureFailed(added: seq<string>, exception: StatementException)

  function AddBatchCalls(fragments: seq<string>): seq<Call> {
    seq(|fragments|, i requires 0 <= i < |fragments| => AddBatch(fragments[i]))
  }

  /** The SQL handed to `addBatch`, in order, read back from a sequence of calls. */
  function Fragments(calls: seq<Call>): seq<string>
    decreases |calls|
  {
    if calls == [] then []
    else (if calls[0].AddBatch? then [calls[0].sql] else []) + Fragments(calls[1..])
  }

  /** How many of `calls` satisfy `isKind`. */
  function CountCalls(calls: seq<Call>, isKind: Call -> bool): nat
    decreases |calls|
  {
    if calls == [] then 0
    else (if isKind(calls[0]) then 1 else 0) + CountCalls(calls[1..], isKind)
  }

  /**
   * Rewrites the parts in order with an empty binding and adds each result to
   * the native batch, stopping at the first part the rewriter rejects or the
   * first `addBatch` that fails.
   */
  function Configure(parts: seq<string>, rewriter: Rewriter, conn: Connection, context: Attributes): (c: Configuration)
    ensures c.Configured? ==> |c.added| == |parts|
    ensures c.Configured? ==> forall i :: 0 <= i < |parts| ==>
      rewriter(parts[i], EmptyBinding, context) == Success(c.added[i]) && conn.addBatch(i, c.added[i]).None?
    ensures c.ConfigureFailed? ==> |c.added| <= |parts|
    ensures c.ConfigureFailed? ==> forall i :: 0 <= i < |c.added| ==>
      rewriter(parts[i], EmptyBinding, context) == Success(c.added[i])
    ensures c.ConfigureFailed? && c.exception.RewriteFailed? ==>
      && |c.added| < |parts|
      && rewriter(parts[|c.added|], EmptyBinding, context) == Failure(c.exception.error)
      && forall i :: 0 <= i < |c.added| ==> conn.addBatch(i, c.added[i]).None?
    ensures c.ConfigureFailed? && !c.exception.RewriteFailed? ==>
      && c.exception == UnableToExecuteStatement(Some(ConfigureFailureMessage), c.exception.cause, context)
      && |c.added| > 0
      && conn.addBatch(|c.added| - 1, c.added[|c.added| - 1]) == Some(c.exception.cause)
      && forall i :: 0 <= i < |c.added| - 1 ==> conn.addBatch(i, c.added[i]).None?
    decreases |parts|
  {
    if parts == [] then Configured([])
    else
      var init, last := parts[..|parts| - 1], parts[|parts| - 1];
      match Configure(init, rewriter, conn, context)
      case ConfigureFailed(attempted, e) => ConfigureFailed(attempted, e)
      case Configured(fragments) =>
        match rewriter(last, EmptyBinding, context)
        case Failure(err) => ConfigureFailed(fragments, RewriteFailed(err))
        case Success(sql) =>
          match conn.addBatch(|fragments|, sql)
          case Some(cause) =>
            ConfigureFailed(fragments + [sql],
                            UnableToExecuteStatement(Some(ConfigureFailureMessage), cause, context))
          case None => Configured(fragments + [sql])
  }

  /**
   * `execute()`: the calls it makes and its outcome, given the queued parts,
   * the context, the cleanup ledger it starts with and the elapsed time the
   * clock reports around `executeBatch`.
   */
  function Execution(parts: seq<string>, rewriter: Rewriter, conn: Connection, context: Attributes,
                     ledger: seq<Cleanable>, elapsed: nat): (r: Run)
    ensures r.calls == [] <==> parts == []
    ensures parts != [] ==> r.calls[0] == CreateStatement && r.calls[|r.calls| - 1].Cleanup?
    ensures r.result.Returned? && parts != [] ==> conn.createStatement.Success?
  {
    if parts == [] then Run([], Returned([]))
    else
      match conn.createStatement
      case Failure(cause) =>
        Run([CreateStatement, Cleanup(ledger)], Threw(UnableToCreateStatement(cause, context)))
      case Success(stmt) =>
        var run := StatementRun(stmt, parts, rewriter, conn, context, ledger, elapsed);
        Run([CreateStatement] + run.calls, run.result)
  }

  /** What `execute()` does once statement `stmt` has been created. */
  function StatementRun(stmt: nat, parts: seq<string>, rewriter: Rewriter, conn: Connection, context: Attributes,
                        ledger: seq<Cleanable>, elapsed: nat): (r: Run)
    ensures |r.calls| >= 2 && r.calls[0] == AddCleanable(CloseStatement(stmt))
    ensures r.calls[|r.calls| - 1] == Cleanup(ledger + [CloseStatement(stmt)])
    ensures r.result.Returned? ==> r.calls[|r.calls| - 2] == CollectTiming(elapsed, context)
  {
    var registered := [AddCleanable(CloseStatement(stmt))];
    var release := Cleanup(ledger + [CloseStatement(stmt)]);
    match Configure(parts, rewriter, conn, context)
    case ConfigureFailed(attempted, e) =>
      Run(registered + AddBatchCalls(attempted) + [release], Threw(e))
    case Configured(fragments) =>
      match conn.executeBatch(fragments)
      case Failure(cause) =>
        Run(registered + AddBatchCalls(fragments) + [ExecuteBatch, release],
            Threw(UnableToExecuteStatement(None, cause, context)))
      case Success(counts) =>
        Run(registered + AddBatchCalls(fragments) + [ExecuteBatch, CollectTiming(elapsed, context), release],
            Returned(counts))
  }

  // ----- Helpers about call sequences -----

  lemma {:induction false} FragmentsAppend(a: seq<Call>, b: seq<Call>)
    ensures Fragments(a + b) == Fragments(a) + Fragments(b)
    decreases |a|
  {
    if a == [] {
      assert a + b == b;
    } else {
      assert (a + b)[1..] == a[1..] + b;
      FragmentsAppend(a[1..], b);
    }
  }

  lemma Regroup(before: seq<Call>, middle: seq<Call>, tail: seq<Call>)
    ensures before + middle + tail == before + (middle + tail)
  {
  }

  lemma AddBatchCallsSnoc(fragments: seq<string>, sql: string)
    ensures AddBatchCalls(fragments + [sql]) == AddBatchCalls(fragments) + [AddBatch(sql)]
  {
  }

  lemma {:induction false} FragmentsOfAddBatchCalls(fragments: seq<string>)
    ensures Fragments(AddBatchCalls(fragments)) == fragments
    decreases |fragments|
  {
    if fragments != [] {
      assert AddBatchCalls(fragments)[1..] == AddBatchCalls(fragments[1..]);
      FragmentsOfAddBatchCalls(fragments[1..]);
    }
  }

  lemma {:induction false} CountCallsAppend(a: seq<Call>, b: seq<Call>, isKind: Call -> bool)
    ensures CountCalls(a + b, isKind) == CountCalls(a, isKind) + CountCalls(b, isKind)
    decreases |a|
  {
    if a == [] {
      assert a + b == b;
    } else {
      assert (a + b)[1..] == a[1..] + b;
      CountCallsAppend(a[1..], b, isKind);
    }
  }

  lemma {:induction false} CountCallsNone(calls: seq<Call>, isKind: Call -> bool)
    requires forall i :: 0 <= i < |calls| ==> !isKind(calls[i])
    ensures CountCalls(calls, isKind) == 0
    decreases |calls|
  {
    if calls != [] {
      CountCallsNone(calls[1..], isKind);
    }
  }

  predicate IsTiming(c: Call) { c.CollectTiming? }
  predicate IsExecuteBatch(c: Call) { c.ExecuteBatch? }
  predicate IsCleanup(c: Call) { c.Cleanup? }

  /** `CountCalls` on a literal sequence of two calls. */
  lemma CountCallsOfTwo(b: Call, c: Call, isKind: Call -> bool)
    ensures CountCalls([b, c], isKind) == (if isKind(b) then 1 else 0) + (if isKind(c) then 1 else 0)
  {
    assert [b, c][1..] == [c];
    assert [c][1..] == [];
    assert CountCalls([c], isKind) == (if isKind(c) then 1 else 0) + CountCalls([], isKind);
  }

  /** `CountCalls` on a literal sequence of three calls. */
  lemma CountCallsOfThree(a: Call, b: Call, c: Call, isKind: Call -> bool)
    ensures CountCalls([b, c], isKind) == (if isKind(b) then 1 else 0) + (if isKind(c) then 1 else 0)
    ensures CountCalls([a, b, c], isKind) == (if isKind(a) then 1 else 0) + CountCalls([b, c], isKind)
  {
    assert [a, b, c][1..] == [b, c];
    CountCallsOfTwo(b, c, isKind);
  }

  lemma {:induction false} FragmentsNone(calls: seq<Call>)
    requires forall i :: 0 <= i < |calls| ==> !calls[i].AddBatch?
    ensures Fragments(calls) == []
    decreases |calls|
  {
    if calls != [] {
      FragmentsNone(calls[1..]);
    }
  }

  /** The calls of a run after the statement is created are the fragments, then `tail`. */
  lemma FragmentsOfRun(stmt: nat, fragments: seq<string>, tail: seq<Call>)
    requires forall i :: 0 <= i < |tail| ==> !tail[i].AddBatch?
    ensures Fragments([CreateStatement] + ([AddCleanable(CloseStatement(stmt))] + AddBatchCalls(fragments) + tail)) == fragments
  {
    var registered := [AddCleanable(CloseStatement(stmt))];
    FragmentsAppend([CreateStatement], registered + AddBatchCalls(fragments) + tail);
    FragmentsAppend(registered + AddBatchCalls(fragments), tail);
    FragmentsAppend(registered, AddBatchCalls(fragments));
    FragmentsNone([CreateStatement]);
    FragmentsNone(registered);
    FragmentsNone(tail);
    FragmentsOfAddBatchCalls(fragments);
  }

  /** Only `tail` contributes calls of a kind that creation and `addBatch` are not. */
  lemma CountOfRun(stmt: nat, fragments: seq<string>, tail: seq<Call>, isKind: Call -> bool)
    requires !isKind(CreateStatement) && !isKind(AddCleanable(CloseStatement(stmt)))
    requires forall sql :: !isKind(AddBatch(sql))
    ensures CountCalls([CreateStatement] + ([AddCleanable(CloseStatement(stmt))] + AddBatchCalls(fragments) + tail), isKind)
            == CountCalls(tail, isKind)
  {
    var registered := [AddCleanable(CloseStatement(stmt))];
    CountCallsAppend([CreateStatement], registered + AddBatchCalls(fragments) + tail, isKind);
    CountCallsAppend(registered + AddBatchCalls(fragments), tail, isKind);
    CountCallsAppend(registered, AddBatchCalls(fragments), isKind);
    CountCallsNone([CreateStatement], isKind);
    CountCallsNone(registered, isKind);
    CountCallsNone(AddBatchCalls(fragments), isKind);
  }

  // ----- Properties of the configuration loop -----

  /** Once a prefix of the parts fails to configure, the whole loop fails in the same way. */
  lemma {:induction false} ConfigureFailureSticks(parts: seq<string>, k: nat, rewriter: Rewriter, conn: Connection, context: Attributes)
    requires k <= |parts|
    requires Configure(parts[..k], rewriter, conn, context).ConfigureFailed?
    ensures Configure(parts, rewriter, conn, context) == Configure(parts[..k], rewriter, conn, context)
    decreases |parts|
  {
    if k < |parts| {
      var init := parts[..|parts| - 1];
      assert init[..k] == parts[..k];
      ConfigureFailureSticks(init, k, rewriter, conn, context);
    } else {
      assert parts[..k] == parts;
    }
  }

  /** One more part: the loop over `parts[..k + 1]` continues the loop over `parts[..k]`. */
  lemma ConfigureStep(parts: seq<string>, k: nat, rewriter: Rewriter, conn: Connection, context: Attributes)
    requires k < |parts|
    requires Configure(parts[..k], rewriter, conn, context).Configured?
    ensures var fragments := Configure(parts[..k], rewriter, conn, context).added;
      Configure(parts[..k + 1], rewriter, conn, context) ==
        match rewriter(parts[k], EmptyBinding, context)
        case Failure(err) => ConfigureFailed(fragments, RewriteFailed(err))
        case Success(sql) =>
          match conn.addBatch(k, sql)
          case Some(cause) =>
            ConfigureFailed(fragments + [sql], UnableToExecuteStatement(Some(ConfigureFailureMessage), cause, context))
          case None => Configured(fragments + [sql])
  {
    assert parts[..k + 1][..k] == parts[..k];
  }

  /** The loop configures every part exactly when every rewrite and every `addBatch` succeeds. */
  lemma {:induction false} ConfiguredIff(parts: seq<string>, rewriter: Rewriter, conn: Connection, context: Attributes)
    ensures Configure(parts, rewriter, conn, context).Configured? <==>
      forall i :: 0 <= i < |parts| ==>
        rewriter(parts[i], EmptyBinding, context).Success? &&
        conn.addBatch(i, rewriter(parts[i], EmptyBinding, context).value).None?
    decreases |parts|
  {
    if parts != [] {
      var init := parts[..|parts| - 1];
      ConfiguredIff(init, rewriter, conn, context);
      var c := Configure(parts, rewriter, conn, context);
      if !c.Configured? && Configure(init, rewriter, conn, context).Configured? {
        // the last part is the one that failed
        var last := |parts| - 1;
        assert !(rewriter(parts[last], EmptyBinding, context).Success? &&
                 conn.addBatch(last, rewriter(parts[last], EmptyBinding, context).value).None?);
      }
    }
  }

  // ----- Properties of execute() -----

  /** An empty batch returns an empty array and calls no collaborator. */
  lemma EmptyBatch(rewriter: Rewriter, conn: Connection, context: Attributes, ledger: seq<Cleanable>, elapsed: nat)
    ensures Execution([], rewriter, conn, context, ledger, elapsed) == Run([], Returned([]))
  {
  }

  /**
   * A successful run adds exactly the rewritten parts, in order and one per
   * part, runs the native batch exactly once, returns what `executeBatch`
   * returned for them, and collects timing exactly once, right after `executeBatch`.
   */
  lemma SuccessfulExecution(parts: seq<string>, rewriter: Rewriter, conn: Connection, context: Attributes,
                            ledger: seq<Cleanable>, elapsed: nat)
    requires parts != []
    requires Execution(parts, rewriter, conn, context, ledger, elapsed).result.Returned?
    ensures var run := Execution(parts, rewriter, conn, context, ledger, elapsed);
      && |Fragments(run.calls)| == |parts|
      && (forall i :: 0 <= i < |parts| ==> rewriter(parts[i], EmptyBinding, context) == Success(Fragments(run.calls)[i]))
      && conn.executeBatch(Fragments(run.calls)) == Success(run.result.counts)
      && CountCalls(run.calls, IsTiming) == 1
      && CountCalls(run.calls, IsExecuteBatch) == 1
      && |run.calls| >= 3
      && run.calls[|run.calls| - 3] == ExecuteBatch
      && run.calls[|run.calls| - 2] == CollectTiming(elapsed, context)
  {
    var stmt := conn.createStatement.value;
    var fragments := Configure(parts, rewriter, conn, context).added;
    var tail := [ExecuteBatch, CollectTiming(elapsed, context), Cleanup(ledger + [CloseStatement(stmt)])];
    FragmentsOfRun(stmt, fragments, tail);
    CountOfRun(stmt, fragments, tail, IsTiming);
    CountCallsOfThree(tail[0], tail[1], tail[2], IsTiming);
    CountOfRun(stmt, fragments, tail, IsExecuteBatch);
    CountCallsOfThree(tail[0], tail[1], tail[2], IsExecuteBatch);
  }

  /**
   * A statement that cannot be created: `UnableToCreateStatement`, no fragment
   * added, no native batch run and no timing.
   */
  lemma CreateFailure(parts: seq<string>, rewriter: Rewriter, conn: Connection, context: Attributes,
                      ledger: seq<Cleanable>, elapsed: nat)
    requires parts != [] && conn.createStatement.Failure?
    ensures var run := Execution(parts, rewriter, conn, context, ledger, elapsed);
      && run.result == Threw(UnableToCreateStatement(conn.createStatement.error, context))
      && Fragments(run.calls) == []
      && CountCalls(run.calls, IsTiming) == 0
      && CountCalls(run.calls, IsExecuteBatch) == 0
  {
    var run := Execution(parts, rewriter, conn, context, ledger, elapsed);
    FragmentsNone(run.calls);
    CountCallsNone(run.calls, IsTiming);
    CountCallsNone(run.calls, IsExecuteBatch);
  }

  /**
   * A failed configuration loop: the SQL handed to `addBatch` is the earlier
   * parts rewritten, in order; a rejected part propagates the rewriter's
   * error, a failed `addBatch` raises `UnableToExecuteStatement` with the
   * configure message; `executeBatch` is never called and no timing is collected.
   */
  lemma ConfigureFailure(parts: seq<string>, rewriter: Rewriter, conn: Connection, context: Attributes,
                         ledger: seq<Cleanable>, elapsed: nat)
    requires parts != [] && conn.createStatement.Success?
    requires Configure(parts, rewriter, conn, context).ConfigureFailed?
    ensures var run := Execution(parts, rewriter, conn, context, ledger, elapsed);
      && run.result.Threw?
      && Fragments(run.calls) == Configure(parts, rewriter, conn, context).added
      && |Fragments(run.calls)| <= |parts|
      && (forall i :: 0 <= i < |Fragments(run.calls)| ==>
            rewriter(parts[i], EmptyBinding, context) == Success(Fragments(run.calls)[i]))
      && (forall i :: 0 <= i < |run.calls| ==> !run.calls[i].ExecuteBatch?)
      && CountCalls(run.calls, IsTiming) == 0
      && (run.result.exception.RewriteFailed? ==>
            && |Fragments(run.calls)| < |parts|
            && rewriter(parts[|Fragments(run.calls)|], EmptyBinding, context) == Failure(run.result.exception.error))
      && (!run.result.exception.RewriteFailed? ==>
            && run.result.exception == UnableToExecuteStatement(Some(ConfigureFailureMessage), run.result.exception.cause, context)
            && |Fragments(run.calls)| > 0
            && var last := |Fragments(run.calls)| - 1;
               conn.addBatch(last, Fragments(run.calls)[last]) == Some(run.result.exception.cause))
  {
    var stmt := conn.createStatement.value;
    var attempted := Configure(parts, rewriter, conn, context).added;
    var tail := [Cleanup(ledger + [CloseStatement(stmt)])];
    FragmentsOfRun(stmt, attempted, tail);
    CountOfRun(stmt, attempted, tail, IsTiming);
  }

  /**
   * A failed `executeBatch`: `UnableToExecuteStatement` without a message,
   * after the native batch was run exactly once, and no timing.
   */
  lemma ExecuteFailure(parts: seq<string>, rewriter: Rewriter, conn: Connection, context: Attributes,
                       ledger: seq<Cleanable>, elapsed: nat)
    requires parts != [] && conn.createStatement.Success?
    requires Configure(parts, rewriter, conn, context).Configured?
    requires conn.executeBatch(Configure(parts, rewriter, conn, context).added).Failure?
    ensures var run := Execution(parts, rewriter, conn, context, ledger, elapsed);
      && run.result == Threw(UnableToExecuteStatement(None,
           conn.executeBatch(Configure(parts, rewriter, conn, context).added).error, context))
      && Fragments(run.calls) == Configure(parts, rewriter, conn, context).added
      && CountCalls(run.calls, IsTiming) == 0
      && CountCalls(run.calls, IsExecuteBatch) == 1
  {
    var stmt := conn.createStatement.value;
    var fragments := Configure(parts, rewriter, conn, context).added;
    var tail := [ExecuteBatch, Cleanup(ledger + [CloseStatement(stmt)])];
    FragmentsOfRun(stmt, fragments, tail);
    CountOfRun(stmt, fragments, tail, IsTiming);
    CountCallsOfTwo(tail[0], tail[1], IsTiming);
    CountOfRun(stmt, fragments, tail, IsExecuteBatch);
    CountCallsOfTwo(tail[0], tail[1], IsExecuteBatch);
  }

  /** Timing is collected at most once, and exactly when `execute()` returns normally. */
  lemma TimingOnlyOnSuccess(parts: seq<string>, rewriter: Rewriter, conn: Connection, context: Attributes,
                            ledger: seq<Cleanable>, elapsed: nat)
    requires parts != []
    ensures var run := Execution(parts, rewriter, conn, context, ledger, elapsed);
      && CountCalls(run.calls, IsTiming) <= 1
      && (CountCalls(run.calls, IsTiming) == 1 <==> run.result.Returned?)
  {
    var run := Execution(parts, rewriter, conn, context, ledger, elapsed);
    if conn.createStatement.Failure? {
      CreateFailure(parts, rewriter, conn, context, ledger, elapsed);
    } else if Configure(parts, rewriter, conn, context).ConfigureFailed? {
      ConfigureFailure(parts, rewriter, conn, context, ledger, elapsed);
    } else if conn.executeBatch(Configure(parts, rewriter, conn, context).added).Failure? {
      ExecuteFailure(parts, rewriter, conn, context, ledger, elapsed);
    } else {
      SuccessfulExecution(parts, rewriter, conn, context, ledger, elapsed);
    }
  }

  /**
   * A non-empty batch creates one statement first, registers it for cleanup
   * right after creating it, and runs cleanup exactly once, as its last call,
   * releasing the ledger together with that statement.
   */
  lemma CleanupExactlyOnce(parts: seq<string>, rewriter: Rewriter, conn: Connection, context: Attributes,
                           ledger: seq<Cleanable>, elapsed: nat)
    requires parts != []
    ensures var run := Execution(parts, rewriter, conn, context, ledger, elapsed);
      && |run.calls| >= 2
      && run.calls[0] == CreateStatement
      && CountCalls(run.calls, IsCleanup) == 1
      && (conn.createStatement.Failure? ==> run.calls[|run.calls| - 1] == Cleanup(ledger))
      && (conn.createStatement.Success? ==>
            && run.calls[1] == AddCleanable(CloseStatement(conn.createStatement.value))
            && run.calls[|run.calls| - 1] == Cleanup(ledger + [CloseStatement(conn.createStatement.value)]))
  {
    if conn.createStatement.Success? {
      var stmt := conn.createStatement.value;
      var release := Cleanup(ledger + [CloseStatement(stmt)]);
      match Configure(parts, rewriter, conn, context)
      case ConfigureFailed(attempted, _) =>
        CountOfRun(stmt, attempted, [release], IsCleanup);
      case Configured(fragments) =>
        CountOfRun(stmt, fragments, [ExecuteBatch, release], IsCleanup);
        CountOfRun(stmt, fragments, [ExecuteBatch, CollectTiming(elapsed, context), release], IsCleanup);
        CountCallsOfThree(ExecuteBatch, CollectTiming(elapsed, context), release, IsCleanup);
    } else {
      CountCallsOfTwo(CreateStatement, Cleanup(ledger), IsCleanup);
    }
  }

  // ----- Batches rewritten by the colon-prefix rewriter -----

  /** The colon-prefix rewriter as a statement rewriter: the SQL of the parsed template. */
  function ColonPrefixRewriter(sql: string, binding: Binding, context: Attributes): (r: Result<string, ColonPrefixSql.TemplateError>)
    ensures r.Success? <==> ColonPrefixSql.Parse(sql).Success?
    ensures r.Success? ==> r.value == ColonPrefixSql.Parse(sql).value.sql
    ensures r.Failure? ==> r.error == ColonPrefixSql.Parse(sql).error
    ensures ':' !in sql ==> r == Success(sql)
    ensures r.Failure? ==> r.error.offset < |sql| && sql[r.error.offset] == ':'
  {
    match ColonPrefixSql.Parse(sql)
    case Success(parsed) =>
      assert ':' !in sql ==> parsed.sql == sql by {
        if ':' !in sql { ColonPrefixSql.PassThrough(sql); }
      }
      Success(parsed.sql)
    case Failure(e) =>
      assert ':' in sql by {
        if ':' !in sql { ColonPrefixSql.PassThrough(sql); }
      }
      Failure(e)
  }

  /**
   * With the colon-prefix rewriter, a part without parameter syntax is never
   * rejected, and every part that reaches `addBatch` reaches it exactly as it
   * was queued, whether or not the loop runs to the end.
   */
  lemma ColonFreePartsPassThrough(parts: seq<string>, conn: Connection, context: Attributes)
    requires forall i :: 0 <= i < |parts| ==> ':' !in parts[i]
    ensures var c := Configure(parts, ColonPrefixRewriter, conn, context);
      && !(c.ConfigureFailed? && c.exception.RewriteFailed?)
      && c.added == parts[..|c.added|]
  {
    var c := Configure(parts, ColonPrefixRewriter, conn, context);
    forall i | 0 <= i < |parts|
      ensures ColonPrefixRewriter(parts[i], EmptyBinding, context) == Success(parts[i])
    {
      ColonPrefixSql.PassThrough(parts[i]);
    }
    assert forall i :: 0 <= i < |c.added| ==> c.added[i] == parts[i];
  }
}
