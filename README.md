# Batch execution and colon-prefix template rewriting

A Dafny model of two linked pieces of jdbi's statement layer:

- **`Batch`**, the statement that queues raw SQL strings and sends them to the
  database in one native JDBC batch. `add` queues a part and `define` sets a
  context attribute. `execute()` works as follows:
  - it returns an empty array at once for an empty batch;
  - otherwise it creates one JDBC statement and registers it for cleanup;
  - it rewrites every part with an empty binding and adds it to the native batch, in insertion order;
  - it runs the batch once and reports the elapsed time to the timing collector once;
  - each failing phase becomes its own exception;
  - it always runs `cleanup()` on the way out.
- **The colon-prefix template rewriter**, as the `parser.parse(src, ctx).getSql()` calls of
  `TestEscapedCharacters` exercise it:
  - a named parameter `:name` becomes the positional marker `?`, and its name is remembered;
  - the escape `\:` becomes a literal `:`;
  - a colon that starts neither, wherever it stands, is rejected as a malformed parameter at its own offset (a choice of this model, see "## Left out");
  - every other character, a lone `\` or a `?` included, is copied unchanged and in order.

Modules:

- `Wrappers` (`wrappers.dfy`): `Option` and `Result`.
- `ColonPrefixSql` (`colon_prefix.dfy`): the rewriter, in two pure functions.
  - `Lex` cuts a template into text runs, escaped colons and parameter references.
  - `Parse` renders those segments as the driver-ready SQL and the ordered parameter names.
  - Lemmas give one step of the scan, the three templates of the test, and general properties (pass-through, losslessness, marker counts).
- `BatchSemantics` (`batch_semantics.dfy`): what `execute()` does, as functions of the queued parts and of what the collaborators answer.
  - The collaborators are the JDBC connection and its statement (`Connection`), and the statement rewriter (`Rewriter`).
  - Every call the batch makes on them is recorded as a `Call`: creating the statement, registering it, `addBatch`, `executeBatch`, timing collection, cleanup. This makes ordering and "exactly once" statable.
  - `Configure` is the `addBatch` loop. `Execution` is the whole of `execute()`.
  - The lemmas state the success shape, the failure phases, timing and cleanup.
- `BatchStatement` (`batch.dfy`): the `Batch` class itself.
  - Its fields are the queued `parts`, the context attributes, the cleanup ledger `cleanables` and a ghost trace `calls`.
  - Its methods update them in place. `Execute` runs the `addBatch` loop with loop invariants.
  - It is proved to return `Execution(...).result` and to append exactly `Execution(...).calls` to the trace.

The model follows `Batch.java` as written. Two of its behaviours are easy to assume otherwise:

- A failed `addBatch` raises `UnableToExecuteStatementException` carrying the message
  "Unable to configure JDBC statement" (Batch.java line 113); there is no separate
  "unable to configure" exception type. The model's `UnableToExecuteStatement` has
  `message == Some(ConfigureFailureMessage)` in that case and `None` for a failed
  `executeBatch`.
- `execute()` does not empty the queue (Batch.java never clears `parts`), so
  `Execute` leaves `parts` unchanged and a second `Execute` sends the same parts again.

## Model

| member | source | states |
|---|---|---|
| `ColonPrefixSql.NameLength` | core/src/test/java/org/jdbi/v3/core/statement/TestEscapedCharacters.java:48-49 | a parameter name is the longest run of identifier characters after the colon: every character before the result is one, and the one at the result is not (so `:bar` stops at the backslash) |
| `ColonPrefixSql.Lex` | core/src/test/java/org/jdbi/v3/core/statement/TestEscapedCharacters.java:31-33 | a template is either cut into segments or rejected at a colon that is not followed by an identifier character, reported by its distance from the end of the template |
| `ColonPrefixSql.LexFailureNotEscaped` | core/src/test/java/org/jdbi/v3/core/statement/TestEscapedCharacters.java:46-50 | the colon a rejected template is reported at is never the second character of an escape `\:` |
| `ColonPrefixSql.LexWellFormed` | core/src/test/java/org/jdbi/v3/core/statement/TestEscapedCharacters.java:42-49 | every successful cut has non-empty identifier names, maximal colon-free text runs, and never a name character right after a parameter name |
| `ColonPrefixSql.LexLossless` | core/src/test/java/org/jdbi/v3/core/statement/TestEscapedCharacters.java:35-50 | concatenating the source text of the segments gives back the whole template, so nothing is dropped or reordered |
| `ColonPrefixSql.Render` | core/src/test/java/org/jdbi/v3/core/statement/TestEscapedCharacters.java:40-50 | the rewrite of a sequence of segments is never longer than their template text, records at most one name per segment, and leaves at least one output character per recorded name |
| `ColonPrefixSql.Parse` | core/src/test/java/org/jdbi/v3/core/statement/TestEscapedCharacters.java:31-33 | a rejected template is reported at the offset of the offending colon, which is neither preceded by a backslash nor followed by an identifier character |
| `ColonPrefixSql.ParseLiteral` | core/src/test/java/org/jdbi/v3/core/statement/TestEscapedCharacters.java:37 | a character that starts neither a parameter nor an escape is copied to the output, and the rest is rewritten independently |
| `ColonPrefixSql.ParseEscapedColon` | core/src/test/java/org/jdbi/v3/core/statement/TestEscapedCharacters.java:48-49 | `\:` yields exactly one literal `:` and no parameter name |
| `ColonPrefixSql.ParseNamedParameter` | core/src/test/java/org/jdbi/v3/core/statement/TestEscapedCharacters.java:42-43 | `:name` followed by a non-identifier character yields one `?` and records `name` once |
| `ColonPrefixSql.ParseBareColon` | core/src/test/java/org/jdbi/v3/core/statement/TestEscapedCharacters.java:31-33 | a template that starts with a colon followed by no identifier character is a malformed parameter at offset 0 |
| `ColonPrefixSql.ParsePlainText` | core/src/test/java/org/jdbi/v3/core/statement/TestEscapedCharacters.java:37 | a colon-free run is copied verbatim in front of the rewrite of what follows it, unless the run ends in `\` and what follows starts with `:` (then the two form an escape) |
| `ColonPrefixSql.PassThrough` | core/src/test/java/org/jdbi/v3/core/statement/TestEscapedCharacters.java:35-38 | every colon-free template is its own rewrite and has no parameters |
| `ColonPrefixSql.ParseAppend` | core/src/test/java/org/jdbi/v3/core/statement/TestEscapedCharacters.java:46-50 | the rewrite is compositional at every boundary no scan step straddles (`t` does not start with an identifier character, nor with a colon right after a `\` ending `a`): `a + t` fails where `a` fails, and otherwise rewrites to the rewrite of `a` followed by that of `t`, with `t`'s names after `a`'s and its failure offsets shifted by the length of `a` |
| `ColonPrefixSql.ParseEscapeAnywhere` | core/src/test/java/org/jdbi/v3/core/statement/TestEscapedCharacters.java:46-50 | an escape `\:` at any position yields exactly one literal `:` and no parameter name between the rewrites of what precedes and what follows it |
| `ColonPrefixSql.BareColonAnywhere` | core/src/test/java/org/jdbi/v3/core/statement/TestEscapedCharacters.java:31-33 | a colon at any position that is not escaped by a preceding `\` and is followed by no identifier character makes the template fail at that colon's offset, unless the text before it has already failed |
| `ColonPrefixSql.SimpleString` | core/src/test/java/org/jdbi/v3/core/statement/TestEscapedCharacters.java:35-38 | `hello, world` rewrites to itself |
| `ColonPrefixSql.SimpleSql` | core/src/test/java/org/jdbi/v3/core/statement/TestEscapedCharacters.java:40-44 | `insert into foo (xyz) values (:bar)` rewrites to `insert into foo (xyz) values (?)` with the one name `bar` |
| `ColonPrefixSql.EscapedCast` | core/src/test/java/org/jdbi/v3/core/statement/TestEscapedCharacters.java:48-49 | two escapes in a row before colon-free text give `::` and no parameter |
| `ColonPrefixSql.ParameterWithEscapedCast` | core/src/test/java/org/jdbi/v3/core/statement/TestEscapedCharacters.java:48-49 | for any colon-free tail and any colon-free head that does not end in `\`, `head:bar\:\:tail` rewrites to `head?::tail` with the one name `bar` |
| `ColonPrefixSql.EscapedSql` | core/src/test/java/org/jdbi/v3/core/statement/TestEscapedCharacters.java:46-50 | `insert into foo (xyz) values (:bar\:\:some_strange_type)` rewrites to `insert into foo (xyz) values (?::some_strange_type)` |
| `ColonPrefixSql.ParseCountsMarkers` | core/src/test/java/org/jdbi/v3/core/statement/TestEscapedCharacters.java:40-50 | each parameter consumes one colon and adds one `?`; all other colons (the escaped ones) survive |
| `ColonPrefixSql.PositionalMarkersMatchNames` | core/src/test/java/org/jdbi/v3/core/statement/TestEscapedCharacters.java:40-50 | in a template without a `?` of its own, the rewrite holds exactly one `?` per recorded parameter name |
| `ColonPrefixSql.ParameterNamesAreNames` | core/src/test/java/org/jdbi/v3/core/statement/TestEscapedCharacters.java:42-43 | every recorded parameter name is a non-empty identifier |
| `BatchSemantics.Configure` | core/src/main/java/org/jdbi/v3/Batch.java:102-114 | the fragments added are the parts rewritten with an empty binding, one per part and in order, each accepted by `addBatch`. The loop stops at the first rejected part, with the rewriter's error, or at the first failed `addBatch`, with "Unable to configure JDBC statement" and the driver's cause |
| `BatchSemantics.ConfigureFailureSticks` | core/src/main/java/org/jdbi/v3/Batch.java:104-114 | once a prefix of the parts fails to configure, the whole loop fails in exactly the same way |
| `BatchSemantics.ConfiguredIff` | core/src/main/java/org/jdbi/v3/Batch.java:102-114 | the loop configures every part if and only if every rewrite and every `addBatch` succeeds |
| `BatchSemantics.Execution` | core/src/main/java/org/jdbi/v3/Batch.java:79-135 | an empty batch makes no call at all; a non-empty one first creates the statement and makes cleanup its last call; a normal return of a non-empty batch implies the statement was created |
| `BatchSemantics.StatementRun` | core/src/main/java/org/jdbi/v3/Batch.java:93-134 | once the statement exists, it is registered for cleanup first, cleanup of the earlier ledger plus that statement is the last call, and a normal return has timing collected right before cleanup |
| `BatchSemantics.EmptyBatch` | core/src/main/java/org/jdbi/v3/Batch.java:81-84 | an empty batch returns an empty array and calls no collaborator: no statement, no cleanup registration, no timing |
| `BatchSemantics.SuccessfulExecution` | core/src/main/java/org/jdbi/v3/Batch.java:86-124 | for a non-empty batch that returns normally, the SQL handed to `addBatch` is each part rewritten with an empty binding, in insertion order. The result is what `executeBatch` returned for exactly those fragments, `executeBatch` is called exactly once, and timing is collected exactly once, right after `executeBatch` |
| `BatchSemantics.CreateFailure` | core/src/main/java/org/jdbi/v3/Batch.java:90-98 | a failed `createStatement` raises `UnableToCreateStatement` with the driver's cause and the context; no fragment is added, `executeBatch` is never called and no timing is collected |
| `BatchSemantics.ConfigureFailure` | core/src/main/java/org/jdbi/v3/Batch.java:102-114 | a failed configuration loop never calls `executeBatch` and collects no timing; the SQL it handed to `addBatch` is the earlier parts rewritten with an empty binding, in order, and no more than there are parts. A rejected part propagates the rewriter's error; a failed `addBatch` raises `UnableToExecuteStatement` with the configure message and the driver's cause |
| `BatchSemantics.ExecuteFailure` | core/src/main/java/org/jdbi/v3/Batch.java:116-130 | a failed `executeBatch` raises `UnableToExecuteStatement` without a message, after all fragments were added and `executeBatch` was called exactly once, and collects no timing |
| `BatchSemantics.TimingOnlyOnSuccess` | core/src/main/java/org/jdbi/v3/Batch.java:116-130 | for a non-empty batch, timing is collected at most once, and exactly when `execute()` returns normally |
| `BatchSemantics.CleanupExactlyOnce` | core/src/main/java/org/jdbi/v3/Batch.java:88-134 | a non-empty batch first creates the statement and registers it for cleanup right away. `cleanup()` runs exactly once, as the last call, on every path, and releases the earlier ledger plus that statement |
| `BatchSemantics.ColonPrefixRewriter` | core/src/main/java/org/jdbi/v3/Batch.java:106 | the statement rewriter built on the colon-prefix parser passes a colon-free part through unchanged, and a rejection it reports names a colon of the part; it succeeds exactly when the template parses, with the parsed SQL, and otherwise passes the parser's error on |
| `BatchSemantics.ColonFreePartsPassThrough` | core/src/main/java/org/jdbi/v3/Batch.java:104-109 | with the colon-prefix rewriter, a part without parameter syntax is never rejected, and every part handed to `addBatch`, whether or not the loop runs to the end, is handed over exactly as it was queued |
| `BatchStatement.Batch.constructor` | core/src/main/java/org/jdbi/v3/Batch.java:40-50 | a new batch has no parts, an empty ledger and the given rewriter, connection and context |
| `BatchStatement.Batch.Add` | core/src/main/java/org/jdbi/v3/Batch.java:58-62 | appends exactly `sql` after the earlier parts, changes nothing else and returns the same batch |
| `BatchStatement.Batch.Define` | core/src/main/java/org/jdbi/v3/Batch.java:69-72 | sets attribute `key` to `value`, keeps every other attribute and the parts, and returns the same batch |
| `BatchStatement.Batch.AddCleanable` | core/src/main/java/org/jdbi/v3/Batch.java:93 | appends the resource to the cleanup ledger |
| `BatchStatement.Batch.Cleanup` | core/src/main/java/org/jdbi/v3/Batch.java:132-134 | releases the whole ledger in one cleanup call and leaves it empty |
| `BatchStatement.Batch.ConfigureStatement` | core/src/main/java/org/jdbi/v3/Batch.java:102-114 | the loop's outcome is `Configure` of the parts, and the calls it makes are one `addBatch` per fragment it adds, in order |
| `BatchStatement.Batch.ExecuteTimed` | core/src/main/java/org/jdbi/v3/Batch.java:116-130 | calls `executeBatch` once; on failure raises `UnableToExecuteStatement` without a message; on success collects timing once and returns the counts |
| `BatchStatement.Batch.ExecuteOnStatement` | core/src/main/java/org/jdbi/v3/Batch.java:93-134 | once the statement exists, it registers it, configures, executes and cleans up exactly as `StatementRun` says, leaving the ledger empty |
| `BatchStatement.Batch.Execute` | core/src/main/java/org/jdbi/v3/Batch.java:79-135 | returns `Execution(...).result` and makes exactly the calls `Execution(...).calls`. It leaves the parts and the context unchanged, and leaves the ledger empty unless the batch was empty |

## Left out

- The source of `ColonPrefixSqlParser` is not part of this model. Its behaviour is modelled from the three templates of `TestEscapedCharacters`; the test does not pin the rest, and these are the model's own choices:
  - the identifier characters are ASCII letters, digits and `_`;
  - a colon followed by no identifier character is rejected as a malformed parameter.
- `ParseCountsMarkers`, `PositionalMarkersMatchNames`: a `?` already present in a template is copied as text and gets no entry in the parameter names, so `a = ? and b = :b` rewrites to `a = ? and b = ?` with the one name `b`. The model has no "positional placeholder" entries, so one name per positional marker holds only for templates without a `?` of their own.
- `PassThrough`, `ParsePlainText`, `ParseLiteral`: a `\` not followed by `:` is copied unchanged, so these also cover templates that contain such backslashes. The test pins only the escape `\:`.
- Quoted literals and comments are not modelled. The real parser copies colons inside them verbatim, and this model would read those colons as parameters or errors. `PassThrough` and `ParsePlainText` therefore hold only for colon-free text.
- The parsed statement's parameter list is modelled as the ordered names only. The statement context passed to `parse` is not modelled, because the rewrite does not depend on it here.
- JDBC `Connection` and `Statement` are modelled only as scripted answers (`Connection`): one outcome for `createStatement`, one per `addBatch(i, sql)`, and one for `executeBatch` of the fragments added. The driver's internals are not modelled.
- The result array is modelled as a sequence of unbounded integers; Java's 32-bit `int` width plays no role in the properties.
- `Cleanables.forStatement` and the internals of `BaseStatement.cleanup()` are not modelled; closing a statement is the ledger entry `CloseStatement`.
  - Exceptions that `cleanup()` itself, `addCleanable` or the timing collector could throw are not modelled.
- The rewriter's own failure is modelled as the colon-prefix `TemplateError` it reports. Java's other unchecked exceptions are not modelled.
- `System.nanoTime()` is replaced by the parameter `elapsed` of `Execute`, the measured duration of `executeBatch`.
- `LOG.trace` output is an observability side channel and is left out.
- `Foreman` and `ConcreteStatementContext` are reduced to the attribute map the batch reads and writes.
- `TestStream.java`, `KeyColumn.java`, `SqlScript.java`, `HStore.java` and `StringColumnMapper.java` are outside this model. They are an integration test against a live database, annotation declarations and a one-line JDBC wrapper.
