# ZeeQL3Apache APR adaptor, modelled in Dafny

This project models the adaptor that connects ZeeQL's SQL expressions and adaptor rows to the Apache
Portable Runtime database API (`apr_dbd`). It covers these parts:

- **Channel (`APRAdaptorChannel`).** The transaction state machine with its counters. Whether the
  channel owns its pool and connection. The `fetchRows` pull loop and cell decoding (`valueIn`,
  `aprRawGet`, the external-type and value-type tables). The error wrapping of `querySQL`. Turning
  binds into text arguments. Routing of query and update expressions to the plain or the prepared
  path.
- **Expressions (`APRSQLExpression`).** Bind variables with `apr_dbd` placeholders and their names.
  `APRPostgreSQLExpression`'s `INSERT ... RETURNING`, its `SERIAL` column type and `ILIKE`.
- **PostgreSQL adaptor.** The `key=value` connect string and the insert-with-RETURNING, which must
  get exactly one record back.
- **SQLite3 channel.** The `insertRow` sequence: insert, recover the key with `last_insert_rowid()`,
  optionally refetch, all inside a transaction the call owns when none was open.
- **`ApacheRequestAdaptor`.** The request-local FIFO pool of at most four channels. Dispatch on the
  driver name. The expression factory, which is set only once.

The driver is the datatype `Dbd.Driver`, which holds one function per `apr_dbd` call. Each function
answers with status codes, messages, result cursors and cells. A cursor (`Dbd.Cursor`) is a sequence
of `get_row` answers, `Row(cells)` or `Fail(rc, message)`. It always ends in a non-zero status.

A caller's callback that captures mutable state becomes a fold, `(S, Record) -> Result<S, Error>`.
This covers the `rec` variable of both insert strategies and `lastRowId` of the SQLite3 key query.
ZeeQL code that the adaptor calls but does not define is the datatype `Upstream.Hooks` of
uninterpreted functions: statement builders, `primaryKeyForRow`, quoting, the typed select's integer
conversion and `asAdaptorRow`.

Statement builders hand back a list of pieces, literal text and values to bind. `SQLExpression.Assemble`
turns each bound piece into a bind through `bindVariableDictionary` and writes that bind's placeholder
into the text. So the binds and the placeholders in the text are built in lockstep.

Imperative code is modelled imperatively, with a specification function beside it:

- `Channel.AdaptorChannel` is a class whose `Begin`, `Commit`, `Rollback`, `EndTransaction`, `Close`
  and `Deinit` update its fields.
- `FetchRows` is the `while true` loop over the cursor.
- `CStringsForBindVariables` fills an array.
- `SQLExpression.Expression` collects the RETURNING select list in a loop.
- `ApacheRequest.RequestAdaptor` changes its pool and factory fields in place.

Each method is proved equal to a function (`BeginT`, `Fetch`, `InsertT`, ...). The properties are
proved about those functions.

Where the code behaves in ways a caller might not expect, the model follows the code:

- **PostgreSQL, second returned record.** The callback throws `FailedToRefetchInsertedRow` inside
  `evaluateQueryExpression`, which wraps every fetch error. So the caller gets
  `QueryFailed(sql, FailedToRefetchInsertedRow)`. Only "no record" gives a bare
  `FailedToRefetchInsertedRow`.
- **PostgreSQL, no entity.** `prepareInsertReturningExpressionWithRow` returns early, so the
  statement stays empty and that empty statement is run. Nothing falls back to a `*` list.
- **SQLite3, several integers from the key query.** Several records do not make key recovery fail.
  The callback keeps the last integer it sees; the query has `LIMIT 1`.
- **End of data.** It is recognised by the driver message, as the code does it: rc -1 with `""` or
  `"not an error"`.
- **Commit and rollback with no open transaction.** They do not throw, and they still raise their
  counter.

## Model

| member | source | states |
|---|---|---|
| Text.Upper | Sources/APRAdaptor/APRAdaptorChannel.swift:634 | `uppercased()` keeps the length and maps each character to its upper case (ASCII letters). |
| Text.UpperFixesUpper | Sources/APRAdaptor/APRAdaptorChannel.swift:634 | Upper-casing is idempotent and leaves upper-case text alone. |
| Text.UpperKeepsUpperPrefix | Sources/APRAdaptor/APRAdaptorChannel.swift:634-638 | An upper-case name that starts a type string still starts it after upper-casing, so `varchar(255)` hits the VARCHAR row. |
| Text.NatDigits | Sources/APRAdaptor/APRSQLExpression.swift:87 | The decimal form of a count is non-empty, all digits, with no leading zero. |
| Text.Decimal | Sources/APRAdaptor/APRAdaptorChannel.swift:408 | The decimal form of an integer is non-empty and starts with a digit exactly when the number is not negative. |
| Text.NatDigitsValue | Sources/APRAdaptor/APRSQLExpression.swift:87 | Reading back the digits of a natural number gives the number. |
| Text.DecimalRoundTrip | Sources/APRAdaptor/APRAdaptorChannel.swift:407-411 | `String(value)` of an integer reads back as the same integer. |
| Text.DecimalInjective | Sources/APRAdaptor/APRSQLExpression.swift:86-90 | Two integers have the same decimal form exactly when they are equal. |
| Text.PrefixCancel | Sources/APRAdaptor/APRSQLExpression.swift:86-87 | Two names with the same stem are equal exactly when their suffixes are. |
| ZeeQL.Wrap | Sources/APRAdaptor/APRAdaptorChannel.swift:233-266 | What a C integer buffer of a given width holds: in range, unchanged when in range, and congruent to the raw value modulo 2^width. |
| ZeeQL.AttributesWithNames | Sources/APRAdaptor/APRPostgreSQLAdaptor.swift:100 | `attributesWithNames` gives no more attributes than names were asked for. Each one is the entity's and carries a requested name. Every requested name the entity has contributes its attribute. |
| ZeeQL.AttributeNamed | Sources/APRAdaptor/APRPostgreSQLAdaptor.swift:100 | The attribute found has the name and is the entity's; none is found only when no attribute has the name. |
| AprTypes.ValueTypeRoundTrip | Sources/APRAdaptor/APRAdaptorChannel.swift:578-631 | Each integer or floating Swift value type maps to the apr type whose accessor fills exactly that Swift type; only `String` maps to STRING; `Date` and other types map to nothing. |
| AprTypes.ValueTypeNeverTemporal | Sources/APRAdaptor/APRAdaptorChannel.swift:624-631 | The value-type table only yields integer, floating or STRING types. |
| AprTypes.ExternalTypeOrder | Sources/APRAdaptor/APRAdaptorChannel.swift:638-649 | Ordering of the prefix table: DATETIME before DATE, TIMESTAMP WITH before TIMESTAMP before TIME, and INTEGER maps to INT. |
| AprTypes.ExternalTypeExamples | Sources/APRAdaptor/APRAdaptorChannel.swift:633-662 | On concrete names: `INTEGER`, `VARCHAR(255)`, `TIMESTAMP WITH TIME ZONE`, `DATETIME`, lower-case `int`; `BOOLEAN` and a missing external type map to nil. |
| AprTypes.ExternalTypeTableSound | Sources/APRAdaptor/APRAdaptorChannel.swift:633-662 | The table misses exactly when the upper-cased type starts with none of its names. |
| AprTypes.VarcharIsString | Sources/APRAdaptor/APRAdaptorChannel.swift:638 | An attribute declared `VARCHAR(255)` maps to STRING. |
| AprTypes.Exclusive | Sources/APRAdaptor/APRAdaptorChannel.swift:638-649 | Two names differing at one position cannot both start the same type string. |
| ValueDecoder.Hint | Sources/APRAdaptor/APRAdaptorChannel.swift:221-222 | The external-type hint first, else the value-type hint, else none without an attribute. |
| ValueDecoder.RawGetInteger | Sources/APRAdaptor/APRAdaptorChannel.swift:205-211 | nil exactly on `APR_ENOENT`; otherwise an integer of the accessor's Swift type, within its range. |
| ValueDecoder.RawGetReal | Sources/APRAdaptor/APRAdaptorChannel.swift:268-278 | nil exactly on `APR_ENOENT`; otherwise a floating value of the accessor's type. |
| ValueDecoder.GetString | Sources/APRAdaptor/APRAdaptorChannel.swift:280-287 | nil on `APR_ENOENT` or a null C string, else the C string read. |
| ValueDecoder.StringFallback | Sources/APRAdaptor/APRAdaptorChannel.swift:310-325 | The code after the switch: nil on `APR_ENOENT`. A successful STRING read gives that string. Otherwise it gives `apr_dbd_get_entry`'s text, or nil when there is none. |
| ValueDecoder.ValueIn | Sources/APRAdaptor/APRAdaptorChannel.swift:214-326 | The NULL hint and an `APR_ENOENT` from the consulted accessor give nil; results are integers, floats or strings; integers are in range. |
| ValueDecoder.ExternalTypeTakesPrecedence | Sources/APRAdaptor/APRAdaptorChannel.swift:221-222 | A matching external type decides the hint whatever the value type. |
| ValueDecoder.UnhandledHintsFallBack | Sources/APRAdaptor/APRAdaptorChannel.swift:289-325 | No hint, NONE, temporal and LOB hints decode exactly as without an attribute: string accessor, then `get_entry`. |
| ValueDecoder.Unconverted | Sources/APRAdaptor/APRAdaptorChannel.swift:289-303 | Temporal and LOB types have no typed case of their own. |
| ValueDecoder.NullCellIsNil | Sources/APRAdaptor/APRAdaptorChannel.swift:205-326 | A NULL cell decodes to nil whatever the attribute, never to a zero value. |
| ValueDecoder.IntegerDecoding | Sources/APRAdaptor/APRAdaptorChannel.swift:233-266 | With an integer hint and a value present, the result is that value in the width of the hint's Swift type. |
| ValueDecoder.NoAttributeReadsString | Sources/APRAdaptor/APRAdaptorChannel.swift:310-317 | A column decoded without an attribute, which is every column of `querySQL(sql, nil)`, gives the string the STRING accessor reports with success. |
| ValueDecoder.NoAttributeFallsBackToEntry | Sources/APRAdaptor/APRAdaptorChannel.swift:310-325 | A column decoded without an attribute may neither read as NULL nor read a string with success. Then it gives `apr_dbd_get_entry`'s text, or nil when there is none. |
| ValueDecoder.EntryFallbackQuirk | Sources/APRAdaptor/APRAdaptorChannel.swift:316-325 | When the string accessor neither succeeds nor reports NULL, `get_entry`'s `""` comes back as the empty string. |
| ValueDecoder.VarcharReadsString | Sources/APRAdaptor/APRAdaptorChannel.swift:280-287 | A `VARCHAR(255)` column is read through the STRING accessor. |
| ValueDecoder.StringHintReadsString | Sources/APRAdaptor/APRAdaptorChannel.swift:280-287 | The STRING hint gives exactly what the string accessor gives. |
| ValueDecoder.VarcharHint | Sources/APRAdaptor/APRAdaptorChannel.swift:221-222 | The hint of a `VARCHAR(255)` attribute is STRING. |
| RowStream.ColumnName | Sources/APRAdaptor/APRAdaptorChannel.swift:175-180 | Without attributes, a column is named by the driver, else `col[i]`. |
| RowStream.StopIndex | Sources/APRAdaptor/APRAdaptorChannel.swift:146-158 | The loop stops at the first non-row answer, and every answer before it is a row. |
| RowStream.RecordsFrom | Sources/APRAdaptor/APRAdaptorChannel.swift:185-200 | One record per row up to the stop, the k-th being row k decoded. |
| RowStream.FetchFromIsFold | Sources/APRAdaptor/APRAdaptorChannel.swift:146-202 | From any cursor position, the fetch is the callback folded over the remaining rows, then the stop answer. |
| RowStream.FetchIsFold | Sources/APRAdaptor/APRAdaptorChannel.swift:146-202 | `fetchRows` calls the callback once per row in cursor order, stops at its first error, and then ends quietly only on end of data, else throws `APRDBDError`. |
| RowStream.RecordShape | Sources/APRAdaptor/APRAdaptorChannel.swift:160-200 | Each record has `colCount` values and the result's one schema; column k is decoded with `attrs[k]` only when k < attrs.count. |
| RowStream.NilMessageIsError | Sources/APRAdaptor/APRAdaptorChannel.swift:151-157 | rc -1 with a nil message throws `APRDBDError(-1, nil)`. |
| RowStream.QuietStopOnlyAtEndOfData | Sources/APRAdaptor/APRAdaptorChannel.swift:151-157 | With a callback that never throws, the fetch succeeds exactly when the cursor ends on the end-of-data signal. |
| RowStream.FoldNeverFails | Sources/APRAdaptor/APRAdaptorChannel.swift:201 | A callback that never throws never aborts the fold. |
| SQLExpression.BindVariableFor | Sources/APRAdaptor/APRSQLExpression.swift:23-95 | The bind keeps the given attribute and value; an attribute's bind pattern wins over the value. |
| SQLExpression.PlaceholderByValue | Sources/APRAdaptor/APRSQLExpression.swift:58-77 | Without a pattern: `%d` for Int and global ids, `%s` for strings, `%pDs` for dates, `%pDn` for nil, the default otherwise. |
| SQLExpression.BindNaming | Sources/APRAdaptor/APRSQLExpression.swift:81-92 | A qualifier variable's key; else `columnName ?? name` plus the count; else `NOATTR` plus the count. Different counts give different names. |
| SQLExpression.PatternMatchesDecoderTable | Sources/APRAdaptor/APRSQLExpression.swift:100-118 | On upper-case names the bind-pattern table gives the `apr_dbd` token of the type the decoder table gives. |
| SQLExpression.Heads | Sources/APRAdaptor/APRSQLExpression.swift:103-114 | The first letters of a string that one of the table's names starts. |
| SQLExpression.Assemble | Sources/APRAdaptor/APRSQLExpression.swift:87 | One new bind per bound piece, appended after the binds already held. |
| SQLExpression.BoundParts | Sources/APRAdaptor/APRSQLExpression.swift:23-29 | The bound pieces, in order. |
| SQLExpression.Placeholders | Sources/APRAdaptor/APRSQLExpression.swift:56-76 | One placeholder per bind. |
| SQLExpression.AssembleBinds | Sources/APRAdaptor/APRSQLExpression.swift:81-92 | The k-th new bind is built from the k-th bound piece with the number of binds before it as its count. |
| SQLExpression.AssembleText | Sources/APRAdaptor/APRSQLExpression.swift:55-77 | The k-th placeholder in the text is the k-th new bind's placeholder. |
| SQLExpression.DialectOf | Sources/APRAdaptor/APRPostgreSQLAdaptor.swift:129-131 | The PostgreSQL factory creates PostgreSQL expressions, the APR factory APR ones. |
| SQLExpression.CaseInsensitiveLike | Sources/APRAdaptor/APRPostgreSQLAdaptor.swift:148-150 | `ILIKE` for PostgreSQL, the base operator otherwise. |
| SQLExpression.ColumnTypeString | Sources/APRAdaptor/APRPostgreSQLAdaptor.swift:195-202 | `SERIAL` for a PostgreSQL auto-increment attribute, the base type otherwise. |
| SQLExpression.Expression.constructor | Sources/APRAdaptor/APRSQLExpression.swift:16-18 | `createExpression`: an empty expression of the factory's dialect for the entity. |
| SQLExpression.Expression.PrepareInsertExpressionWithRow | Sources/APRAdaptor/APRPostgreSQLAdaptor.swift:188 | The statement becomes the INSERT text, with its binds appended in lockstep. |
| SQLExpression.Expression.PrepareInsertReturningExpressionWithRow | Sources/APRAdaptor/APRPostgreSQLAdaptor.swift:155-193 | Unchanged without an entity; else the INSERT plus ` RETURNING ` plus `*` or the select list of attrs, aliases off, list emptied before the INSERT. |
| SQLExpression.VarcharValueBindsAsString | Tests/APRAdaptorTests/APRSQLExpressionTests.swift:58-66 | A `VARCHAR(255)` value such as "Zealandia" gives exactly one `%s` bind carrying the string. |
| Channel.ModelFetcherFor | Sources/APRAdaptor/APRSQLite3Adaptor.swift:51-67 | Only the generic channel has no reflection helper; the SQLite3 channel uses the SQLite3 one. |
| Channel.Describe | Sources/APRAdaptor/APRAdaptorChannel.swift:535-546 | The generic channel throws `AdaptorChannelError.NotImplemented` (`ChannelNotImplemented`) with the operation name; the subclasses delegate. |
| Channel.EndT | Sources/APRAdaptor/APRAdaptorChannel.swift:95-111 | No handle is left afterwards; idle and mode mismatch do not throw; it throws exactly when the mode was set and `transaction_end` failed. |
| Channel.BeginRules | Sources/APRAdaptor/APRAdaptorChannel.swift:77-84 | With a transaction open it throws `TransactionInProgress` and changes nothing; success exactly when idle and the driver succeeds, setting the handle and adding one to `txBeginCount`. |
| Channel.BeginTwiceFails | Sources/APRAdaptor/APRAdaptorChannel.swift:78 | A second begin right after a successful one throws `TransactionInProgress`. |
| Channel.EndRules | Sources/APRAdaptor/APRAdaptorChannel.swift:86-96 | Commit and rollback always leave no handle; with none open they do not throw and still raise their counter. |
| Channel.CountersAlongRun | Sources/APRAdaptor/APRAdaptorChannel.swift:77-93 | Over any sequence of calls, each of the begin, commit and rollback counters rises by exactly the number of its calls that did not throw. |
| Channel.PerformSQL | Sources/APRAdaptor/APRAdaptorChannel.swift:117-124 | Throws `APRDBDError` exactly when `apr_dbd_query` fails, else returns the affected count. |
| Channel.QuerySQLOutcome | Sources/APRAdaptor/APRAdaptorChannel.swift:329-354 | A failed select throws `QueryFailed(sql, APRError(rc))`; otherwise the rows are folded and any error comes out wrapped in `QueryFailed(sql:)`. |
| Channel.QuerySQLLosesSelectStatus | Sources/APRAdaptor/APRAdaptorChannel.swift:336-345 | As written, a select failing with status 1 is reported as `APRError(0)`. |
| Channel.BindArguments | Sources/APRAdaptor/APRAdaptorChannel.swift:399-420 | One text argument per bind, in bind order: argument k is the text of bind k's value. |
| Channel.BindArgumentRules | Sources/APRAdaptor/APRAdaptorChannel.swift:403-416 | nil gives `""`; a string passes verbatim; a global id or integer gives a decimal that reads back as the same number. |
| Channel.EvaluateQueryExpression | Sources/APRAdaptor/APRAdaptorChannel.swift:434-485 | No binds routes to `querySQL`; a pool or prepare failure throws `APRError` with that status. |
| Channel.EvaluateUpdateExpression | Sources/APRAdaptor/APRAdaptorChannel.swift:496-530 | No binds routes to `performSQL`; pool and prepare failures throw; success returns the pquery count. |
| Channel.PreparedFailureLosesStatus | Sources/APRAdaptor/APRAdaptorChannel.swift:471-475 | As written, a pselect or pquery failing with 1 is reported as `APRError(0)`. |
| Channel.PreparedSelectStreams | Sources/APRAdaptor/APRAdaptorChannel.swift:458-485 | A prepared select passes one text argument per bind and then streams exactly as `querySQL` does. |
| Channel.EvaluateQueryUsesCursor | Sources/APRAdaptor/APRAdaptorChannel.swift:441-485 | Either a driver call before the fetch fails and the callback plays no part, or the cursor is streamed with errors wrapped. |
| Channel.OneRecordFold | Sources/APRAdaptor/APRPostgreSQLAdaptor.swift:106-116 | The single-record callback folds no records to nil, one to that record, two or more to `FailedToRefetchInsertedRow`. |
| Channel.OneRecordFetch | Sources/APRAdaptor/APRPostgreSQLAdaptor.swift:106-118 | Over a cursor: exactly one record plus end of data gives that record. No record gives nil. A second record gives the wrapped error. |
| Channel.AdaptorChannel.constructor | Sources/APRAdaptor/APRAdaptorChannel.swift:42-58 | The channel starts with no transaction, zero counters and the given ownership flags. |
| Channel.AdaptorChannel.Close | Sources/APRAdaptor/APRAdaptorChannel.swift:64-68 | Closes the connection only when the channel owns it. |
| Channel.AdaptorChannel.Deinit | Sources/APRAdaptor/APRAdaptorChannel.swift:60-62 | Destroys the pool only when the channel owns it. |
| Channel.AdaptorChannel.Begin | Sources/APRAdaptor/APRAdaptorChannel.swift:77-84 | Updates handle and counters as `BeginT`. |
| Channel.AdaptorChannel.EndTransaction | Sources/APRAdaptor/APRAdaptorChannel.swift:95-111 | Updates the handle as `EndT`, counters untouched. |
| Channel.AdaptorChannel.Commit | Sources/APRAdaptor/APRAdaptorChannel.swift:86-89 | Updates handle and counters as `CommitT`. |
| Channel.AdaptorChannel.Rollback | Sources/APRAdaptor/APRAdaptorChannel.swift:90-93 | Updates handle and counters as `RollbackT`. |
| Channel.AdaptorChannel.FetchRows | Sources/APRAdaptor/APRAdaptorChannel.swift:129-203 | The pull loop computes exactly `Fetch`, whose properties are `FetchIsFold` and `RecordShape`. |
| Channel.AdaptorChannel.CStringsForBindVariables | Sources/APRAdaptor/APRAdaptorChannel.swift:382-423 | nil for no binds, else a new array holding `BindArguments(binds)`. |
| PostgreSQL.ConnectString | Sources/APRAdaptor/APRPostgreSQLAdaptor.swift:20-26 | The `s +=` sequence builds exactly the rendering of the present parameters. |
| PostgreSQL.RenderSnoc | Sources/APRAdaptor/APRPostgreSQLAdaptor.swift:20-26 | Rendering one more parameter appends its ` key=value` fragment. |
| PostgreSQL.RenderOpt | Sources/APRAdaptor/APRPostgreSQLAdaptor.swift:21-25 | A left-out parameter adds nothing, a present one its fragment. |
| PostgreSQL.IndexOf | Sources/APRAdaptor/APRPostgreSQLAdaptor.swift:21-25 | The first position of a character, or the length. |
| PostgreSQL.IndexOfPrefix | Sources/APRAdaptor/APRPostgreSQLAdaptor.swift:21-25 | The first `=` or space is right after a key or value that contains none. |
| PostgreSQL.ParseFragment | Sources/APRAdaptor/APRPostgreSQLAdaptor.swift:21-25 | A ` key=value` fragment whose key holds no `=` and whose value holds no space reads back as that pair, followed by whatever comes after it. |
| PostgreSQL.ParseRender | Sources/APRAdaptor/APRPostgreSQLAdaptor.swift:20-26 | Reading back a rendered list gives the list when no key holds `=` and no value a space. |
| PostgreSQL.ConnectStringParams | Sources/APRAdaptor/APRPostgreSQLAdaptor.swift:20-26 | The connect string holds exactly the non-empty parameters, and the port only when positive, in the order host, port, dbname, user, password. |
| PostgreSQL.DecimalHasNoSpace | Sources/APRAdaptor/APRPostgreSQLAdaptor.swift:22 | A rendered port contains no space. |
| PostgreSQL.DefaultPort | Sources/APRAdaptor/APRPostgreSQLAdaptor.swift:16 | The default port renders as `5432`. |
| PostgreSQL.DefaultParamsPresent | Sources/APRAdaptor/APRPostgreSQLAdaptor.swift:16-18 | The defaults give host, port, dbname and user, and no password. |
| PostgreSQL.DefaultParamsRendered | Sources/APRAdaptor/APRPostgreSQLAdaptor.swift:20-26 | Those four render as ` host=127.0.0.1 port=5432 dbname=postgres user=postgres`. |
| PostgreSQL.DefaultConnectString | Sources/APRAdaptor/APRPostgreSQLAdaptor.swift:16-26 | The default arguments give ` host=127.0.0.1 port=5432 dbname=postgres user=postgres`. |
| PostgreSQL.PostgreSQLAdaptor.constructor | Sources/APRAdaptor/APRPostgreSQLAdaptor.swift:16-31 | `init` stores the connect string, the `pgsql` driver name and the PostgreSQL factory. |
| PostgreSQL.RefetchAttributes | Sources/APRAdaptor/APRPostgreSQLAdaptor.swift:91-101 | nil without an entity; all attributes with `refetchAll` or without primary-key names; else the primary-key attributes. |
| PostgreSQL.InsertRow | Sources/APRAdaptor/APRPostgreSQLAdaptor.swift:87-119 | The insert computes `InsertT`: the RETURNING statement run as a query with the single-record callback. |
| PostgreSQL.InsertRequiresExactlyOneRecord | Sources/APRAdaptor/APRPostgreSQLAdaptor.swift:106-118 | Success exactly when one record comes back and the cursor ends in end of data, and the result is that record as a row. None gives `FailedToRefetchInsertedRow`; a second gives it wrapped in `QueryFailed`. |
| SQLite3.LastRowIdFold | Sources/APRAdaptor/APRSQLite3Adaptor.swift:109-113 | The key callback ends with the integer of the last record that has one, or nil when none has. |
| SQLite3.PrimaryKey | Sources/APRAdaptor/APRSQLite3Adaptor.swift:99-122 | A non-empty key from the row is used as-is. Else, for one key name, the key query decides: its error propagates, and the key has exactly that name. Any other cardinality throws `FailedToGrabNewPrimaryKey`. A key is never empty. |
| SQLite3.KeyFromLastRowId | Sources/APRAdaptor/APRSQLite3Adaptor.swift:104-119 | When the key query streams to end of data: no integer throws `FailedToGrabNewPrimaryKey`. Otherwise the key maps the one name to the last integer delivered. |
| SQLite3.RefetchRequiresExactlyOneRecord | Sources/APRAdaptor/APRSQLite3Adaptor.swift:124-143 | The refetch succeeds exactly with one record and end of data; zero throws `FailedToRefetchInsertedRow`, two throw it wrapped in `QueryFailed`. |
| SQLite3.InsertCore | Sources/APRAdaptor/APRSQLite3Adaptor.swift:93-153 | An update error propagates and a count other than 1 throws `OperationDidNotAffectOne`. Without an entity the row is returned. Otherwise the key is returned, or the refetched row with `refetchAll`. |
| SQLite3.InsertT | Sources/APRAdaptor/APRSQLite3Adaptor.swift:72-162 | See the list after the table. |
| SQLite3.InsertRow | Sources/APRAdaptor/APRSQLite3Adaptor.swift:72-162 | The method with `didOpenTx` drives the channel's begin, commit and rollback exactly as `InsertT`. |
| ApacheRequest.Released | Sources/ApacheZeeQLAdaptor/ApacheRequestAdaptor.swift:186-192 | Release appends when the pool holds fewer than 4 and leaves a full pool unchanged. |
| ApacheRequest.ReleaseKeepsBound | Sources/ApacheZeeQLAdaptor/ApacheRequestAdaptor.swift:174-192 | Releasing never takes the pool past 4 and never drops a pooled channel. |
| ApacheRequest.ReleasedAllKeepsFirst | Sources/ApacheZeeQLAdaptor/ApacheRequestAdaptor.swift:186-192 | Channels released in turn are pooled in release order until the pool is full, and the rest are dropped. |
| ApacheRequest.ReleasedComesOutLast | Sources/ApacheZeeQLAdaptor/ApacheRequestAdaptor.swift:180-191 | A released channel goes behind every channel already pooled. |
| ApacheRequest.TakeAndReleaseRotates | Sources/ApacheZeeQLAdaptor/ApacheRequestAdaptor.swift:141-142 | Taking the oldest channel and releasing it puts it at the back. |
| ApacheRequest.OpenFailureOf | Sources/ApacheZeeQLAdaptor/ApacheRequestAdaptor.swift:91-107 | The five guards in order: missing acquire, acquire failure, no pool, no handle, no driver. |
| ApacheRequest.KindForDriverName | Sources/ApacheZeeQLAdaptor/ApacheRequestAdaptor.swift:108-134 | `sqlite3` gives the SQLite3 channel, `pgsql` the PostgreSQL one, anything else or no name the generic one. |
| ApacheRequest.FactoryForKind | Sources/ApacheZeeQLAdaptor/ApacheRequestAdaptor.swift:110-130 | Only the PostgreSQL dispatch installs the PostgreSQL factory. |
| ApacheRequest.FactoryAfter | Sources/ApacheZeeQLAdaptor/ApacheRequestAdaptor.swift:110-131 | The factory is set only while nil, and is set afterwards. |
| ApacheRequest.FirstDispatchWins | Sources/ApacheZeeQLAdaptor/ApacheRequestAdaptor.swift:110-131 | After the first dispatch no later dispatch changes the factory. |
| ApacheRequest.FirstDispatchSticks | Sources/ApacheZeeQLAdaptor/ApacheRequestAdaptor.swift:110-131 | A factory once set survives any sequence of dispatches. |
| ApacheRequest.RequestAdaptor.constructor | Sources/ApacheZeeQLAdaptor/ApacheRequestAdaptor.swift:69-78 | The adaptor starts with an empty pool and no factory. |
| ApacheRequest.RequestAdaptor.Init | Sources/ApacheZeeQLAdaptor/ApacheRequestAdaptor.swift:69-78 | `init` throws `MissingAcquireModDBDNotAvailable` exactly when `ap_dbd_acquire` is missing. |
| ApacheRequest.RequestAdaptor.ExpressionFactory | Sources/ApacheZeeQLAdaptor/ApacheRequestAdaptor.swift:63-66 | The getter defaults to the APR factory. |
| ApacheRequest.RequestAdaptor.PrimaryOpenChannel | Sources/ApacheZeeQLAdaptor/ApacheRequestAdaptor.swift:90-135 | Throws `CouldNotOpenChannel` with the first failing guard. Otherwise it returns a new channel of the dispatched class. The channel does not own the pool or the connection, and carries the factory as set once. |
| ApacheRequest.RequestAdaptor.OpenChannelFromPool | Sources/ApacheZeeQLAdaptor/ApacheRequestAdaptor.swift:180-184 | Removes and returns the oldest pooled channel with the factory unchanged. Only an empty pool opens a new channel, exactly as `primaryOpenChannel` does: the first failing guard, or a fresh borrowed channel of the dispatched class on the request's driver. That channel carries the factory as set once, has no transaction and has zero counters. |
| ApacheRequest.RequestAdaptor.ReleaseChannel | Sources/ApacheZeeQLAdaptor/ApacheRequestAdaptor.swift:186-192 | The pool becomes `Released(pool, channel)`, and the bound is kept. |
| ApacheRequest.RequestAdaptor.FetchModel | Sources/ApacheZeeQLAdaptor/ApacheRequestAdaptor.swift:140-169 | Takes a channel, dispatches on its class as `FetchDispatch` does, and gives it back. A failed open releases nothing. A pooled channel or a failed open leaves the expression factory alone. A fresh open sets it only while unset (first dispatch wins), and that channel is what goes into the pool. |
| ApacheRequest.FetchDispatch | Sources/ApacheZeeQLAdaptor/ApacheRequestAdaptor.swift:145-153 | The channel's reflection helper; a generic channel throws `AdaptorError.NotImplemented` (`AdaptorNotImplemented`) with the operation name. |
| ApacheRequest.FetchFailureIsAdaptorError | Sources/ApacheZeeQLAdaptor/ApacheRequestAdaptor.swift:152 | A generic channel's `fetchModel` error is the adaptor's `NotImplemented`, distinct from the channel's `describe*` error. |

`SQLite3.InsertT` states:

- `refetchAll` without an entity throws `InsertRefetchRequiresEntity` and changes nothing.
- A transaction already in progress is neither committed nor rolled back.
- A failed begin is thrown.
- A transaction the call opened is afterwards always closed.
- The call succeeds exactly when the body and the commit succeed.
- A body error is rethrown unchanged after a rollback whose own error is ignored, and there is no commit.
- On success there is a commit and no rollback.

## Left out

- All `apr_*` plumbing is left out: pool creation and destruction, driver loading, `apr_dbd_open`,
  `apr_palloc`, `apr_pstrdup` and `apr_dbd_escape`, plus `escape(string:)` and `message(for:)`.
  What remains is the pool status and the driver's message for an error code, both as fields of `Dbd.Driver`.
- The Swift errors (ZeeQL's `AdaptorError` and `AdaptorChannelError`, `ApacheRequestAdaptor.Error`, the `APRError` and `APRDBDError` structs and the callbacks' own errors) are merged into the one datatype `ZeeQL.Error`. Their cases keep distinct constructors, and the two `NotImplemented` cases are `AdaptorNotImplemented` and `ChannelNotImplemented`. What is lost is only which Swift type a `catch` pattern would match.
- Driver state is not modelled. Each driver answer depends only on its arguments, so the model
  cannot say that `last_insert_rowid()` reflects the preceding INSERT, or that a cursor is consumed.
- `cStringsForBindVariables` returning nil when `apr_palloc` fails is left out; allocation is
  taken to succeed.
- Floating-point and temporal values are opaque: only a `description` is kept. `String(describing:)`
  of such a value is that description.
- `Statistics.openedAt` and `age` are left out because they read the wall clock.
- Logging (`logSQL`, `log.log`) and assertion failures are left out.
- `Text.Upper` upper-cases ASCII letters only; Swift's Unicode case mapping is left out.
- Counters are unbounded naturals; Swift `Int` overflow of the statistics is left out.
- `fetchRows` has an attribute-`columnName` branch when it builds names (APRAdaptorChannel.swift:170-174). It is unreachable, because a schema already exists whenever attributes are given, so `AdaptorChannel.FetchRows` does not contain it.
- What the reflection helpers (`SQLite3ModelFetch`, `PostgreSQLModelFetch`) do is left out. The model
  only says which helper a call goes to.
- The generic `defaultInsertRow` of the base channel is upstream ZeeQL code and is left out.
- `APRAdaptor` (driver loading, `openChannel`, its no-op `releaseChannel`, its `fetchModel`) is left
  out, along with the adaptors' own `fetchModel`/`fetchModelTag` overrides and
  `primaryCreateChannel`. Only its driver-name constants are used.
- The schema-synchronisation capability flags are constant and are left out.
- Upstream ZeeQL code is uninterpreted (`Upstream.Hooks`). The model makes these assumptions about it:
  - The typed `select` runs `querySQL(sql, nil)` and skips a record that converts to no integer.
  - `selectAttributes` with a fetch specification runs `evaluateQueryExpression` with the entity's attributes.
  - `insertStatementForRow` builds a fresh expression from the INSERT pieces.
  - A fresh bind carries a default placeholder (`Hooks.unsetPlaceholder`).
- `ApacheRequest.Env`: the acquire function gives the same connection on every call of a request;
  `mod_dbd`'s own pooling is left out.
- `PostgreSQL.InsertRow` and `SQLite3.InsertRow` take the channel's driver for every call. The choice
  of expression factory for the SQLite3 INSERT does not matter for the upstream pieces, so it is not
  modelled.
- PostgreSQL.InsertT: a failing `apr_dbd_pselect`, or `apr_dbd_select` for a statement with no binds, is reported with its own status, as in the corrected `Channel.EvaluateQueryExpression`. The code as written reports 0 there (see Findings).
- PostgreSQL.InsertRow: computes `PostgreSQL.InsertT`, so a failing pselect, or select with no binds, is likewise reported with its own status, not 0.
- SQLite3.PrimaryKey: a failing key query's select is reported as `QueryFailed(sql, APRError(rc))` with the select's own status. The code as written reports 0 (see Findings).
- SQLite3.Refetch: a failing refetch pselect, or `apr_dbd_select` with no binds, is reported with its own status; the code as written reports 0 (see Findings).
- SQLite3.InsertCore: a failing INSERT pquery, key-query select, or refetch pselect (its select with no binds) is reported with the driver call's own status. The code as written reports 0 (see Findings).
- SQLite3.InsertT: inherits the corrected statuses of `SQLite3.InsertCore`. The code as written reports 0 for a failing pquery, select or pselect, and for the refetch's select when it has no binds.
- SQLite3.InsertRow: computes `SQLite3.InsertT`, so it reports the same corrected statuses.
- Channel.QuerySQL: the function itself carries no contract; what it promises is stated by
  `Channel.QuerySQLOutcome` and `Channel.EvaluateQueryUsesCursor`.

## Findings

| source | as written | input that shows it | evidently intended | confidence | as-written member | corrected member |
|---|---|---|---|---|---|---|
| Sources/APRAdaptor/APRAdaptorChannel.swift:343-345 | a failed `apr_dbd_select` throws `QueryFailed(sql, APRError(status))`, where `status` is the pool creation's status, always `APR_SUCCESS` there | pool created, `apr_dbd_select` returns 1: the error reports code 0 | report the select's own status `rc` | not executed | Channel.QuerySQLAsWritten | Channel.QuerySQL |
| Sources/APRAdaptor/APRAdaptorChannel.swift:471-475 | a failed `apr_dbd_pselect` throws `APRError(rc)`, where `rc` is the prepare's status, always 0 there | prepare succeeds, `apr_dbd_pselect` returns 1: the error reports code 0 | report `rc2`, the pselect's status | not executed | Channel.EvaluateQueryExpressionAsWritten | Channel.EvaluateQueryExpression |
| Sources/APRAdaptor/APRAdaptorChannel.swift:524-527 | a failed `apr_dbd_pquery` throws `APRError(rc)`, the prepare's status, always 0 there | prepare succeeds, `apr_dbd_pquery` returns 1: the error reports code 0 | report `rc2`, the pquery's status | not executed | Channel.EvaluateUpdateExpressionAsWritten | Channel.EvaluateUpdateExpression |

`Channel.QuerySQLLosesSelectStatus` and `Channel.PreparedFailureLosesStatus` prove the discrepancy on
those inputs for both versions. The rest of the model uses the corrected functions.
