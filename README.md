# AlloyDB engine: configuration checks and schema statements

This project models the deterministic core of `AlloyDBEngine`, the connection manager of the
LangChain integration for AlloyDB for PostgreSQL, and proves properties of it in Dafny:

- **Configuration checks of `_create`.** User and password must both be given or both be absent. The
  `ip_type` selector is parsed. Basic or IAM database authentication is chosen. Under IAM the database
  user is the principal's e-mail with the service-account domain removed (`auth.dfy`).
- **Class-level connector.** `_create` installs it lazily. Engine instances hold the connection
  parameters and a log of the statements they send. `run_as_sync` refuses engines built without a
  background loop (`engine.dfy`).
- **Schema statements.** These are the exact text of the vector-store `CREATE TABLE` statement, its
  builder loop over the metadata columns, the ordered statements `init_vectorstore_table` issues, and
  the chat-history table (`ddl.dfy`).
- **String helpers** (`text.dfy`): lower-casing, `str.replace(p, "")` as a left-to-right removal
  pass, and the decimal text of an integer. `common.dfy` holds the errors and the Option/Result
  wrappers.

Identifiers in the DDL are wrapped in double quotes and not escaped. Two details of the code are
kept as written:

- E-mail normalisation removes every occurrence of `.gserviceaccount.com`, wherever it stands. It
  does not strip only a trailing domain suffix.
- A non-nullable metadata column puts `NOT NULL` directly after its type with no space
  (`TEXTNOT NULL`).

Two plausible properties of this code are false. The model proves the true statements instead:

- The normalised e-mail can still contain `.gserviceaccount.com`. Removal is a single left-to-right
  pass, so `"." + ".gserviceaccount.com" + "gserviceaccount.com"` becomes `.gserviceaccount.com`
  (`NormalisedEmailMayKeepDomain`). This is no practical defect, since real principal e-mails never
  have that shape. What does hold: an address without the domain is kept unchanged, and a service
  account's trailing domain is stripped.
- "The statement contains the JSON-column fragment iff `store_metadata`" does not hold as a
  substring claim. A metadata `Column("langchain_metadata", "JSON")` spells the same fragment. What
  holds is positional: right after the metadata fragments comes the JSON fragment and the end exactly
  when `store_metadata` is set (`JsonColumnIff`).

## Model

| member | source | states |
|---|---|---|
| `Auth.ParseIpType` | src/langchain_google_alloydb_pg/alloydb_engine.py:161-167 | an enum value passes through; a string gives `PUBLIC` iff it spells `public` in any letter case, `PRIVATE` iff it spells `private` in any letter case, and the ip-type error otherwise |
| `Text.LowerEqualsWord` | src/langchain_google_alloydb_pg/alloydb_engine.py:162-164 | comparing `s.lower()` with a lower-case word accepts exactly the mixed-case spellings of that word |
| `Auth.IamPrincipalEmail` | src/langchain_google_alloydb_pg/alloydb_engine.py:69-74 | fails with the missing-e-mail error iff the token info has no `email`; otherwise succeeds with a result no longer than the e-mail |
| `Auth.ServiceAccountEmailStripped` | src/langchain_google_alloydb_pg/alloydb_engine.py:74 | a service-account address `<account>.gserviceaccount.com` normalises to `<account>` |
| `Auth.UserEmailUnchanged` | src/langchain_google_alloydb_pg/alloydb_engine.py:74 | the normalised e-mail equals the e-mail iff the e-mail does not contain `.gserviceaccount.com` |
| `Auth.NormalisedEmailMayKeepDomain` | src/langchain_google_alloydb_pg/alloydb_engine.py:74 | a concrete e-mail whose normalised form is `.gserviceaccount.com` itself |
| `Text.RemoveAllUnchangedIff` | src/langchain_google_alloydb_pg/alloydb_engine.py:74 | `s.replace(p, "")` returns `s` exactly when `p` does not occur in `s` |
| `Text.RemoveAllKeepsCleanHead` | src/langchain_google_alloydb_pg/alloydb_engine.py:74 | a head in which no occurrence of the pattern starts is kept verbatim, and removal proceeds on the rest |
| `Text.StripsTrailingOccurrence` | src/langchain_google_alloydb_pg/alloydb_engine.py:74 | a trailing occurrence after a clean head is removed, leaving the head |
| `Text.RemovalCanLeaveOccurrence` | src/langchain_google_alloydb_pg/alloydb_engine.py:74 | removing one nested copy of the pattern can leave the pattern in the result |
| `Auth.ResolveConnection` | src/langchain_google_alloydb_pg/alloydb_engine.py:150-192 | fails with the credentials error iff exactly one of user/password is truthy; otherwise fails with the ip-type error on a bad selector; otherwise, on the IAM path without an e-mail, fails with the missing-e-mail error; fails iff one of these three holds; basic auth iff both are truthy, with `db_user = user`; IAM otherwise, with `db_user` the normalised e-mail; records the instance path, driver, database, password and ip type given to the connector |
| `Auth.BasicAuthIgnoresIdentity` | src/langchain_google_alloydb_pg/alloydb_engine.py:169-180 | with basic credentials the outcome does not depend on the identity service's reply |
| `Engine.EngineClass.Create` | src/langchain_google_alloydb_pg/alloydb_engine.py:136-199 | returns an error exactly as `ResolveConnection` does, or a fresh engine with its parameters, the caller's loop and no statements sent; the shared connector is created only after the credentials check passes, and only if it was missing |
| `Engine.EngineClass.constructor` | src/langchain_google_alloydb_pg/alloydb_engine.py:93 | the class-level connector starts absent |
| `Engine.EngineClass.FromInstance` | src/langchain_google_alloydb_pg/alloydb_engine.py:105-134 | the same error as `Create` or an engine with the same parameters, and the same new state of the class-level connector; the engine holds a background loop |
| `Engine.EngineClass.AFromInstance` | src/langchain_google_alloydb_pg/alloydb_engine.py:201-222 | the same error as `Create` or an engine with the same parameters, and the same new state of the class-level connector; the engine holds no loop |
| `Engine.AlloyDBEngine.constructor` | src/langchain_google_alloydb_pg/alloydb_engine.py:95-103 | the engine keeps its connection parameters and loop, with an empty statement log |
| `Engine.AlloyDBEngine.AExecute` | src/langchain_google_alloydb_pg/alloydb_engine.py:224-228 | appends exactly the query to the log |
| `Engine.AlloyDBEngine.AExecuteOutsideTx` | src/langchain_google_alloydb_pg/alloydb_engine.py:230-234 | appends `COMMIT` and then the query |
| `Engine.AlloyDBEngine.RunAsSync` | src/langchain_google_alloydb_pg/alloydb_engine.py:245-248 | fails with the initialized-async error iff the engine has no loop, sending nothing; otherwise sends exactly the operation's statements |
| `Engine.AlloyDBEngine.AInitVectorstoreTable` | src/langchain_google_alloydb_pg/alloydb_engine.py:250-279 | appends exactly `VectorStoreInitStatements` and nothing else |
| `Ddl.VectorStoreInitStatements` | src/langchain_google_alloydb_pg/alloydb_engine.py:262-279 | the create-extension statement first, the create-table statement last; the drop statement appears, in second place, iff the table is to be overwritten; two or three statements |
| `Ddl.BuildVectorStoreTableQuery` | src/langchain_google_alloydb_pg/alloydb_engine.py:267-277 | the loop that appends one fragment per metadata column yields the statement `VectorStoreTableDdl` |
| `Ddl.DdlShape` | src/langchain_google_alloydb_pg/alloydb_engine.py:267-270 | the statement opens with `CREATE TABLE "<table>"(` and then the id column as `UUID PRIMARY KEY`, the content column as `TEXT NOT NULL` and the embedding column as `vector(<size>) NOT NULL`, in that order; it ends with a newline and `);` |
| `Text.IntToStringRoundTrip` | src/langchain_google_alloydb_pg/alloydb_engine.py:270 | the vector size's decimal text, negative values included, reads back as the vector size |
| `Ddl.DdlTableNameReadBack` | src/langchain_google_alloydb_pg/alloydb_engine.py:267 | a table name without a double quote is recovered from the statement up to the closing quote |
| `Ddl.ColumnsFragmentAppend` | src/langchain_google_alloydb_pg/alloydb_engine.py:271-274 | the metadata text of a concatenated column list is the concatenation of the parts' texts |
| `Ddl.MetadataFragmentAt` | src/langchain_google_alloydb_pg/alloydb_engine.py:271-274 | the k-th column's fragment stands right after the header and the fragments of the columns before it, and the next fragment begins where it ends |
| `Ddl.ColumnNotNullIff` | src/langchain_google_alloydb_pg/alloydb_engine.py:272-273 | a column's fragment is `,\n"<name>" <type>NOT NULL` iff the column is not nullable, and `,\n"<name>" <type>` when it is |
| `Ddl.NotNullFollowsTypeWithoutSpace` | src/langchain_google_alloydb_pg/alloydb_engine.py:272-273 | a non-nullable `TEXT` column is written `TEXTNOT NULL` |
| `Ddl.JsonColumnIff` | src/langchain_google_alloydb_pg/alloydb_engine.py:275-277 | after the metadata fragments the statement continues with `,\n"<json column>" JSON` and the end iff `store_metadata`, and with the end alone iff not |
| `Ddl.ChatHistoryTableDdl` | src/langchain_google_alloydb_pg/alloydb_engine.py:281-287 | `CREATE TABLE IF NOT EXISTS "<table>"` followed by the fixed four-column list; its length; the table name reads back when it has no double quote |
| `Engine.AlloyDBEngine.AInitChatHistoryTable` | src/langchain_google_alloydb_pg/alloydb_engine.py:281-288 | sends exactly the one chat-history create statement |

`Ddl.DefaultLayout` gives the defaults of `init_vectorstore_table`'s column arguments (lines
254-260). `Common.ErrorMessage` gives the text each error is raised with. `Engine.BasicAuthScenario` and
`Engine.OverwriteScenario` are clients showing what a caller can derive from the contracts alone.

## Left out

- The identity service is not modelled. That covers `google.auth.default`, credential refresh and
  the HTTPS token-info request (lines 57-68 and 176-178). The `email` field of the reply is an
  optional parameter (`tokenEmail`). Failing HTTP requests are not modelled.
- The `_service_account_email` read at lines 61-62 is not modelled. Line 68 always overwrites it.
- `str.lower` is modelled on ASCII letters only. For the two comparisons at lines 162 and 164 this
  gives the same answer as Python's full Unicode lower-casing. No non-ASCII character lower-cases to
  one of the letters of `public` or `private`.
- The connection layer is reduced to the parameters `getconn` passes to the connector
  (`ConnectParams`). That covers `AsyncConnector.connect`, `create_async_engine` and the `getconn`
  closure (lines 183-198). The connector itself is an opaque value holding its user agent.
- `_afetch` (lines 236-243) is left out. Its result rows come from the database.
- The execution primitives only record the statements they send. Transactions, commits and query
  parameters belong to the database driver. No caller in this file passes parameters.
- The background thread and event loop are not modelled. `from_instance`'s thread, the
  coroutine-to-future bridge (lines 117-134, 245-248) and `async`/`await` become plain sequential
  calls. An engine records only whether it holds a loop.
- The package version in `USER_AGENT` comes from `version.py`. `version.py` is not part of this
  model, so the version is a parameter.
- The `isinstance` checks in `Column.__post_init__` (lines 83-87) are not modelled. Dafny's types
  make them always pass.
- Python default arguments become explicit arguments, or `Ddl.DefaultLayout` for the table layout.
  This includes `ip_type=IPTypes.PUBLIC`.
- Database semantics are not modelled. That covers table existence, the `IF NOT EXISTS` behaviour
  and embedding dimension checks.
- The vector store, its indexes and chat message history are not part of this model. Their
  implementation is not among the modelled sources.
