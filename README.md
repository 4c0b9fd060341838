# Marvin persistence, settings and tool helpers in Dafny

This project models three parts of Marvin:

- The persistence layer (`src/marvin/engine/database.py`). This covers the two engine caches (blocking and non-blocking), the schema functions `ensure_tables_exist` and `create_db_and_tables`, the two session scopes, `DBThread.create`, `DBMessage.from_message`, and the tables `threads`, `messages` and `llm_calls` with their relationships and foreign keys.
- The validators of the settings record (`src/marvin/settings.py`), with its defaults.
- The tool helpers `update_fn` and `wrap_tool_errors` (`src/marvin/utilities/tools.py`).

Modules:

- `Wrappers` (wrappers.dfy): `Option`, and `Result`, which is a value or an exception message.
- `Settings` (settings.dfy): pure validators and `Build`, which constructs the settings record. Fields are validated in the order they are declared, and defaults are validated too.
- `Tools` (tools.dfy): a Python function object is a record `Callable`. It holds the name, qualified name, docstring, whether it is a coroutine function, and `call`, a function from arguments to an `Outcome`. A call's `Outcome` is one of: a return value `Ok`; a raised `ModelRetry` (`Retry`); another `Exception` (`Err`); or a `BaseException` that is not an `Exception` (`Interrupt`).
- `Tables` (tables.dfy): the contents of the database file as a value `Db`. It records which tables exist, and the rows of each table keyed by primary key. The module also has the pure meaning of `create_all`, `drop_all`, `ensure_tables_exist`, `create_db_and_tables` and of committing rows. The store invariant `Integrity` combines three things: rows are keyed by their ids, the declared foreign keys hold, and parent links form a forest. The relationships are queries over a `Db`.
- `Database` (database.dfy): the imperative side. It has the classes `Store` (the database file), `Engine`, `EngineRegistry` (the two module-level caches) and `Session`. It also has the schema methods, the scope entry and exit methods, `CreateThread` (for `DBThread.create`), `FromMessage`, and where the engine path comes from.

Parameters stand in for things the model does not compute:

- The new id from `uuid.uuid4()` is passed in, with a precondition that it is not already in use.
- The value of `utc_now()` is passed in as a clock reading.
- Path expansion and resolution (`expanduser().resolve()`) is the function parameter `resolve`.
- The JSON serialisation `message_adapter.dump_python(..., mode="json")` is the function parameter `dump`.

Where the code and its documentation disagree, the model follows the code:

- Without the foreign-key pragma, SQLite does not reject a thread whose parent is missing. The model makes "the referenced rows exist" a precondition of inserting, and keeps the foreign keys as a store invariant.
- If `session.close()` raises in a `finally` block, that exception replaces the body's exception. The model's `close` never fails.
- With `database_url` ":memory:" the engine URLs name an in-memory database. SQLite gives every engine its own private one, empty when the engine is built. The blocking and the non-blocking engine therefore share no table: tables made by `create_db_and_tables()` are not seen by `get_async_session()`.
- A commit inserts threads first, then llm_calls, then messages. The relationships of `DBMessage` (database.py:108-109) put threads and llm_calls before messages. Within one table, rows go in the order they were added. So a message added before its new thread still commits.
- `drop_all` and `create_all` only touch the three declared tables. `create_db_and_tables(force=True)` therefore leaves undeclared tables in place. `ensure_tables_exist` does nothing when only undeclared tables exist, which leaves the three declared tables missing.

## Model

| member | source | states |
|---|---|---|
| `Settings.Upper` | src/marvin/settings.py:86 | upper-casing keeps the length and maps each character to its upper case |
| `Settings.UpperIdempotent` | src/marvin/settings.py:84-86 | upper-casing twice equals upper-casing once |
| `Settings.ParseLogLevel` | src/marvin/settings.py:72-75 | the Literal accepts exactly DEBUG, INFO, WARNING, ERROR, CRITICAL, and the level's name is the accepted string |
| `Settings.ValidateLogLevel` | src/marvin/settings.py:72-86 | a value is accepted iff its upper-case form is one of the five levels; the level is that upper-case form; anything else is rejected with the Literal error |
| `Settings.LogLevelNormalisationIdempotent` | src/marvin/settings.py:82-86 | validating an accepted level's name again gives the same level |
| `Settings.LowerCaseLevelAccepted` | src/marvin/settings.py:82-86 | "debug" is accepted as DEBUG and "Warning" as WARNING |
| `Settings.JoinPath` | src/marvin/settings.py:58 | `home / "marvin.db"` starts with the home path and ends with the file name, with exactly one separator between them: the one the path ends with, or else one added; an empty path gives the file name |
| `Settings.ValidateHomePath` | src/marvin/settings.py:35-41 | the validated home path is the expanded, resolved input (`resolve`); the directory creation is left out |
| `Settings.RevalidateHomePath` | src/marvin/settings.py:35-41 | if resolving is idempotent, validating an already validated home path again (validation on assignment) leaves it unchanged |
| `Settings.ValidateDatabaseUrl` | src/marvin/settings.py:48-68 | fails (ValueError) iff no url is given and home_path is missing; no url gives home/"marvin.db"; ":memory:" is kept verbatim; any other value becomes its resolved path |
| `Settings.RevalidateDatabaseUrl` | src/marvin/settings.py:48-68 | if resolving is idempotent and never gives ":memory:", re-validating an explicitly given, already validated url (validation on assignment) leaves it unchanged |
| `Settings.Build` | src/marvin/settings.py:12-146 | construction fails iff a supplied log level is not a level in any case; home_path is the resolved home; database_url is what its validator gives with the validated home; log_level is the upper-cased input |
| `Settings.DefaultSettings` | src/marvin/settings.py:28-146 | with nothing supplied: home is resolve("~/.marvin"), database_url is home/marvin.db, log level INFO, log_events false, agent model "openai:gpt-4o", temperature None, retries 10, max turns 100, print handler on, memory provider "chroma-db", no Chroma Cloud values |
| `Settings.BuildNeverMissesHome` | src/marvin/settings.py:30-58 | during construction the "home_path must be set" error cannot occur, because home_path is validated first |
| `Tools.Apply` | src/marvin/utilities/tools.py:80-95 | the wrapper has the new name, the old qualified name, the same call behaviour and coroutine-ness as the function; its doc is the description when one is given (even ""), else the function's doc |
| `Tools.UpdateFn` | src/marvin/utilities/tools.py:42-110 | on a function: ValueError without `name`, otherwise the function renamed by Apply; as a decorator: the positional name wins over `name`; ValueError when neither is given |
| `Tools.Decorate` | src/marvin/utilities/tools.py:107-108 | the decorator renames the function it is applied to, with the captured name and description |
| `Tools.TranslateError` | src/marvin/utilities/tools.py:130-137 | no plain exception remains; returns, ModelRetry and BaseExceptions pass unchanged; an exception e becomes ModelRetry("Tool failed: " + str(e)) |
| `Tools.WrapToolErrors` | src/marvin/utilities/tools.py:121-154 | the wrapper keeps name, qualified name, doc and coroutine-ness, and every call's outcome is the tool's outcome translated |
| `Tools.WrappedToolOutcome` | src/marvin/utilities/tools.py:126-154 | for every argument: a return value passes through, ModelRetry and BaseException are re-raised unchanged, any other exception becomes a "Tool failed: " retry, and no plain exception escapes |
| `Tools.WrapToolErrorsIdempotent` | src/marvin/utilities/tools.py:121-154 | wrapping a wrapped tool again changes none of its calls |
| `Tables.EmptyDbIntegrity` | src/marvin/engine/database.py:74-135 | a database with no tables satisfies the store invariant |
| `Tables.CreateAll` | src/marvin/engine/database.py:142 | the three tables exist afterwards; existing tables and all rows are kept; the invariant is preserved |
| `Tables.DropAll` | src/marvin/engine/database.py:173 | the three tables and all their rows are gone; undeclared tables stay; the result satisfies the invariant |
| `Tables.EnsureTables` | src/marvin/engine/database.py:138-142 | a database without tables gets exactly the three tables, all empty; a database with any table is unchanged; the invariant is preserved |
| `Tables.EnsureTablesIdempotent` | src/marvin/engine/database.py:138-142 | ensure_tables_exist twice equals once |
| `Tables.CreateDbAndTables` | src/marvin/engine/database.py:165-174 | the three tables exist afterwards and undeclared tables are untouched; with force all three are empty; without force no row changes; the invariant holds afterwards when force is given or held before |
| `Tables.Insert` | src/marvin/engine/database.py:90-91 | the inserted row is found under its key, every other key finds what it found before, and no table is created |
| `Tables.InsertAll` | src/marvin/engine/database.py:90-91 | after a commit the last row is found under its key, a key no row has is unchanged, and no table is created |
| `Tables.InsertAllStoresEach` | src/marvin/engine/database.py:90-91 | when a commit is allowed every row has a key not yet in use, and afterwards every row is found under its key |
| `Tables.FlushOrderPermutes` | src/marvin/engine/database.py:91 | a flush inserts exactly the rows added to the session, each as often as it was added |
| `Tables.FlushOrderSorted` | src/marvin/engine/database.py:108-109 | in flush order threads come before llm_calls and llm_calls before messages |
| `Tables.FlushOrderKeepsTableOrder` | src/marvin/engine/database.py:91 | within each table the flush keeps the order in which rows were added |
| `Tables.FlushOrderSingle` | src/marvin/engine/database.py:90-91 | a single added row is flushed on its own |
| `Tables.MessageBeforeItsThread` | src/marvin/engine/database.py:108 | a message added before the new thread it belongs to is committed, because the thread is flushed first; inserting in the order of adding would refuse it |
| `Tables.InsertAllAppend` | src/marvin/engine/database.py:90-91 | committing rows + [row] is committing rows, then inserting row, and is allowed iff both steps are |
| `Tables.InsertAllGrows` | src/marvin/engine/database.py:90-91 | a commit removes no key and no table |
| `Tables.InsertThreadKeepsForest` | src/marvin/engine/database.py:78 | adding a thread whose parent exists keeps the parent links a forest |
| `Tables.InsertKeepsIntegrity` | src/marvin/engine/database.py:77-133 | inserting a row with a new key whose references exist preserves keys, foreign keys and the forest, and creates no table |
| `Tables.InsertAllKeepsIntegrity` | src/marvin/engine/database.py:77-133 | a commit of acceptable rows preserves the store invariant and the set of tables |
| `Tables.InsertOneThread` | src/marvin/engine/database.py:89-92 | committing one new thread adds exactly that row under a previously unused id; messages, llm_calls and tables are unchanged |
| `Tables.ThreadMessages` | src/marvin/engine/database.py:81 | a thread's messages are stored messages |
| `Tables.CallMessages` | src/marvin/engine/database.py:135 | a call's messages are stored messages |
| `Tables.ThreadMessagesBackPopulates` | src/marvin/engine/database.py:108 | `DBThread.messages` and `DBMessage.thread` agree: a message is among a thread's messages iff that thread is its thread |
| `Tables.CallMessagesBackPopulates` | src/marvin/engine/database.py:109 | `DBLLMCall.messages` and `DBMessage.llm_call` agree: a message is among a call's messages iff that call is its call |
| `Tables.MessageThread` | src/marvin/engine/database.py:108 | a message's thread exists, is the thread named by its thread_id, and lists the message among its messages |
| `Tables.MessageCall` | src/marvin/engine/database.py:109 | a message's llm_call is present iff llm_call_id is set, and that call lists the message among its messages |
| `Tables.InsertMessageThreadMessages` | src/marvin/engine/database.py:81 | inserting a message adds it to its own thread's messages and to no other thread's |
| `Tables.AncestorRankDecreases` | src/marvin/engine/database.py:78 | following parent links strictly lowers the rank of a forest ranking |
| `Tables.NoThreadIsItsOwnAncestor` | src/marvin/engine/database.py:78 | in a store satisfying the invariant no thread is its own ancestor |
| `Database.Store.constructor` | src/marvin/engine/database.py:74-135 | a store starts from contents that satisfy the invariant |
| `Database.Store.TableNames` | src/marvin/engine/database.py:141 | the inspector reports every table the file holds, declared by the models or not |
| `Database.Store.CreateAllTables` | src/marvin/engine/database.py:142 | the store's contents become CreateAll of the old contents, keeping the invariant |
| `Database.Store.DropAllTables` | src/marvin/engine/database.py:173 | the store's contents become DropAll of the old contents, keeping the invariant |
| `Database.Engine.constructor` | src/marvin/engine/database.py:37-41 | an engine records its URL, mode and the store it opens |
| `Database.EngineRegistry.constructor` | src/marvin/engine/database.py:29-31 | both caches start empty and nothing has been built |
| `Database.EngineRegistry.OpenStore` | src/marvin/engine/database.py:37-51 | a new engine on ":memory:" opens a fresh, empty private database satisfying the invariant; on any other path it opens the file |
| `Database.EngineRegistry.GetEngine` | src/marvin/engine/database.py:34-42 | returns the cached sync engine unchanged and builds nothing; on an empty slot builds one fresh engine on "sqlite:///" + path, on the file or, for ":memory:", on a fresh empty database, and caches it; the async slot is untouched |
| `Database.EngineRegistry.GetAsyncEngine` | src/marvin/engine/database.py:45-53 | the same for the async slot with "sqlite+aiosqlite:///" + path, again on its own fresh database for ":memory:"; the sync slot is untouched |
| `Database.EngineRegistry.SetEngine` | src/marvin/engine/database.py:56-58 | the sync slot holds the given engine; the async slot is unchanged; nothing is built |
| `Database.EngineRegistry.SetAsyncEngine` | src/marvin/engine/database.py:61-63 | the async slot holds the given engine; the sync slot is unchanged; nothing is built |
| `Database.GetEngineTwice` | src/marvin/engine/database.py:34-42 | two get_engine calls return the identical engine, and only the first can build one |
| `Database.SetThenGetEngine` | src/marvin/engine/database.py:34-58 | after set_engine(e), get_engine returns e and builds nothing |
| `Database.SetThenGetAsyncEngine` | src/marvin/engine/database.py:45-63 | after set_async_engine(e), get_async_engine returns e and builds nothing |
| `Database.EnsureTablesExist` | src/marvin/engine/database.py:138-142 | the blocking engine's store becomes EnsureTables of what get_engine finds (the cached engine's store, the file, or a new empty in-memory database); a cached engine stays in its slot and nothing is built; otherwise exactly one engine is built on "sqlite:///" + path; the async slot is untouched |
| `Database.CreateDbAndTablesOn` | src/marvin/engine/database.py:165-174 | the blocking engine's store becomes CreateDbAndTables of what get_engine finds, with the given force; a cached engine stays in its slot and nothing is built; otherwise exactly one engine is built on "sqlite:///" + path; the async slot is untouched |
| `Database.SetEngineThenEnsureTables` | src/marvin/engine/database.py:56-58 | after set_engine(e), ensure_tables_exist works on e's store, and get_engine still returns e with nothing built |
| `Database.Session.constructor` | src/marvin/engine/database.py:148 | a new session is open, has nothing pending, and is bound to its engine |
| `Database.Session.Add` | src/marvin/engine/database.py:90 | the row is appended to the pending rows |
| `Database.Session.Commit` | src/marvin/engine/database.py:91 | the store holds the old contents with the pending rows inserted in flush order; nothing stays pending; the invariant is kept |
| `Database.Session.RefreshThread` | src/marvin/engine/database.py:92 | returns the stored row of the thread |
| `Database.Session.Close` | src/marvin/engine/database.py:152 | the session is closed and uncommitted rows are dropped; the store is untouched |
| `Database.EnterSession` | src/marvin/engine/database.py:145-150 | a fresh open session on get_engine(): the cached engine itself, with nothing built, or else one new blocking engine on "sqlite:///" + path, on the file or a new empty database for ":memory:", which is now cached |
| `Database.EnterAsyncSession` | src/marvin/engine/database.py:155-160 | a fresh open session on get_async_engine(): the cached engine itself, with nothing built, or else one new non-blocking engine on "sqlite+aiosqlite:///" + path, on the file or a new empty database for ":memory:", which is now cached |
| `Database.LeaveSession` | src/marvin/engine/database.py:149-162 | on normal and on error exit the session is closed, and the body's exception goes on unchanged |
| `Database.SetThenEnterAsyncSession` | src/marvin/engine/database.py:61-63 | after set_async_engine(e), a get_async_session() scope is on e and nothing is built |
| `Database.TwoAsyncScopes` | src/marvin/engine/database.py:155-160 | two get_async_session() scopes in a row are distinct sessions on the same non-blocking engine, built once |
| `Database.CreateThread` | src/marvin/engine/database.py:83-93 | the returned thread has the new, previously unused id and the given parent; the pending rows and it are committed in flush order and it is stored; with nothing else pending, the threads table grows by exactly that row and messages and llm_calls are unchanged |
| `Database.FromMessage` | src/marvin/engine/database.py:111-122 | the unsaved message has the given thread and call, and its message column is the JSON dump of the message |
| `Database.FromMessageRoundTrip` | src/marvin/engine/database.py:111-122 | a from_message row, once inserted, is the flushed draft with the new id and clock value, holds the JSON dump of the message, belongs to the given thread and call; loading its message gives the original back; no other row changes |
| `Database.SettingsAttribute` | src/marvin/settings.py:43-46 | reading `database_url` gives the validated url; a name Settings does not declare raises AttributeError |
| `Database.SyncUrlAsWritten` | src/marvin/engine/database.py:38 | the sync URL as written fails exactly because `database_path` is not a declared settings attribute |
| `Database.SyncUrlAsWrittenFails` | src/marvin/engine/database.py:38 | building the sync URL from `settings.database_path` fails for every settings object |
| `Database.EnginePath` | src/marvin/engine/database.py:38 | the corrected engine path is the settings' `database_url` |
| `Database.DefaultEngineUrl` | src/marvin/engine/database.py:38 | with default settings the blocking engine's URL is "sqlite:///" + the resolved home joined with "marvin.db" (one separator between them) |
| `Database.RootAndChild` | src/marvin/engine/database.py:83-93 | on a fresh database file, after create_db_and_tables, a root thread and a child created in one async scope are stored, the child's parent is the root, and the invariant holds |
| `Database.InMemoryEnginesShareNothing` | src/marvin/engine/database.py:155-174 | with ":memory:", after create_db_and_tables the blocking engine's database has the three tables while an async session's database is a different, empty one in which no row can be inserted |

## Left out

- Actual SQL, SQLAlchemy's inspector and its transactions are not modelled. A commit inserts the pending rows in flush order and cannot fail. Rollback, autoflush and expiry are not modelled.
- Whether SQLite enforces the declared foreign keys depends on a pragma that the source does not show. The model makes the references existing a precondition of every insert (`CanInsert`), so the foreign-key error path is not modelled.
- Database.CreateThread: the caller must pass an unused id. This precondition stands in for `uuid.uuid4()`. `created_at` is the clock value passed in, not one read at flush time.
- Database.Session.Commit: no relationship orders threads against llm_calls, so the order SQLAlchemy picks between those two tables is not fixed by the source. The model flushes threads first. The order inside the threads table is the order of adding, because `parent_thread_id` has no relationship.
- Database.EngineRegistry: connection pools are not modelled. A blocking ":memory:" engine is one database for all its sessions.
- Concurrency, `check_same_thread`, aiosqlite and writers on the two engines at the same time are not modelled. Async methods are modelled as sequential methods.
- Database.LeaveSession: `session.close()` never fails in the model. In Python, an exception raised by `close` in the `finally` block would replace the body's exception.
- Database.FromMessage: pydantic's `dump_python` is the function parameter `dump`, so its validation errors are not modelled.
- `LLMCall` rows have no factory in the source. They enter the store only through `Session.Add`.
- Settings.Upper: only ASCII letters are upper-cased. Python's `str.upper` also maps other characters: turkish dotless "ı" becomes "I", and "ß" becomes "SS". So the model rejects a few log levels that the source accepts.
- Settings.ValidateHomePath: `expanduser`, `resolve` and `mkdir` are replaced by the parameter `resolve`. A failing `mkdir` is not modelled.
- Settings.JoinPath: it agrees with `pathlib` only for a normalised directory. A directory with repeated separators, such as "a//", keeps them, while `pathlib` collapses them. A directory "." gives "./marvin.db", while `pathlib` gives "marvin.db". The home path it is applied to has been resolved, and a resolved path is normalised.
- Settings.Build: environment and `.env` loading, the `KnownModelName` check on `agent_model`, floating-point temperatures (modelled as `real`) and the `setup_logging` model validator are not modelled. When several fields are invalid, the first error is reported instead of pydantic's combined error.
- Tools: `logger.debug` calls and `functools.wraps` attributes other than name, qualified name and doc (such as `__wrapped__` and `__module__`) are not modelled. `update_fn` on a non-callable object that is not a string is not modelled.
- `src/marvin/fns/fn.py` (orchestration through a language model) and `tests/basic/conftest.py` (test fixtures) are not part of this model.

## Findings

| source | as written | input that shows it | evidently intended | confidence | as-written member | corrected member |
|---|---|---|---|---|---|---|
| src/marvin/engine/database.py:38 | the engine URLs are built from `settings.database_path`, but `Settings` declares only `database_url` (src/marvin/settings.py:43) | the first `get_engine()` or `get_async_engine()` call before any `set_engine` raises AttributeError | build the engines on the validated `settings.database_url` | high (not executed) | `Database.SyncUrlAsWrittenFails` | `Database.EnginePath` |
