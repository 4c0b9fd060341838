/**
 * Engines, sessions and the schema and entity helpers of the persistence
 * layer.  A `Store` is the database file, an `Engine` a handle on one store
 * in one access mode, and `EngineRegistry` the two module-level engine
 * caches.  What a store holds, and what each operation does to it, is
 * stated with the functions of module Tables.
 */
module Database {
  import opened Wrappers
  import opened Tables
  import Settings

  /** URL prefix of the blocking engine. */
  const SyncScheme: string := "sqlite:///"
  /** URL prefix of the non-blocking engine. */
  const AsyncScheme: string := "sqlite+aiosqlite:///"

  /** Blocking (`Session`) or non-blocking (`AsyncSession`) access. */
  datatype Mode = Blocking | NonBlocking

  /** A database file and what it currently holds. */
  class Store {
    var db: Db

    ghost predicate Valid()
      reads this
    {
      Integrity(db)
    }

    constructor (contents: Db)
      requires Integrity(contents)
      ensures Valid() && db == contents
    {
      db := contents;
    }

    /** `inspector.get_table_names()`: every table the file holds, declared by the models or not. */
    function TableNames(): (names: set<Table>)
      reads this
      ensures names == db.tables
    {
      db.tables
    }

    /** `Base.metadata.create_all(engine)`. */
    method CreateAllTables()
      requires Valid()
      modifies this
      ensures Valid() && db == CreateAll(old(db))
    {
      db := CreateAll(db);
    }

    /** `Base.metadata.drop_all(engine)`. */
    method DropAllTables()
      requires Valid()
      modifies this
      ensures Valid() && db == DropAll(old(db))
    {
      db := DropAll(db);
    }
  }

  /** A handle from `create_engine` / `create_async_engine`. */
  class Engine {
    const url: string
    const mode: Mode
    const store: Store

    constructor (url: string, mode: Mode, store: Store)
      ensures this.url == url && this.mode == mode && this.store == store
    {
      this.url := url;
      this.mode := mode;
      this.store := store;
    }
  }

  /**
   * `_engine_cache` and `_async_engine_cache`: one slot each (the "default"
   * key). `file` is the store at `databasePath`, which engines built here
   * open, unless the path is ":memory:": SQLite then gives every engine a
   * private database of its own, empty when the engine is built. `built`
   * lists the engines built here, in order.
   */
  class EngineRegistry {
    const databasePath: string
    const file: Store
    var syncSlot: Option<Engine>
    var asyncSlot: Option<Engine>
    ghost var built: seq<Engine>

    constructor (databasePath: string, file: Store)
      ensures this.databasePath == databasePath && this.file == file
      ensures syncSlot == None && asyncSlot == None && built == []
    {
      this.databasePath := databasePath;
      this.file := file;
      syncSlot, asyncSlot := None, None;
      built := [];
    }

    /** Whether engines built here open a private in-memory database. */
    predicate InMemory() {
      databasePath == Settings.MemoryUrl
    }

    /** The store of the cached blocking engine, or else `file`. */
    function SyncStore(): Store
      reads this
    {
      if syncSlot.Some? then syncSlot.value.store else file
    }

    /** The store of the cached non-blocking engine, or else `file`. */
    function AsyncStore(): Store
      reads this
    {
      if asyncSlot.Some? then asyncSlot.value.store else file
    }

    /** Whether `get_engine()` will build an engine on a new private database. */
    predicate SyncBuildsPrivate()
      reads this
    {
      syncSlot.None? && InMemory()
    }

    /** What `get_engine()`'s store holds when it is returned. */
    ghost function SyncContents(): Db
      reads this, SyncStore()
    {
      if SyncBuildsPrivate() then EmptyDb else SyncStore().db
    }

    /** The store `get_engine()` will return satisfies the store invariant. */
    ghost predicate SyncReady()
      reads this, SyncStore()
    {
      SyncBuildsPrivate() || SyncStore().Valid()
    }

    /** A new engine's store: a fresh, empty one for ":memory:", `file` otherwise. */
    method OpenStore() returns (store: Store)
      ensures InMemory() ==> fresh(store) && store.db == EmptyDb && store.Valid()
      ensures !InMemory() ==> store == file
    {
      if InMemory() {
        EmptyDbIntegrity();
        store := new Store(EmptyDb);
      } else {
        store := file;
      }
    }

    /**
     * `get_engine()`: the cached blocking engine; on the first call one is
     * built on "sqlite:///" + the path and cached. The async slot is untouched.
     */
    method GetEngine() returns (e: Engine)
      modifies this
      ensures syncSlot == Some(e) && asyncSlot == old(asyncSlot)
      ensures old(syncSlot).Some? ==> e == old(syncSlot).value && built == old(built)
      ensures old(syncSlot).None? ==>
        && fresh(e) && e.url == SyncScheme + databasePath && e.mode == Blocking
        && built == old(built) + [e]
      ensures old(syncSlot).None? && !InMemory() ==> e.store == file
      ensures old(syncSlot).None? && InMemory() ==> fresh(e.store) && e.store.db == EmptyDb && e.store.Valid()
    {
      if syncSlot.None? {
        var store := OpenStore();
        var engine := new Engine(SyncScheme + databasePath, Blocking, store);
        syncSlot := Some(engine);
        built := built + [engine];
      }
      e := syncSlot.value;
    }

    /**
     * `get_async_engine()`: the same for the non-blocking slot, built on
     * "sqlite+aiosqlite:///" + the path. The sync slot is untouched.
     */
    method GetAsyncEngine() returns (e: Engine)
      modifies this
      ensures asyncSlot == Some(e) && syncSlot == old(syncSlot)
      ensures old(asyncSlot).Some? ==> e == old(asyncSlot).value && built == old(built)
      ensures old(asyncSlot).None? ==>
        && fresh(e) && e.url == AsyncScheme + databasePath && e.mode == NonBlocking
        && built == old(built) + [e]
      ensures old(asyncSlot).None? && !InMemory() ==> e.store == file
      ensures old(asyncSlot).None? && InMemory() ==> fresh(e.store) && e.store.db == EmptyDb && e.store.Valid()
    {
      if asyncSlot.None? {
        var store := OpenStore();
        var engine := new Engine(AsyncScheme + databasePath, NonBlocking, store);
        asyncSlot := Some(engine);
        built := built + [engine];
      }
      e := asyncSlot.value;
    }

    /** `set_engine(engine)`: replaces the blocking engine; builds nothing. */
    method SetEngine(engine: Engine)
      modifies this
      ensures syncSlot == Some(engine) && asyncSlot == old(asyncSlot) && built == old(built)
    {
      syncSlot := Some(engine);
    }

    /** `set_async_engine(engine)`: replaces the non-blocking engine; builds nothing. */
    method SetAsyncEngine(engine: Engine)
      modifies this
      ensures asyncSlot == Some(engine) && syncSlot == old(syncSlot) && built == old(built)
    {
      asyncSlot := Some(engine);
    }
  }

  /**
   * Two `get_engine()` calls with no `set_engine` between them return the
   * identical engine, and at most the first one builds.
   */
  method GetEngineTwice(registry: EngineRegistry) returns (first: Engine, second: Engine)
    modifies registry
    ensures first == second && registry.syncSlot == Some(first)
    ensures registry.asyncSlot == old(registry.asyncSlot)
    ensures |registry.built| <= |old(registry.built)| + 1
    ensures old(registry.syncSlot).Some? ==> registry.built == old(registry.built)
  {
    first := registry.GetEngine();
    second := registry.GetEngine();
  }

  /** After `set_engine(e)`, `get_engine()` returns `e` and builds nothing. */
  method SetThenGetEngine(registry: EngineRegistry, e: Engine) returns (got: Engine)
    modifies registry
    ensures got == e && registry.built == old(registry.built)
    ensures registry.asyncSlot == old(registry.asyncSlot)
  {
    registry.SetEngine(e);
    got := registry.GetEngine();
  }

  /** After `set_async_engine(e)`, `get_async_engine()` returns `e` and builds nothing. */
  method SetThenGetAsyncEngine(registry: EngineRegistry, e: Engine) returns (got: Engine)
    modifies registry
    ensures got == e && registry.built == old(registry.built)
    ensures registry.syncSlot == old(registry.syncSlot)
  {
    registry.SetAsyncEngine(e);
    got := registry.GetAsyncEngine();
  }

  // ---------------------------------------------------------------------
  // Schema

  /**
   * `ensure_tables_exist()`, on the store of the blocking engine: the store
   * of the engine already cached, `file`, or, for ":memory:" with no engine
   * cached yet, the new engine's private database.
   */
  method EnsureTablesExist(registry: EngineRegistry)
    requires registry.SyncReady()
    modifies registry, if registry.SyncBuildsPrivate() then {} else {registry.SyncStore()}
    ensures registry.asyncSlot == old(registry.asyncSlot) && registry.syncSlot.Some?
    ensures old(registry.syncSlot).Some? ==>
      registry.syncSlot == old(registry.syncSlot) && registry.built == old(registry.built)
    ensures old(registry.syncSlot).None? ==>
      var e := registry.syncSlot.value;
      && fresh(e) && e.url == SyncScheme + registry.databasePath && e.mode == Blocking
      && registry.built == old(registry.built) + [e]
    ensures old(registry.SyncBuildsPrivate()) ==> fresh(registry.SyncStore())
    ensures !old(registry.SyncBuildsPrivate()) ==> registry.SyncStore() == old(registry.SyncStore())
    ensures registry.SyncStore().Valid()
    ensures registry.SyncStore().db == EnsureTables(old(registry.SyncContents()))
  {
    var engine := registry.GetEngine();
    if engine.store.TableNames() == {} {
      var again := registry.GetEngine();
      again.store.CreateAllTables();
    }
  }

  /** `create_db_and_tables(force=force)`, on the store of the blocking engine. */
  method CreateDbAndTablesOn(registry: EngineRegistry, force: bool)
    requires registry.SyncReady()
    modifies registry, if registry.SyncBuildsPrivate() then {} else {registry.SyncStore()}
    ensures registry.asyncSlot == old(registry.asyncSlot) && registry.syncSlot.Some?
    ensures old(registry.syncSlot).Some? ==>
      registry.syncSlot == old(registry.syncSlot) && registry.built == old(registry.built)
    ensures old(registry.syncSlot).None? ==>
      var e := registry.syncSlot.value;
      && fresh(e) && e.url == SyncScheme + registry.databasePath && e.mode == Blocking
      && registry.built == old(registry.built) + [e]
    ensures old(registry.SyncBuildsPrivate()) ==> fresh(registry.SyncStore())
    ensures !old(registry.SyncBuildsPrivate()) ==> registry.SyncStore() == old(registry.SyncStore())
    ensures registry.SyncStore().Valid()
    ensures registry.SyncStore().db == CreateDbAndTables(old(registry.SyncContents()), force)
  {
    if force {
      var engine := registry.GetEngine();
      engine.store.DropAllTables();
    }
    var engine := registry.GetEngine();
    engine.store.CreateAllTables();
  }

  /**
   * An engine installed with `set_engine(e)` survives `ensure_tables_exist()`:
   * the tables are ensured on its store, and `get_engine()` still returns it.
   */
  method SetEngineThenEnsureTables(registry: EngineRegistry, e: Engine) returns (got: Engine)
    requires e.store.Valid()
    modifies registry, e.store
    ensures got == e && registry.built == old(registry.built)
    ensures e.store.Valid() && e.store.db == EnsureTables(old(e.store.db))
  {
    registry.SetEngine(e);
    EnsureTablesExist(registry);
    got := registry.GetEngine();
  }

  // ---------------------------------------------------------------------
  // Sessions

  /** A unit of work on one engine: rows added and not yet committed, and whether it is open. */
  class Session {
    const engine: Engine
    var pending: seq<Row>
    var isOpen: bool

    constructor (engine: Engine)
      ensures this.engine == engine && pending == [] && isOpen
    {
      this.engine := engine;
      pending := [];
      isOpen := true;
    }

    /** `session.add(row)`. */
    method Add(row: Row)
      modifies this
      ensures pending == old(pending) + [row] && isOpen == old(isOpen)
    {
      pending := pending + [row];
    }

    /**
     * `session.commit()`: flushes the pending rows to the store in flush
     * order (threads, then llm_calls, then messages, each table in the order
     * its rows were added).
     */
    method Commit()
      requires engine.store.Valid() && CanInsertAll(engine.store.db, FlushOrder(pending))
      modifies this, engine.store
      ensures engine.store.Valid()
      ensures engine.store.db == InsertAll(old(engine.store.db), FlushOrder(old(pending)))
      ensures pending == [] && isOpen == old(isOpen)
    {
      InsertAllKeepsIntegrity(engine.store.db, FlushOrder(pending));
      engine.store.db := InsertAll(engine.store.db, FlushOrder(pending));
      pending := [];
    }

    /** `session.refresh(thread)`: the stored row of thread `id`. */
    method RefreshThread(id: ThreadId) returns (thread: ThreadRow)
      requires id in engine.store.db.threads
      ensures thread == engine.store.db.threads[id]
    {
      thread := engine.store.db.threads[id];
    }

    /** `session.close()`: uncommitted rows are discarded, the store is untouched. */
    method Close()
      modifies this
      ensures !isOpen && pending == []
    {
      pending := [];
      isOpen := false;
    }
  }

  /** How the body of a `with` block left it. */
  datatype Exit = Normal | Raised(error: string)

  /** Entering `get_session()`: a new session on `get_engine()`. */
  method EnterSession(registry: EngineRegistry) returns (session: Session)
    modifies registry
    ensures fresh(session) && session.isOpen && session.pending == []
    ensures registry.syncSlot == Some(session.engine) && registry.asyncSlot == old(registry.asyncSlot)
    ensures !old(registry.SyncBuildsPrivate()) ==> session.engine.store == old(registry.SyncStore())
    ensures old(registry.SyncBuildsPrivate()) ==>
      fresh(session.engine.store) && session.engine.store.db == EmptyDb && session.engine.store.Valid()
    ensures old(registry.syncSlot).Some? ==>
      session.engine == old(registry.syncSlot).value && registry.built == old(registry.built)
    ensures old(registry.syncSlot).None? ==>
      && fresh(session.engine) && session.engine.url == SyncScheme + registry.databasePath
      && session.engine.mode == Blocking && registry.built == old(registry.built) + [session.engine]
  {
    var engine := registry.GetEngine();
    session := new Session(engine);
  }

  /** Entering `get_async_session()`: a new session on `get_async_engine()`. */
  method EnterAsyncSession(registry: EngineRegistry) returns (session: Session)
    modifies registry
    ensures fresh(session) && session.isOpen && session.pending == []
    ensures registry.asyncSlot == Some(session.engine) && registry.syncSlot == old(registry.syncSlot)
    ensures !old(registry.asyncSlot.None? && registry.InMemory()) ==> session.engine.store == old(registry.AsyncStore())
    ensures old(registry.asyncSlot.None? && registry.InMemory()) ==>
      fresh(session.engine.store) && session.engine.store.db == EmptyDb && session.engine.store.Valid()
    ensures old(registry.asyncSlot).Some? ==>
      session.engine == old(registry.asyncSlot).value && registry.built == old(registry.built)
    ensures old(registry.asyncSlot).None? ==>
      && fresh(session.engine) && session.engine.url == AsyncScheme + registry.databasePath
      && session.engine.mode == NonBlocking && registry.built == old(registry.built) + [session.engine]
  {
    var engine := registry.GetAsyncEngine();
    session := new Session(engine);
  }

  /**
   * After `set_async_engine(e)`, every `get_async_session()` scope is on
   * `e`, and nothing is built.
   */
  method SetThenEnterAsyncSession(registry: EngineRegistry, e: Engine) returns (session: Session)
    modifies registry
    ensures session.engine == e && fresh(session) && session.isOpen && session.pending == []
    ensures registry.asyncSlot == Some(e) && registry.built == old(registry.built)
    ensures registry.syncSlot == old(registry.syncSlot)
  {
    registry.SetAsyncEngine(e);
    session := EnterAsyncSession(registry);
  }

  /**
   * Two `get_async_session()` scopes in a row are on the same non-blocking
   * engine, built by the first one at most.
   */
  method TwoAsyncScopes(registry: EngineRegistry) returns (first: Session, second: Session)
    requires registry.asyncSlot.None?
    modifies registry
    ensures first.engine == second.engine && first.engine.mode == NonBlocking
    ensures first != second && fresh(first) && fresh(second)
    ensures registry.built == old(registry.built) + [first.engine]
  {
    first := EnterAsyncSession(registry);
    second := EnterAsyncSession(registry);
  }

  /**
   * Leaving either scope (the `finally`): however the body ended, the
   * session is closed and the body's exception, if any, goes on unchanged.
   * Nothing is committed on the way out.
   */
  method LeaveSession(session: Session, body: Exit) returns (exit: Exit)
    modifies session
    ensures !session.isOpen && session.pending == []
    ensures exit == body
  {
    session.Close();
    exit := body;
  }

  // ---------------------------------------------------------------------
  // Entity helpers

  /**
   * `DBThread.create(session, parentThreadId)`: a thread with the new id
   * `id` (uuid4, passed in) and the given parent is added and committed, and
   * the stored row is returned. `now` is the value of `utc_now()` at the flush.
   */
  method CreateThread(session: Session, id: ThreadId, parentThreadId: Option<ThreadId>, now: Time)
    returns (thread: ThreadRow)
    requires session.engine.mode == NonBlocking && session.engine.store.Valid()
    requires CanInsertAll(session.engine.store.db,
      FlushOrder(session.pending + [ThreadEntry(ThreadRow(id, parentThreadId, now))]))
    modifies session, session.engine.store
    ensures thread == ThreadRow(id, parentThreadId, now)
    ensures id !in old(session.engine.store.db.threads)
    ensures session.engine.store.Valid() && session.pending == [] && session.isOpen == old(session.isOpen)
    ensures session.engine.store.db ==
      InsertAll(old(session.engine.store.db), FlushOrder(old(session.pending) + [ThreadEntry(thread)]))
    ensures id in session.engine.store.db.threads && session.engine.store.db.threads[id] == thread
    ensures old(session.pending) == [] ==>
      var before := old(session.engine.store.db); var after := session.engine.store.db;
      && after.threads == before.threads[id := thread]
      && after.messages == before.messages && after.llmCalls == before.llmCalls
      && after.tables == before.tables
  {
    ghost var before := session.engine.store.db;
    ghost var earlier := session.pending;
    var row := ThreadEntry(ThreadRow(id, parentThreadId, now));
    ghost var batch := FlushOrder(earlier + [row]);
    FlushOrderPermutes(earlier + [row]);
    assert row in multiset(earlier + [row]);
    assert row in batch;
    InsertAllStoresEach(before, batch);
    session.Add(row);
    session.Commit();
    thread := session.RefreshThread(id);
    if earlier == [] {
      FlushOrderSingle(row);
      InsertOneThread(before, ThreadRow(id, parentThreadId, now));
    }
  }

  /** An unsaved `DBMessage`: `id` and `timestamp` are filled in by the flush. */
  datatype MessageDraft = MessageDraft(threadId: ThreadId, llmCallId: Option<Uuid>, message: Json)

  /**
   * `DBMessage.from_message(threadId, message, llmCallId)`: `dump` is
   * `message_adapter.dump_python(..., mode="json")`. No store is involved.
   */
  function FromMessage<M>(threadId: ThreadId, message: M, llmCallId: Option<Uuid>, dump: M -> Json): (draft: MessageDraft)
    ensures draft.threadId == threadId && draft.llmCallId == llmCallId
    ensures draft.message == dump(message)
  {
    MessageDraft(threadId, llmCallId, dump(message))
  }

  /** The row a flush writes for `draft`, with `uuid.uuid4()` and `utc_now()` evaluated to `id` and `now`. */
  function Flushed(draft: MessageDraft, id: Uuid, now: Time): MessageRow {
    MessageRow(id, draft.threadId, draft.llmCallId, draft.message, now)
  }

  /**
   * A message built by `from_message`, inserted and read back, belongs to
   * the given thread and call, and loading its `message` column gives back
   * the original object when `load` inverts `dump`. No other row changes.
   */
  lemma FromMessageRoundTrip<M(!new)>(db: Db, threadId: ThreadId, message: M, llmCallId: Option<Uuid>,
                                     dump: M -> Json, load: Json -> M, id: Uuid, now: Time)
    requires Integrity(db)
    requires forall m :: load(dump(m)) == m
    requires CanInsert(db, MessageEntry(Flushed(FromMessage(threadId, message, llmCallId, dump), id, now)))
    ensures var r := Insert(db, MessageEntry(Flushed(FromMessage(threadId, message, llmCallId, dump), id, now)));
      && Integrity(r) && id in r.messages
      && r.messages[id] == Flushed(FromMessage(threadId, message, llmCallId, dump), id, now)
      && r.messages[id].message == dump(message) && r.messages[id].timestamp == now
      && MessageThread(r, id).id == threadId
      && r.messages[id].llmCallId == llmCallId
      && load(r.messages[id].message) == message
      && id in ThreadMessages(r, threadId)
      && r.threads == db.threads && r.llmCalls == db.llmCalls
      && (forall m :: m in db.messages ==> m in r.messages && r.messages[m] == db.messages[m])
  {
    var row := Flushed(FromMessage(threadId, message, llmCallId, dump), id, now);
    InsertKeepsIntegrity(db, MessageEntry(row));
  }

  // ---------------------------------------------------------------------
  // Where the engine path comes from

  /**
   * Reading attribute `name` of a Settings object, for `database_url` and
   * for names Settings does not declare (which raise AttributeError).
   */
  function SettingsAttribute(s: Settings.Settings, name: string): (r: Result<string>)
    requires name == "database_url" || name !in Settings.FieldNames
    ensures r.Success? <==> name == "database_url"
    ensures r.Success? ==> r.value == s.databaseUrl
  {
    if name == "database_url" then Success(s.databaseUrl)
    else Failure("AttributeError: 'Settings' object has no attribute '" + name + "'")
  }

  /** As written: the engine URL reads `settings.database_path`. */
  function SyncUrlAsWritten(s: Settings.Settings): (r: Result<string>)
    ensures r.Failure? <==> "database_path" !in Settings.FieldNames
    ensures r.Success? ==> r.value == SyncScheme + s.databaseUrl
  {
    match SettingsAttribute(s, "database_path")
    case Success(path) => Success(SyncScheme + path)
    case Failure(e) => Failure(e)
  }

  /** For every settings object, building the blocking engine as written raises AttributeError. */
  lemma SyncUrlAsWrittenFails(s: Settings.Settings)
    ensures SyncUrlAsWritten(s).Failure?
  {
  }

  /** Corrected: the registry's path is the validated `database_url`. */
  function EnginePath(s: Settings.Settings): (path: string)
    ensures Success(path) == SettingsAttribute(s, "database_url")
  {
    s.databaseUrl
  }

  /** With default settings the blocking engine opens `<home>/marvin.db`. */
  lemma DefaultEngineUrl(resolve: string -> string)
    ensures Settings.Build(Settings.NoOverrides, resolve).Success?
    ensures SyncScheme + EnginePath(Settings.Build(Settings.NoOverrides, resolve).value) ==
      "sqlite:///" + Settings.JoinPath(resolve(Settings.DefaultHomePath), "marvin.db")
  {
  }

  // ---------------------------------------------------------------------
  // Example: a root thread and a child

  /**
   * Fresh database file, `create_db_and_tables()`, one async scope creating
   * a root thread and a child of it: both are stored and the child's parent
   * is the root.
   */
  method RootAndChild(registry: EngineRegistry, rootId: ThreadId, childId: ThreadId, now: Time)
    returns (root: ThreadRow, child: ThreadRow)
    requires rootId != childId && !registry.InMemory()
    requires registry.syncSlot.None? && registry.asyncSlot.None?
    requires registry.file.db == EmptyDb
    modifies registry, registry.file
    ensures root.parentThreadId == None && child.parentThreadId == Some(root.id)
    ensures var db := registry.file.db;
      && Integrity(db) && root.id in db.threads && child.id in db.threads
      && Ancestor(db, childId, 1) == Some(rootId)
  {
    EmptyDbIntegrity();
    CreateDbAndTablesOn(registry, false);
    var session := EnterAsyncSession(registry);
    var first := ThreadEntry(ThreadRow(rootId, None, now));
    FlushOrderSingle(first);
    assert session.pending + [first] == [first] && [first][1..] == [];
    root := CreateThread(session, rootId, None, now);
    var second := ThreadEntry(ThreadRow(childId, Some(rootId), now));
    FlushOrderSingle(second);
    assert session.pending + [second] == [second] && [second][1..] == [];
    child := CreateThread(session, childId, Some(rootId), now);
    var exit := LeaveSession(session, Normal);
  }

  /**
   * With database_url ":memory:", the tables `create_db_and_tables()` makes
   * through the blocking engine are not in the database of the non-blocking
   * engine: a session from `get_async_session()` sees no table, so no row at
   * all can be committed there, and `DBThread.create` fails.
   */
  method InMemoryEnginesShareNothing(registry: EngineRegistry) returns (session: Session)
    requires registry.InMemory()
    requires registry.syncSlot.None? && registry.asyncSlot.None?
    modifies registry
    ensures registry.SyncStore().db.tables == ModelTables
    ensures session.engine.store != registry.SyncStore()
    ensures session.engine.store.db == EmptyDb
    ensures forall row :: !CanInsert(session.engine.store.db, row)
  {
    CreateDbAndTablesOn(registry, false);
    session := EnterAsyncSession(registry);
  }
}
