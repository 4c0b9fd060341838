/**
 * The three tables of the persistence layer as one in-memory value: which
 * tables exist, and the rows of threads, messages and llm_calls keyed by
 * their primary keys.  The ORM relationships are queries over this value,
 * and the declared foreign keys are the invariant `Integrity`.
 */
module Tables {
  import opened Wrappers

  /** `str(uuid.uuid4())`, the primary key of threads. */
  type ThreadId = string
  /** A `uuid.UUID`, the primary key of messages and llm_calls. */
  type Uuid = nat
  /** A value of `utc_now()`. */
  type Time = int

  /** A JSON document, as stored in the JSON columns. */
  datatype Json =
    | JNull
    | JBool(b: bool)
    | JNumber(n: int)
    | JString(s: string)
    | JArray(items: seq<Json>)
    | JObject(fields: map<string, Json>)

  /** A table the database may hold; `Other` is one that these models do not declare. */
  datatype Table = Threads | Messages | LLMCalls | Other(name: string)

  /** The tables `Base.metadata` declares. */
  const ModelTables: set<Table> := {Threads, Messages, LLMCalls}

  /** A row of `threads`. */
  datatype ThreadRow = ThreadRow(id: ThreadId, parentThreadId: Option<ThreadId>, createdAt: Time)

  /** A row of `messages`. */
  datatype MessageRow = MessageRow(
    id: Uuid, threadId: ThreadId, llmCallId: Option<Uuid>, message: Json, timestamp: Time)

  /** A row of `llm_calls`. */
  datatype LLMCallRow = LLMCallRow(
    id: Uuid, threadId: ThreadId, model: string, prompt: Json, cost: Json, timestamp: Time)

  /** A row handed to a session for insertion. */
  datatype Row = ThreadEntry(thread: ThreadRow) | MessageEntry(message: MessageRow) | LLMCallEntry(call: LLMCallRow)

  /** The contents of the database file. */
  datatype Db = Db(
    tables: set<Table>,
    threads: map<ThreadId, ThreadRow>,
    messages: map<Uuid, MessageRow>,
    llmCalls: map<Uuid, LLMCallRow>)

  /** A database file with no tables at all. */
  const EmptyDb: Db := Db({}, map[], map[], map[])

  /** Rows are stored under their own primary key, and only in tables that exist. */
  ghost predicate WellFormed(db: Db) {
    && (forall t :: t in db.threads ==> db.threads[t].id == t)
    && (forall m :: m in db.messages ==> db.messages[m].id == m)
    && (forall c :: c in db.llmCalls ==> db.llmCalls[c].id == c)
    && (Threads !in db.tables ==> db.threads == map[])
    && (Messages !in db.tables ==> db.messages == map[])
    && (LLMCalls !in db.tables ==> db.llmCalls == map[])
  }

  /** The declared foreign keys hold. */
  ghost predicate ForeignKeysHold(db: Db) {
    && (forall t :: t in db.threads && db.threads[t].parentThreadId.Some? ==>
          db.threads[t].parentThreadId.value in db.threads)
    && (forall m :: m in db.messages ==> db.messages[m].threadId in db.threads)
    && (forall m :: m in db.messages && db.messages[m].llmCallId.Some? ==>
          db.messages[m].llmCallId.value in db.llmCalls)
    && (forall c :: c in db.llmCalls ==> db.llmCalls[c].threadId in db.threads)
  }

  /**
   * `rank` orders the threads so that every parent comes before its
   * children: following parent links always reaches a root.
   */
  ghost predicate IsRanking(db: Db, rank: map<ThreadId, nat>) {
    && rank.Keys == db.threads.Keys
    && forall t ::
         (t in db.threads && db.threads[t].parentThreadId.Some? && db.threads[t].parentThreadId.value in rank)
         ==> rank[db.threads[t].parentThreadId.value] < rank[t]
  }

  /** The parent links form a forest. */
  ghost predicate Forest(db: Db) {
    exists rank :: IsRanking(db, rank)
  }

  /** The store invariant. */
  ghost predicate Integrity(db: Db) {
    WellFormed(db) && ForeignKeysHold(db) && Forest(db)
  }

  lemma EmptyDbIntegrity()
    ensures Integrity(EmptyDb)
  {
    assert IsRanking(EmptyDb, map[]);
  }

  // ---------------------------------------------------------------------
  // Schema

  /**
   * `Base.metadata.create_all`: the declared tables that are missing are
   * created empty; tables that exist, and their rows, are left alone.
   */
  function CreateAll(db: Db): (r: Db)
    requires WellFormed(db)
    ensures r.tables == db.tables + ModelTables
    ensures r.threads == db.threads && r.messages == db.messages && r.llmCalls == db.llmCalls
    ensures WellFormed(r)
    ensures Integrity(db) ==> Integrity(r)
  {
    var r := db.(tables := db.tables + ModelTables);
    assert IsRanking(db, RankingOf(db)) ==> IsRanking(r, RankingOf(db)) by {
      assert r.threads == db.threads;
    }
    r
  }

  /** A ranking of `db`'s threads when one exists (the empty map otherwise). */
  ghost function RankingOf(db: Db): map<ThreadId, nat> {
    if Forest(db) then var rank :| IsRanking(db, rank); rank else map[]
  }

  /**
   * `Base.metadata.drop_all`: the declared tables and all their rows are
   * gone; tables the models do not declare stay.
   */
  function DropAll(db: Db): (r: Db)
    ensures r.tables == db.tables - ModelTables
    ensures r.threads == map[] && r.messages == map[] && r.llmCalls == map[]
    ensures Integrity(r)
  {
    var r := Db(db.tables - ModelTables, map[], map[], map[]);
    assert IsRanking(r, map[]);
    r
  }

  /**
   * `ensure_tables_exist`: on a database without any table, the three
   * tables are created empty; a database with any table at all, declared
   * or not, is left as it is.
   */
  function EnsureTables(db: Db): (r: Db)
    requires WellFormed(db)
    ensures db.tables == {} ==>
      r == Db(ModelTables, map[], map[], map[])
    ensures db.tables != {} ==> r == db
    ensures Integrity(db) ==> Integrity(r)
  {
    if db.tables == {} then CreateAll(db) else db
  }

  /** `ensure_tables_exist` twice is `ensure_tables_exist` once. */
  lemma EnsureTablesIdempotent(db: Db)
    requires WellFormed(db)
    ensures WellFormed(EnsureTables(db)) && EnsureTables(EnsureTables(db)) == EnsureTables(db)
  {
  }

  /**
   * `create_db_and_tables(force=force)`: afterwards the three tables exist;
   * with `force` they are empty and without it no row is lost.
   */
  function CreateDbAndTables(db: Db, force: bool): (r: Db)
    requires WellFormed(db)
    ensures ModelTables <= r.tables
    ensures r.tables - ModelTables == db.tables - ModelTables
    ensures force ==> r.threads == map[] && r.messages == map[] && r.llmCalls == map[]
    ensures !force ==> r == CreateAll(db)
    ensures !force ==> r.threads == db.threads && r.messages == db.messages && r.llmCalls == db.llmCalls
    ensures force || Integrity(db) ==> Integrity(r)
  {
    CreateAll(if force then DropAll(db) else db)
  }

  // ---------------------------------------------------------------------
  // Inserting rows

  /**
   * What a flush of `row` demands: its table exists, its primary key is new,
   * and the rows it refers to exist.
   */
  ghost predicate CanInsert(db: Db, row: Row) {
    match row
    case ThreadEntry(t) =>
      && Threads in db.tables
      && t.id !in db.threads
      && (t.parentThreadId.Some? ==> t.parentThreadId.value in db.threads)
    case MessageEntry(m) =>
      && Messages in db.tables
      && m.id !in db.messages
      && m.threadId in db.threads
      && (m.llmCallId.Some? ==> m.llmCallId.value in db.llmCalls)
    case LLMCallEntry(c) =>
      && LLMCalls in db.tables
      && c.id !in db.llmCalls
      && c.threadId in db.threads
  }

  /** The primary key a row is stored under, with its table. */
  datatype RowKey = ThreadKey(threadId: ThreadId) | MessageKey(messageId: Uuid) | LLMCallKey(callId: Uuid)

  /** The key of `row`. */
  function KeyOf(row: Row): RowKey {
    match row
    case ThreadEntry(t) => ThreadKey(t.id)
    case MessageEntry(m) => MessageKey(m.id)
    case LLMCallEntry(c) => LLMCallKey(c.id)
  }

  /** `session.get(...)`: the row stored under key `k`, if any. */
  function Lookup(db: Db, k: RowKey): Option<Row> {
    match k
    case ThreadKey(id) => if id in db.threads then Some(ThreadEntry(db.threads[id])) else None
    case MessageKey(id) => if id in db.messages then Some(MessageEntry(db.messages[id])) else None
    case LLMCallKey(id) => if id in db.llmCalls then Some(LLMCallEntry(db.llmCalls[id])) else None
  }

  /**
   * The database after `row` is inserted: the row is found under its key,
   * every other key finds what it found before, and no table is created.
   */
  function Insert(db: Db, row: Row): (r: Db)
    ensures r.tables == db.tables
    ensures Lookup(r, KeyOf(row)) == Some(row)
    ensures forall k :: k != KeyOf(row) ==> Lookup(r, k) == Lookup(db, k)
  {
    match row
    case ThreadEntry(t) => db.(threads := db.threads[t.id := t])
    case MessageEntry(m) => db.(messages := db.messages[m.id := m])
    case LLMCallEntry(c) => db.(llmCalls := db.llmCalls[c.id := c])
  }

  /** Each of `rows`, in order, can be inserted after the ones before it. */
  ghost predicate CanInsertAll(db: Db, rows: seq<Row>)
    decreases |rows|
  {
    rows == [] || (CanInsert(db, rows[0]) && CanInsertAll(Insert(db, rows[0]), rows[1..]))
  }

  /**
   * The database after `rows` are inserted one after the other: a key no
   * row has finds what it found before, the last row is found under its
   * key, and no table is created.
   */
  function InsertAll(db: Db, rows: seq<Row>): (r: Db)
    ensures r.tables == db.tables
    ensures forall k :: (forall i :: 0 <= i < |rows| ==> KeyOf(rows[i]) != k) ==> Lookup(r, k) == Lookup(db, k)
    ensures rows != [] ==> Lookup(r, KeyOf(rows[|rows| - 1])) == Some(rows[|rows| - 1])
    decreases |rows|
  {
    if rows == [] then db
    else
      assert forall i :: 0 <= i < |rows[1..]| ==> rows[1..][i] == rows[i + 1];
      InsertAll(Insert(db, rows[0]), rows[1..])
  }

  /**
   * When a commit of `rows` is allowed, every row has a key not yet in use,
   * and afterwards every row is found under its key: no row of the batch
   * overwrites another.
   */
  lemma {:induction false} InsertAllStoresEach(db: Db, rows: seq<Row>)
    requires CanInsertAll(db, rows)
    ensures forall i :: 0 <= i < |rows| ==> Lookup(db, KeyOf(rows[i])).None?
    ensures forall i :: 0 <= i < |rows| ==> Lookup(InsertAll(db, rows), KeyOf(rows[i])) == Some(rows[i])
    decreases |rows|
  {
    if rows != [] {
      var db1 := Insert(db, rows[0]);
      var rest := rows[1..];
      InsertAllStoresEach(db1, rest);
      assert Lookup(db, KeyOf(rows[0])).None?;
      forall i | 1 <= i < |rows|
        ensures KeyOf(rows[i]) != KeyOf(rows[0]) && Lookup(db, KeyOf(rows[i])).None?
      {
        assert rows[i] == rest[i - 1];
      }
      assert forall i :: 0 <= i < |rest| ==> KeyOf(rest[i]) != KeyOf(rows[0]) by {
        forall i | 0 <= i < |rest| ensures KeyOf(rest[i]) != KeyOf(rows[0]) {
          assert rest[i] == rows[i + 1];
        }
      }
      forall i | 1 <= i < |rows|
        ensures Lookup(InsertAll(db, rows), KeyOf(rows[i])) == Some(rows[i])
      {
        assert rows[i] == rest[i - 1];
      }
    }
  }

  // ---------------------------------------------------------------------
  // Flush order

  /**
   * Where a row comes in a flush. The relationships of `DBMessage` make
   * threads and llm_calls go before messages; threads are put before
   * llm_calls.
   */
  function FlushRank(row: Row): nat {
    match row
    case ThreadEntry(_) => 0
    case LLMCallEntry(_) => 1
    case MessageEntry(_) => 2
  }

  /** The rows of rank `k`, in the order they were added. */
  function OfRank(rows: seq<Row>, k: nat): (r: seq<Row>)
    ensures forall i :: 0 <= i < |r| ==> FlushRank(r[i]) == k
    decreases |rows|
  {
    if rows == [] then []
    else (if FlushRank(rows[0]) == k then [rows[0]] else []) + OfRank(rows[1..], k)
  }

  /** The order in which a flush inserts the rows added to a session. */
  function FlushOrder(rows: seq<Row>): seq<Row> {
    OfRank(rows, 0) + OfRank(rows, 1) + OfRank(rows, 2)
  }

  /** Selecting by rank distributes over concatenation. */
  lemma {:induction false} OfRankAppend(a: seq<Row>, b: seq<Row>, k: nat)
    ensures OfRank(a + b, k) == OfRank(a, k) + OfRank(b, k)
    decreases |a|
  {
    if a != [] {
      var head := if FlushRank(a[0]) == k then [a[0]] else [];
      assert (a + b)[0] == a[0];
      assert (a + b)[1..] == a[1..] + b;
      OfRankAppend(a[1..], b, k);
      calc {
        OfRank(a + b, k);
        head + OfRank(a[1..] + b, k);
        head + (OfRank(a[1..], k) + OfRank(b, k));
        (head + OfRank(a[1..], k)) + OfRank(b, k);
      }
    } else {
      assert a + b == b;
    }
  }

  /** Selecting twice by rank. */
  lemma {:induction false} OfRankOfRank(rows: seq<Row>, j: nat, k: nat)
    ensures OfRank(OfRank(rows, j), k) == if j == k then OfRank(rows, j) else []
    decreases |rows|
  {
    if rows != [] {
      var head := if FlushRank(rows[0]) == j then [rows[0]] else [];
      OfRankAppend(head, OfRank(rows[1..], j), k);
      OfRankOfRank(rows[1..], j, k);
      if head != [] {
        assert head[1..] == [];
      }
    }
  }

  /** One row is selected under its own rank and no other. */
  lemma OfRankSingle(row: Row, k: nat)
    ensures OfRank([row], k) == if FlushRank(row) == k then [row] else []
  {
    assert [row][1..] == [];
  }

  /** The three ranks together hold every row exactly as often as it was added. */
  lemma {:induction false} OfRankPartition(rows: seq<Row>)
    ensures multiset(OfRank(rows, 0)) + multiset(OfRank(rows, 1)) + multiset(OfRank(rows, 2)) == multiset(rows)
    decreases |rows|
  {
    if rows != [] {
      var rest := rows[1..];
      assert rows == [rows[0]] + rest;
      OfRankPartition(rest);
      OfRankAppend([rows[0]], rest, 0);
      OfRankAppend([rows[0]], rest, 1);
      OfRankAppend([rows[0]], rest, 2);
      OfRankSingle(rows[0], 0);
      OfRankSingle(rows[0], 1);
      OfRankSingle(rows[0], 2);
      assert multiset(OfRank([rows[0]], 0)) + multiset(OfRank([rows[0]], 1)) + multiset(OfRank([rows[0]], 2))
        == multiset([rows[0]]);
    }
  }

  /** A flush inserts exactly the added rows: the flush order is a permutation. */
  lemma FlushOrderPermutes(rows: seq<Row>)
    ensures multiset(FlushOrder(rows)) == multiset(rows)
    ensures |FlushOrder(rows)| == |rows|
  {
    OfRankPartition(rows);
    assert |multiset(FlushOrder(rows))| == |multiset(rows)|;
  }

  /** In flush order no row comes before a row of lower rank. */
  lemma FlushOrderSorted(rows: seq<Row>)
    ensures forall i, j :: 0 <= i < j < |FlushOrder(rows)| ==> FlushRank(FlushOrder(rows)[i]) <= FlushRank(FlushOrder(rows)[j])
  {
    var a, b, c := OfRank(rows, 0), OfRank(rows, 1), OfRank(rows, 2);
    var r := FlushOrder(rows);
    forall i | 0 <= i < |r|
      ensures FlushRank(r[i]) == if i < |a| then 0 else if i < |a| + |b| then 1 else 2
    {
      if i < |a| {
        assert r[i] == a[i];
      } else if i < |a| + |b| {
        assert r[i] == b[i - |a|];
      } else {
        assert r[i] == c[i - |a| - |b|];
      }
    }
  }

  /** Within one table, a flush keeps the order in which rows were added. */
  lemma FlushOrderKeepsTableOrder(rows: seq<Row>, k: nat)
    ensures OfRank(FlushOrder(rows), k) == OfRank(rows, k)
  {
    OfRankAppend(OfRank(rows, 0) + OfRank(rows, 1), OfRank(rows, 2), k);
    OfRankAppend(OfRank(rows, 0), OfRank(rows, 1), k);
    OfRankOfRank(rows, 0, k);
    OfRankOfRank(rows, 1, k);
    OfRankOfRank(rows, 2, k);
    if k > 2 {
      assert OfRank(rows, k) == [] by {
        OfRankNone(rows, k);
      }
    }
  }

  /** No row has a rank above 2. */
  lemma {:induction false} OfRankNone(rows: seq<Row>, k: nat)
    requires k > 2
    ensures OfRank(rows, k) == []
    decreases |rows|
  {
    if rows != [] {
      OfRankNone(rows[1..], k);
    }
  }

  /** A single added row is flushed on its own. */
  lemma FlushOrderSingle(row: Row)
    ensures FlushOrder([row]) == [row]
  {
    OfRankSingle(row, 0);
    OfRankSingle(row, 1);
    OfRankSingle(row, 2);
  }

  /**
   * A message added before the new thread it belongs to is committed: the
   * flush inserts the thread first. In the order of adding, the same batch
   * would be refused.
   */
  lemma MessageBeforeItsThread(t: ThreadRow, m: MessageRow)
    requires t.parentThreadId.None? && m.threadId == t.id && m.llmCallId.None?
    ensures var db := Db(ModelTables, map[], map[], map[]);
      && CanInsertAll(db, FlushOrder([MessageEntry(m), ThreadEntry(t)]))
      && !CanInsertAll(db, [MessageEntry(m), ThreadEntry(t)])
  {
    var rows := [MessageEntry(m), ThreadEntry(t)];
    assert rows == [MessageEntry(m)] + [ThreadEntry(t)];
    OfRankAppend([MessageEntry(m)], [ThreadEntry(t)], 0);
    OfRankAppend([MessageEntry(m)], [ThreadEntry(t)], 1);
    OfRankAppend([MessageEntry(m)], [ThreadEntry(t)], 2);
    OfRankSingle(MessageEntry(m), 0);
    OfRankSingle(MessageEntry(m), 1);
    OfRankSingle(MessageEntry(m), 2);
    OfRankSingle(ThreadEntry(t), 0);
    OfRankSingle(ThreadEntry(t), 1);
    OfRankSingle(ThreadEntry(t), 2);
    var db := Db(ModelTables, map[], map[], map[]);
    assert FlushOrder(rows) == [ThreadEntry(t), MessageEntry(m)];
    assert [ThreadEntry(t), MessageEntry(m)][1..] == [MessageEntry(m)];
    assert CanInsertAll(Insert(Insert(db, ThreadEntry(t)), MessageEntry(m)), []);
  }

  /** A commit of `rows + [row]` is a commit of `rows` followed by the insert of `row`. */
  lemma {:induction false} InsertAllAppend(db: Db, rows: seq<Row>, row: Row)
    ensures InsertAll(db, rows + [row]) == Insert(InsertAll(db, rows), row)
    ensures CanInsertAll(db, rows + [row]) <==> CanInsertAll(db, rows) && CanInsert(InsertAll(db, rows), row)
    decreases |rows|
  {
    if rows == [] {
      assert [row][1..] == [];
    } else {
      assert (rows + [row])[1..] == rows[1..] + [row];
      InsertAllAppend(Insert(db, rows[0]), rows[1..], row);
    }
  }

  /** A commit never removes a key or a table. */
  lemma {:induction false} InsertAllGrows(db: Db, rows: seq<Row>)
    ensures var r := InsertAll(db, rows);
      && db.threads.Keys <= r.threads.Keys
      && db.messages.Keys <= r.messages.Keys
      && db.llmCalls.Keys <= r.llmCalls.Keys
      && r.tables == db.tables
    decreases |rows|
  {
    if rows != [] {
      InsertAllGrows(Insert(db, rows[0]), rows[1..]);
    }
  }

  /** Inserting a new thread keeps a forest: a ranking extends to the new row. */
  lemma InsertThreadKeepsForest(db: Db, t: ThreadRow)
    requires WellFormed(db) && ForeignKeysHold(db) && Forest(db)
    requires CanInsert(db, ThreadEntry(t))
    ensures Forest(Insert(db, ThreadEntry(t)))
  {
    var rank :| IsRanking(db, rank);
    var r := Insert(db, ThreadEntry(t));
    var level: nat := if t.parentThreadId.Some? then rank[t.parentThreadId.value] + 1 else 0;
    var rank' := rank[t.id := level];
    forall u | u in r.threads && r.threads[u].parentThreadId.Some? && r.threads[u].parentThreadId.value in rank'
      ensures rank'[r.threads[u].parentThreadId.value] < rank'[u]
    {
      if u != t.id {
        assert r.threads[u] == db.threads[u];
        assert r.threads[u].parentThreadId.value in db.threads;
      }
    }
    assert IsRanking(r, rank');
  }

  /** Inserting a row the store accepts keeps the store invariant. */
  lemma InsertKeepsIntegrity(db: Db, row: Row)
    requires Integrity(db) && CanInsert(db, row)
    ensures Integrity(Insert(db, row))
    ensures Insert(db, row).tables == db.tables
  {
    var r := Insert(db, row);
    match row
    case ThreadEntry(t) =>
      InsertThreadKeepsForest(db, t);
    case MessageEntry(m) =>
      var rank :| IsRanking(db, rank);
      assert IsRanking(r, rank);
    case LLMCallEntry(c) =>
      var rank :| IsRanking(db, rank);
      assert IsRanking(r, rank);
  }

  /** A commit of rows the store accepts keeps the store invariant. */
  lemma {:induction false} InsertAllKeepsIntegrity(db: Db, rows: seq<Row>)
    requires Integrity(db) && CanInsertAll(db, rows)
    ensures Integrity(InsertAll(db, rows))
    ensures InsertAll(db, rows).tables == db.tables
    decreases |rows|
  {
    if rows != [] {
      InsertKeepsIntegrity(db, rows[0]);
      InsertAllKeepsIntegrity(Insert(db, rows[0]), rows[1..]);
    }
  }

  /** Inserting one new thread: the threads table grows by that row, nothing else changes. */
  lemma InsertOneThread(db: Db, t: ThreadRow)
    requires CanInsert(db, ThreadEntry(t))
    ensures var r := InsertAll(db, [ThreadEntry(t)]);
      && r.threads.Keys == db.threads.Keys + {t.id}
      && t.id !in db.threads
      && r.threads[t.id] == t
      && (forall u :: u in db.threads ==> r.threads[u] == db.threads[u])
      && r.tables == db.tables && r.messages == db.messages && r.llmCalls == db.llmCalls
  {
  }

  // ---------------------------------------------------------------------
  // Relationships (`back_populates`), as queries

  /** `DBThread.messages`: the messages whose `thread_id` is `t`. */
  function ThreadMessages(db: Db, t: ThreadId): (r: set<Uuid>)
    ensures r <= db.messages.Keys
  {
    set m | m in db.messages && db.messages[m].threadId == t
  }

  /** `DBLLMCall.messages`: the messages whose `llm_call_id` is `c`. */
  function CallMessages(db: Db, c: Uuid): (r: set<Uuid>)
    ensures r <= db.messages.Keys
  {
    set m | m in db.messages && db.messages[m].llmCallId == Some(c)
  }

  /** `DBMessage.thread`: always present, and the message is among its thread's messages. */
  function MessageThread(db: Db, m: Uuid): (t: ThreadRow)
    requires Integrity(db) && m in db.messages
    ensures t.id == db.messages[m].threadId && t.id in db.threads && db.threads[t.id] == t
    ensures m in ThreadMessages(db, t.id)
  {
    db.threads[db.messages[m].threadId]
  }

  /** `DBMessage.llm_call`: present exactly when `llm_call_id` is set, and lists the message back. */
  function MessageCall(db: Db, m: Uuid): (c: Option<LLMCallRow>)
    requires Integrity(db) && m in db.messages
    ensures c.Some? <==> db.messages[m].llmCallId.Some?
    ensures c.Some? ==> c.value.id == db.messages[m].llmCallId.value && m in CallMessages(db, c.value.id)
  {
    match db.messages[m].llmCallId
    case None => None
    case Some(id) => Some(db.llmCalls[id])
  }

  /**
   * `DBThread.messages` and `DBMessage.thread` agree: a message is among a
   * thread's messages exactly when that thread is its thread.
   */
  lemma ThreadMessagesBackPopulates(db: Db, m: Uuid, t: ThreadId)
    requires Integrity(db) && m in db.messages
    ensures m in ThreadMessages(db, t) <==> MessageThread(db, m).id == t
  {
  }

  /**
   * `DBLLMCall.messages` and `DBMessage.llm_call` agree: a message is among
   * a call's messages exactly when that call is its call.
   */
  lemma CallMessagesBackPopulates(db: Db, m: Uuid, c: Uuid)
    requires Integrity(db) && m in db.messages
    ensures m in CallMessages(db, c) <==> c in db.llmCalls && MessageCall(db, m) == Some(db.llmCalls[c])
  {
  }

  /**
   * Inserting a message adds it to its own thread's messages and to no
   * other thread's.
   */
  lemma InsertMessageThreadMessages(db: Db, row: MessageRow, t: ThreadId)
    requires CanInsert(db, MessageEntry(row))
    ensures var r := Insert(db, MessageEntry(row));
      ThreadMessages(r, t) == ThreadMessages(db, t) + (if t == row.threadId then {row.id} else {})
  {
  }

  // ---------------------------------------------------------------------
  // Ancestors

  /** The thread `k` parent links above `t`, if the chain is that long. */
  function Ancestor(db: Db, t: ThreadId, k: nat): Option<ThreadId>
    decreases k
  {
    if k == 0 then Some(t)
    else if t in db.threads && db.threads[t].parentThreadId.Some? then
      Ancestor(db, db.threads[t].parentThreadId.value, k - 1)
    else None
  }

  /** Along parent links the rank strictly decreases. */
  lemma {:induction false} AncestorRankDecreases(db: Db, rank: map<ThreadId, nat>, t: ThreadId, k: nat)
    requires WellFormed(db) && ForeignKeysHold(db) && IsRanking(db, rank)
    requires t in db.threads && k >= 1 && Ancestor(db, t, k).Some?
    ensures Ancestor(db, t, k).value in rank && rank[Ancestor(db, t, k).value] < rank[t]
    decreases k
  {
    var p := db.threads[t].parentThreadId.value;
    assert rank[p] < rank[t];
    if k > 1 {
      AncestorRankDecreases(db, rank, p, k - 1);
    }
  }

  /** In a consistent store no thread is its own ancestor. */
  lemma NoThreadIsItsOwnAncestor(db: Db, t: ThreadId, k: nat)
    requires Integrity(db) && t in db.threads && k >= 1
    ensures Ancestor(db, t, k) != Some(t)
  {
    var rank :| IsRanking(db, rank);
    if Ancestor(db, t, k).Some? {
      AncestorRankDecreases(db, rank, t, k);
    }
  }
}
