/** The write-behind cache of one table, without Redis: updates go to the in-memory table and
    to a buffer, a flush turns the buffer into a queued write, queued writes land in order. */
module WriteBehind {

  type Key = string
  type Field = string
  type Value = int
  type Row = map<Field, Value>
  type Table = map<Key, Row>

  const MAX_DELAY := 100
  const STAMP := "last_message_time"

  datatype Rates = Rates(msgPerSec: Value, updtPerSec: Value)

  /** `stamped` is history: whether every update came without a `last_message_time` of its
      own or with the one it was stored under. */
  datatype Cache = Cache(agents: bool, table: Table, buffer: Table, queue: seq<Table>, db: Table, stamped: bool)

  datatype Change = Change(key: Key, data: Row, storeTime: int, msgTime: int)

  predicate OnTime(c: Change) {
    c.storeTime - c.msgTime < MAX_DELAY
  }

  /** What other handlers write, and what only agents have. */
  function Withheld(agents: bool): set<Field> {
    {"status", "resources", "yard_id"} + if agents then {} else {"updt_per_sec", "msg_per_sec", "_leaderAgents"}
  }

  /** Fields the update statements leave out. */
  const NOT_WRITTEN: set<Field> := {"id", "time_stamp"}

  function Entry(t: Table, key: Key, default: Row): Row {
    if key in t then t[key] else default
  }

  function Stamped(c: Change): Row {
    if STAMP in c.data then c.data else c.data[STAMP := c.storeTime]
  }

  function UpdatedRow(s: Cache, c: Change): Row {
    Entry(s.table, c.key, map[STAMP := c.storeTime]) + Stamped(c)
  }

  /** The data as they enter the buffer: with the row's id and the time of storing. */
  function BufferedData(s: Cache, c: Change): Row {
    var row := UpdatedRow(s, c);
    (if "id" in row then Stamped(c)["id" := row["id"]] else Stamped(c))[STAMP := c.storeTime]
  }

  function Update(s: Cache, c: Change): Cache {
    s.(table := s.table[c.key := UpdatedRow(s, c)],
       buffer := if OnTime(c) then s.buffer[c.key := Entry(s.buffer, c.key, map[]) + BufferedData(s, c)] else s.buffer,
       stamped := s.stamped && Stamped(c)[STAMP] == c.storeTime)
  }

  /** A buffered row on its way to the database. */
  function Prepared(agents: bool, key: Key, row: Row, stats: map<Key, Rates>): Row {
    (if key in stats then row["msg_per_sec" := stats[key].msgPerSec]["updt_per_sec" := stats[key].updtPerSec] else row)
    - Withheld(agents)
  }

  function Batch(s: Cache, stats: map<Key, Rates>): Table {
    map key | key in s.buffer :: Prepared(s.agents, key, s.buffer[key], stats)
  }

  /** A flush whose write is not shed. */
  function Flush(s: Cache, stats: map<Key, Rates>): Cache {
    if s.buffer == map[] then s
    else s.(queue := s.queue + [Batch(s, stats)], buffer := map[])
  }

  function Overlay(below: Row, above: Row): Row {
    below + (above - NOT_WRITTEN)
  }

  function Landed(db: Table, batch: Table): Table {
    map key | key in db :: if key in batch then Overlay(db[key], batch[key]) else db[key]
  }

  function Land(s: Cache): Cache
    requires s.queue != []
  {
    s.(db := Landed(s.db, s.queue[0]), queue := s.queue[1..])
  }

  function Delete(s: Cache, key: Key): Cache {
    s.(table := s.table - {key}, buffer := s.buffer - {key})
  }

  datatype Action = Updates(change: Change) | Flushes(stats: map<Key, Rates>) | Lands | Deletes(key: Key)

  /** Cached rows are rows of the database. */
  predicate Allowed(s: Cache, a: Action) {
    match a
    case Updates(c) => c.key in s.db && OnTime(c)
    case Flushes(_) => true
    case Lands => s.queue != []
    case Deletes(_) => true
  }

  function Apply(s: Cache, a: Action): Cache
    requires Allowed(s, a)
  {
    match a
    case Updates(c) => Update(s, c)
    case Flushes(stats) => Flush(s, stats)
    case Lands => Land(s)
    case Deletes(key) => Delete(s, key)
  }

  predicate IsRun(s: Cache, run: seq<Action>)
    decreases |run|
  {
    run == [] || (Allowed(s, run[0]) && IsRun(Apply(s, run[0]), run[1..]))
  }

  function After(s: Cache, run: seq<Action>): Cache
    requires IsRun(s, run)
    decreases |run|
  {
    if run == [] then s else After(Apply(s, run[0]), run[1..])
  }

  // ------------------------------------------------------------------ what a reader sees

  /** The row once every queued write has landed. */
  function Eventually(row: Row, queue: seq<Table>, key: Key): Row
    decreases |queue|
  {
    if queue == [] then row
    else Eventually(if key in queue[0] then Overlay(row, queue[0][key]) else row, queue[1..], key)
  }

  /** The row once the buffer has been written after all queued writes. */
  function Flushed(s: Cache, key: Key): Row
    requires key in s.db
  {
    var row := Eventually(s.db[key], s.queue, key);
    if key in s.buffer then Overlay(row, s.buffer[key]) else row
  }

  /** The fields that reach the database from here and nowhere else: not the rates, which the
      flush itself sets, and the time stamp only while no update came with another one. */
  predicate IsMirrored(s: Cache, f: Field) {
    !IsKept(s.agents, f) && f != "msg_per_sec" && f != "updt_per_sec" && (f == "last_message_time" ==> s.stamped)
  }

  /** The fields that no write of the cache changes. */
  predicate IsKept(agents: bool, f: Field) {
    || f == "id" || f == "time_stamp" || f == "status" || f == "resources" || f == "yard_id"
    || (!agents && (f == "updt_per_sec" || f == "msg_per_sec" || f == "_leaderAgents"))
  }

  ghost predicate MirrorsField(s: Cache, key: Key, f: Field) {
    key in s.table && f in s.table[key] && IsMirrored(s, f) ==>
      key in s.db && f in Flushed(s, key) && Flushed(s, key)[f] == s.table[key][f]
  }

  ghost predicate Mirrors(s: Cache) {
    && (forall key :: key in s.table || key in s.buffer ==> key in s.db)
    && forall key, f :: MirrorsField(s, key, f)
  }

  // ------------------------------------------------------------------ one field at a time

  /** What a flushed row holds in one field. */
  datatype Cell = Absent | Holds(value: Value)

  function CellOf(row: Row, f: Field): Cell {
    if f in row then Holds(row[f]) else Absent
  }

  function Over(below: Cell, above: Cell): Cell {
    if above.Absent? then below else above
  }

  lemma OverlayCell(below: Row, above: Row, f: Field)
    requires f !in NOT_WRITTEN
    ensures CellOf(Overlay(below, above), f) == Over(CellOf(below, f), CellOf(above, f))
  {
  }

  function QueueCell(queue: seq<Table>, key: Key, f: Field): Cell {
    if queue == [] then Absent
    else
      var last := queue[|queue| - 1];
      Over(QueueCell(queue[..|queue| - 1], key, f), if key in last then CellOf(last[key], f) else Absent)
  }

  lemma {:induction false} QueueCellFront(queue: seq<Table>, key: Key, f: Field)
    requires queue != []
    ensures QueueCell(queue, key, f) ==
      Over(if key in queue[0] then CellOf(queue[0][key], f) else Absent, QueueCell(queue[1..], key, f))
  {
    if |queue| > 1 {
      QueueCellFront(queue[..|queue| - 1], key, f);
      assert queue[1..][..|queue| - 2] == queue[..|queue| - 1][1..];
    }
  }

  lemma {:induction false} EventuallyCell(row: Row, queue: seq<Table>, key: Key, f: Field)
    requires f !in NOT_WRITTEN
    ensures CellOf(Eventually(row, queue, key), f) == Over(CellOf(row, f), QueueCell(queue, key, f))
    decreases |queue|
  {
    if queue != [] {
      var next := if key in queue[0] then Overlay(row, queue[0][key]) else row;
      if key in queue[0] { OverlayCell(row, queue[0][key], f); }
      EventuallyCell(next, queue[1..], key, f);
      QueueCellFront(queue, key, f);
    }
  }

  /** Database, queue and buffer, one over the other. */
  lemma FlushedCell(s: Cache, key: Key, f: Field)
    requires key in s.db && f !in NOT_WRITTEN
    ensures CellOf(Flushed(s, key), f) ==
      Over(Over(CellOf(s.db[key], f), QueueCell(s.queue, key, f)),
           if key in s.buffer then CellOf(s.buffer[key], f) else Absent)
  {
    var row := Eventually(s.db[key], s.queue, key);
    EventuallyCell(s.db[key], s.queue, key, f);
    if key in s.buffer { OverlayCell(row, s.buffer[key], f); }
  }

  // ------------------------------------------------------------------ steps

  lemma PreparedCell(agents: bool, key: Key, row: Row, stats: map<Key, Rates>, f: Field)
    requires f !in Withheld(agents) && f != "msg_per_sec" && f != "updt_per_sec"
    ensures CellOf(Prepared(agents, key, row, stats), f) == CellOf(row, f)
  {
  }

  lemma FlushKeepsCell(s: Cache, stats: map<Key, Rates>, key: Key, f: Field)
    requires key in s.db && IsMirrored(s, f)
    ensures CellOf(Flushed(Flush(s, stats), key), f) == CellOf(Flushed(s, key), f)
  {
    var t := Flush(s, stats);
    FlushedCell(s, key, f);
    FlushedCell(t, key, f);
    if s.buffer != map[] {
      assert t.queue[..|t.queue| - 1] == s.queue;
      if key in s.buffer { PreparedCell(s.agents, key, s.buffer[key], stats, f); }
    }
  }

  lemma LandKeepsCell(s: Cache, key: Key, f: Field)
    requires s.queue != [] && key in s.db && f !in NOT_WRITTEN
    ensures key in Land(s).db && CellOf(Flushed(Land(s), key), f) == CellOf(Flushed(s, key), f)
  {
    var t := Land(s);
    FlushedCell(s, key, f);
    FlushedCell(t, key, f);
    QueueCellFront(s.queue, key, f);
    if key in s.queue[0] { OverlayCell(s.db[key], s.queue[0][key], f); }
  }

  lemma UpdateOtherKey(s: Cache, c: Change, key: Key)
    requires key in s.db && key != c.key
    ensures Flushed(Update(s, c), key) == Flushed(s, key)
  {
  }

  /** An update on time puts the field into buffer and table alike. */
  lemma UpdateCell(s: Cache, c: Change, f: Field)
    requires c.key in s.db && OnTime(c) && f !in NOT_WRITTEN
    ensures var t := Update(s, c); var given := CellOf(BufferedData(s, c), f);
      && CellOf(Flushed(t, c.key), f) == Over(CellOf(Flushed(s, c.key), f), given)
      && (f != STAMP ==> given == CellOf(c.data, f))
      && (f == STAMP ==> given == Holds(c.storeTime))
  {
    FlushedCell(s, c.key, f);
    FlushedCell(Update(s, c), c.key, f);
  }

  lemma UpdatedRowCell(s: Cache, c: Change, f: Field)
    ensures var row := CellOf(UpdatedRow(s, c), f);
      && (f != STAMP ==> row == Over(CellOf(Entry(s.table, c.key, map[]), f), CellOf(c.data, f)))
      && (f == STAMP ==> row == Holds(Stamped(c)[STAMP]))
  {
  }

  /** The row in the table takes the data, and the time of storing where they bring no stamp. */
  ghost predicate IsMerged(s: Cache, c: Change, row: Row) {
    forall f :: CellOf(row, f) ==
      (if f in c.data then Holds(c.data[f])
       else if f == "last_message_time" then Holds(c.storeTime)
       else CellOf(Entry(s.table, c.key, map[]), f))
  }

  /** The buffered row takes them too, always under the time of storing, and the row's id. */
  ghost predicate IsBuffered(s: Cache, c: Change, id: Cell, row: Row) {
    forall f :: CellOf(row, f) ==
      (if f == "last_message_time" then Holds(c.storeTime)
       else if f in c.data then Holds(c.data[f])
       else if f == "id" && id != Absent then id
       else CellOf(Entry(s.buffer, c.key, map[]), f))
  }

  /** An update, field by field: a late one misses the buffer. No other row changes, and nothing
      in the queue or the database. */
  ghost predicate IsUpdated(s: Cache, c: Change, t: Cache) {
    && c.key in t.table && IsMerged(s, c, t.table[c.key])
    && (if c.storeTime - c.msgTime < 100
        then c.key in t.buffer && IsBuffered(s, c, CellOf(t.table[c.key], "id"), t.buffer[c.key])
        else t.buffer == s.buffer)
    && (forall key :: key != c.key ==>
          (key in t.table <==> key in s.table) && (key in t.buffer <==> key in s.buffer)
          && (key in s.table ==> t.table[key] == s.table[key])
          && (key in s.buffer ==> t.buffer[key] == s.buffer[key]))
    && t.queue == s.queue && t.db == s.db && t.agents == s.agents
  }

  lemma MergedMeans(s: Cache, c: Change)
    ensures IsMerged(s, c, UpdatedRow(s, c))
  {
    forall f
      ensures CellOf(UpdatedRow(s, c), f) ==
        (if f in c.data then Holds(c.data[f])
         else if f == "last_message_time" then Holds(c.storeTime)
         else CellOf(Entry(s.table, c.key, map[]), f))
    {
      UpdatedRowCell(s, c, f);
    }
    hide UpdatedRow, Entry;
  }

  lemma BufferedMeans(s: Cache, c: Change)
    ensures IsBuffered(s, c, CellOf(UpdatedRow(s, c), "id"), Entry(s.buffer, c.key, map[]) + BufferedData(s, c))
  {
    var id := CellOf(UpdatedRow(s, c), "id");
    forall f
      ensures CellOf(BufferedData(s, c), f) ==
        (if f == "last_message_time" then Holds(c.storeTime)
         else if f == "id" && id != Absent then id
         else if f in c.data then Holds(c.data[f])
         else Absent)
    {
      hide UpdatedRow;
    }
    MergedMeans(s, c);
    assert "id" in c.data ==> id == Holds(c.data["id"]);
    hide BufferedData, UpdatedRow, Entry;
  }

  lemma UpdateMeans(s: Cache, c: Change)
    ensures IsUpdated(s, c, Update(s, c))
  {
    MergedMeans(s, c);
    BufferedMeans(s, c);
    hide IsMerged, IsBuffered, UpdatedRow, BufferedData, Entry;
  }

  lemma UpdateKeepsMirror(s: Cache, c: Change)
    requires Mirrors(s) && c.key in s.db && OnTime(c)
    ensures Mirrors(Update(s, c))
  {
    var t := Update(s, c);
    forall key, f ensures MirrorsField(t, key, f) {
      assert MirrorsField(s, key, f);
      if key in t.table && f in t.table[key] && IsMirrored(t, f) {
        if key != c.key {
          UpdateOtherKey(s, c, key);
        } else {
          UpdateCell(s, c, f);
          UpdatedRowCell(s, c, f);
        }
      }
    }
  }

  lemma StepKeepsMirror(s: Cache, a: Action)
    requires Mirrors(s) && Allowed(s, a)
    ensures Mirrors(Apply(s, a))
  {
    var t := Apply(s, a);
    match a
    case Updates(c) => UpdateKeepsMirror(s, c);
    case Flushes(stats) =>
      forall key, f ensures MirrorsField(t, key, f) {
        assert MirrorsField(s, key, f);
        if key in s.db && IsMirrored(s, f) { FlushKeepsCell(s, stats, key, f); }
      }
    case Lands =>
      forall key, f ensures MirrorsField(t, key, f) {
        assert MirrorsField(s, key, f);
        if key in s.db && IsMirrored(s, f) { LandKeepsCell(s, key, f); }
      }
    case Deletes(gone) =>
      forall key, f ensures MirrorsField(t, key, f) {
        assert MirrorsField(s, key, f);
        if key != gone && key in s.db { assert Flushed(t, key) == Flushed(s, key); }
      }
  }

  /** Whatever the interleaving of updates, flushes, landings and deletions, the database
      overlaid by the queued writes overlaid by the buffer equals the in-memory table on every
      mirrored field. */
  lemma {:induction false} WriteBehindRefinesTable(s: Cache, run: seq<Action>)
    requires Mirrors(s) && IsRun(s, run)
    ensures Mirrors(After(s, run))
    decreases |run|
  {
    if run != [] {
      StepKeepsMirror(s, run[0]);
      WriteBehindRefinesTable(Apply(s, run[0]), run[1..]);
    }
  }

  // ------------------------------------------------------------------ withheld fields

  ghost predicate Withholds(s: Cache) {
    forall i, key, f :: 0 <= i < |s.queue| && key in s.queue[i] && f in s.queue[i][key] ==> f !in Withheld(s.agents)
  }

  lemma LandKeeps(s: Cache, key: Key, f: Field)
    requires Withholds(s) && s.queue != [] && key in s.db && IsKept(s.agents, f)
    ensures var t := Land(s); Withholds(t) && key in t.db && CellOf(t.db[key], f) == CellOf(s.db[key], f)
  {
    var t := Land(s);
    assert forall i | 0 <= i < |t.queue| :: t.queue[i] == s.queue[i + 1];
    if key in s.queue[0] && f in s.queue[0][key] { assert f !in Withheld(s.agents); }
  }

  /** Whatever is updated and flushed, the ids and time stamps, what other handlers write and,
      but for agents, the rates and `_leaderAgents` stay in the database as they are. */
  lemma {:induction false} WithheldFieldsNeverLand(s: Cache, run: seq<Action>, key: Key, f: Field)
    requires Withholds(s) && IsRun(s, run) && key in s.db && IsKept(s.agents, f)
    ensures var t := After(s, run); Withholds(t) && key in t.db && CellOf(t.db[key], f) == CellOf(s.db[key], f)
    decreases |run|
  {
    if run != [] {
      var t := Apply(s, run[0]);
      if run[0].Lands? { LandKeeps(s, key, f); }
      assert Withholds(t) && key in t.db && CellOf(t.db[key], f) == CellOf(s.db[key], f);
      WithheldFieldsNeverLand(t, run[1..], key, f);
    }
  }

  // ------------------------------------------------------------------ deletions

  /** Row and buffered row are gone, the database is not told. */
  lemma DeleteMeans(s: Cache, key: Key)
    ensures var t := Delete(s, key);
      && key !in t.table && key !in t.buffer && t.queue == s.queue && t.db == s.db
      && (forall k :: k != key ==> (k in t.table <==> k in s.table) && (k in t.buffer <==> k in s.buffer))
      && (forall k :: k in t.table ==> t.table[k] == s.table[k])
      && (forall k :: k in t.buffer ==> t.buffer[k] == s.buffer[k])
  {
  }

  /** Nothing of the row is on its way to the database. */
  ghost predicate IsForgotten(s: Cache, key: Key) {
    key !in s.buffer && forall i :: 0 <= i < |s.queue| ==> key !in s.queue[i]
  }

  lemma ForgottenStep(s: Cache, a: Action, key: Key)
    requires IsForgotten(s, key) && Allowed(s, a) && key in s.db && (a.Updates? ==> a.change.key != key)
    ensures var t := Apply(s, a); IsForgotten(t, key) && key in t.db && t.db[key] == s.db[key]
  {
    if a.Lands? { assert forall i :: 0 <= i < |s.queue| - 1 ==> Land(s).queue[i] == s.queue[i + 1]; }
  }

  /** What was deleted before it was flushed is not written again until it is updated again. */
  lemma {:induction false} ForgottenStaysSo(s: Cache, run: seq<Action>, key: Key)
    requires IsForgotten(s, key) && IsRun(s, run) && key in s.db
    requires forall a :: a in run && a.Updates? ==> a.change.key != key
    ensures var t := After(s, run); IsForgotten(t, key) && key in t.db && t.db[key] == s.db[key]
    decreases |run|
  {
    if run != [] {
      assert run[0] in run;
      ForgottenStep(s, run[0], key);
      ForgottenStaysSo(Apply(s, run[0]), run[1..], key);
    }
  }

  // ------------------------------------------------------------------ what a flush brings

  /** Without another flush the row that the queue leads to stays the same. */
  lemma {:induction false} QueueLeadsOn(s: Cache, run: seq<Action>, key: Key)
    requires IsRun(s, run) && key in s.db && forall a | a in run :: !a.Flushes?
    ensures var t := After(s, run);
      key in t.db && Eventually(t.db[key], t.queue, key) == Eventually(s.db[key], s.queue, key)
    decreases |run|
  {
    if run != [] {
      assert run[0] in run;
      QueueLeadsOn(Apply(s, run[0]), run[1..], key);
    }
  }

  lemma PreparedRates(agents: bool, key: Key, row: Row, stats: map<Key, Rates>, f: Field)
    ensures var cell := CellOf(Prepared(agents, key, row, stats), f);
      if IsKept(agents, f) && f != "id" && f != "time_stamp" then cell == Absent
      else if key in stats && f == "msg_per_sec" then cell == Holds(stats[key].msgPerSec)
      else if key in stats && f == "updt_per_sec" then cell == Holds(stats[key].updtPerSec)
      else cell == CellOf(row, f)
  {
  }

  /** What the database holds of a flushed row once the flush has landed, and all before it:
      the kept fields as they were, an agent's rates from its statistics, and everything else
      from the buffer, or else from the flushes before. */
  function LandedCell(s: Cache, stats: map<Key, Rates>, key: Key, f: Field): Cell
    requires key in s.db && key in s.buffer
  {
    if IsKept(s.agents, f) then CellOf(s.db[key], f)
    else if key in stats && f == "msg_per_sec" then Holds(stats[key].msgPerSec)
    else if key in stats && f == "updt_per_sec" then Holds(stats[key].updtPerSec)
    else Over(Over(CellOf(s.db[key], f), QueueCell(s.queue, key, f)), CellOf(s.buffer[key], f))
  }

  lemma FlushLeadsTo(s: Cache, stats: map<Key, Rates>, key: Key, f: Field)
    requires key in s.db && key in s.buffer && !IsKept(s.agents, f)
    ensures var t := Flush(s, stats); CellOf(Eventually(t.db[key], t.queue, key), f) == LandedCell(s, stats, key, f)
  {
    var t := Flush(s, stats);
    EventuallyCell(t.db[key], t.queue, key, f);
    assert t.queue[..|t.queue| - 1] == s.queue;
    PreparedRates(s.agents, key, s.buffer[key], stats, f);
  }

  lemma FlushLands(s: Cache, stats: map<Key, Rates>, run: seq<Action>, key: Key, f: Field)
    requires Withholds(s) && key in s.db && key in s.buffer
    requires IsRun(Flush(s, stats), run) && (forall a | a in run :: !a.Flushes?)
    requires After(Flush(s, stats), run).queue == []
    ensures var t := After(Flush(s, stats), run);
      key in t.db && CellOf(t.db[key], f) == LandedCell(s, stats, key, f)
  {
    hide Prepared;
    var t := Flush(s, stats);
    QueueLeadsOn(t, run, key);
    if IsKept(s.agents, f) {
      assert IsRun(s, [Flushes(stats)]) && After(s, [Flushes(stats)]) == t by { assert [Flushes(stats)][1..] == []; }
      WithheldFieldsNeverLand(s, [Flushes(stats)], key, f);
      WithheldFieldsNeverLand(t, run, key, f);
    } else {
      FlushLeadsTo(s, stats, key, f);
    }
  }

  // ------------------------------------------------------------------ updates with their own stamp

  /** The table keeps the stamp an update brings, the buffer the time of storing: right after
      an update on time they agree exactly when the two are the same. */
  lemma OwnStampBreaksMirror(s: Cache, c: Change)
    requires c.key in s.db && OnTime(c)
    ensures var t := Update(s, c);
      CellOf(Flushed(t, c.key), STAMP) == CellOf(t.table[c.key], STAMP) <==> Stamped(c)[STAMP] == c.storeTime
  {
    UpdateCell(s, c, STAMP);
    UpdatedRowCell(s, c, STAMP);
  }

  // ------------------------------------------------------------------ late updates

  /** An update the cache loses when it comes late: a position the database does not hold. */
  function Moved(s: Cache, key: Key): Row
    requires key in s.db
  {
    map["x" := if "x" in Flushed(s, key) then Flushed(s, key)["x"] + 1 else 0]
  }

  lemma LateUpdateIsLost(s: Cache, c: Change)
    requires c.key in s.db && !OnTime(c) && c.data == Moved(s, c.key)
    ensures !Mirrors(Update(s, c))
  {
    var t := Update(s, c);
    assert Flushed(t, c.key) == Flushed(s, c.key);
    assert t.table[c.key]["x"] == c.data["x"] && IsMirrored(t, "x");
    assert !MirrorsField(t, c.key, "x");
  }

  /** A buffered update keeps the mirror, whatever it says, exactly when its message was
      stored less than 100 ms after it was sent: the branch that drops late ones loses them. */
  lemma MirrorNeedsPunctuality(s: Cache, c: Change)
    requires Mirrors(s) && c.key in s.db
    ensures (forall data: Row :: Mirrors(Update(s, c.(data := data)))) <==> c.storeTime - c.msgTime < 100
  {
    if OnTime(c) {
      forall data: Row ensures Mirrors(Update(s, c.(data := data))) { UpdateKeepsMirror(s, c.(data := data)); }
    } else {
      LateUpdateIsLost(s, c.(data := Moved(s, c.key)));
    }
  }
}
