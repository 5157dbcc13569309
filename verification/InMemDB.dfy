/** The in-memory database without Redis, one table of it, changed in place. Its methods are
    proved against the functions of WriteBehind and LoadShedding. */
module InMemDB {
  import opened WriteBehind
  import opened LoadShedding

  class InMemDB {
    const agentsTable: bool
    const limitWaitingFlushes: nat
    const longTimeout: nat
    const shortTimeout: nat
    var table: Table
    var tableBuffer: Table
    var pendingPromises: int
    var lostUpdates: int
    var updateTimeout: nat
    ghost var queue: seq<Table>
    ghost var database: Table
    ghost var stamped: bool
    ghost var traffic: Gate<Key>

    ghost function Contents(): Cache
      reads `table, `tableBuffer, `queue, `database, `stamped
    {
      Cache(agentsTable, table, tableBuffer, queue, database, stamped)
    }

    /** The recorded traffic agrees with the counters the code keeps. */
    ghost predicate Valid()
      reads `traffic, `pendingPromises, `lostUpdates, `updateTimeout
    {
      && traffic.limit == limitWaitingFlushes
      && traffic.longTimeout == longTimeout && traffic.shortTimeout == shortTimeout
      && traffic.pending == pendingPromises && traffic.lost == lostUpdates && traffic.timeout == updateTimeout
    }

    constructor (agentsTable: bool, longTimeout: nat, shortTimeout: nat, limitWaitingFlushes: nat,
                 ghost database: Table)
      ensures Contents() == Cache(agentsTable, map[], map[], [], database, true) && Mirrors(Contents())
      ensures Valid() && traffic == Fresh(limitWaitingFlushes, longTimeout, shortTimeout)
    {
      this.agentsTable, this.limitWaitingFlushes := agentsTable, limitWaitingFlushes;
      this.longTimeout, this.shortTimeout, updateTimeout := longTimeout, shortTimeout, longTimeout;
      table, tableBuffer, pendingPromises, lostUpdates := map[], map[], 0, 0;
      queue, this.database, stamped := [], database, true;
      traffic := Fresh(limitWaitingFlushes, longTimeout, shortTimeout);
    }

    method UpdateBuffer(key: Key, data: Row, timeStamp: int)
      modifies `tableBuffer
      ensures tableBuffer == old(tableBuffer)[key := Entry(old(tableBuffer), key, map[]) + data[STAMP := timeStamp]]
    {
      var stampedData := data[STAMP := timeStamp];
      if key in tableBuffer {
        tableBuffer := tableBuffer[key := tableBuffer[key] + stampedData];
      } else {
        tableBuffer := tableBuffer[key := stampedData];
        assert map[] + stampedData == stampedData;
      }
    }

    /** A buffered update; the result says whether it will reach the database. */
    method Update(c: Change) returns (buffered: bool)
      modifies `table, `tableBuffer, `stamped
      ensures Contents() == WriteBehind.Update(old(Contents()), c)
      ensures IsUpdated(old(Contents()), c, Contents()) && buffered == (c.storeTime - c.msgTime < 100)
    {
      UpdateMeans(Contents(), c);
      hide IsUpdated;
      var data := c.data;
      if STAMP !in data { data := data[STAMP := c.storeTime]; }
      var row := if c.key in table then table[c.key] else map[STAMP := c.storeTime];
      row := row + data;
      table := table[c.key := row];
      stamped := stamped && data[STAMP] == c.storeTime;
      if "id" in row { data := data["id" := row["id"]]; }
      if c.storeTime - c.msgTime < MAX_DELAY {
        UpdateBuffer(c.key, data, c.storeTime);
        return true;
      }
      return false;
    }

    method Delete(key: Key)
      modifies `table, `tableBuffer
      ensures Contents() == WriteBehind.Delete(old(Contents()), key)
    {
      table := table - {key};
      tableBuffer := tableBuffer - {key};
    }

    method DynamicallyChooseTimeout()
      requires Valid()
      modifies `updateTimeout, `traffic
      ensures Valid() && traffic == Choose(old(traffic))
    {
      traffic := Choose(traffic);
      if pendingPromises > limitWaitingFlushes {
        if updateTimeout == longTimeout {
          updateTimeout := shortTimeout;
          return;
        }
      }
      if pendingPromises < HalfLimit(limitWaitingFlushes) {
        if updateTimeout == shortTimeout { updateTimeout := longTimeout; }
      }
    }

    /** Hands a flush to the database or sheds it; `rows` are the keys of its rows. */
    method DispatchUpdatePromise(numberUpdates: nat, ghost rows: multiset<Key>) returns (dispatched: bool)
      requires Valid() && numberUpdates == |rows|
      modifies `pendingPromises, `lostUpdates, `traffic
      ensures Valid() && traffic == Dispatch(old(traffic), rows)
      ensures dispatched == (old(pendingPromises) <= 2 * limitWaitingFlushes)
    {
      traffic := Dispatch(traffic, rows);
      if pendingPromises > 2 * limitWaitingFlushes {
        lostUpdates := lostUpdates + numberUpdates;
        return false;
      }
      pendingPromises := pendingPromises + 1;
      return true;
    }

    method PrepareRow(key: Key, buffered: Row, stats: map<Key, Rates>) returns (row: Row)
      ensures row == Prepared(agentsTable, key, buffered, stats)
    {
      row := buffered;
      if key in stats { row := row["msg_per_sec" := stats[key].msgPerSec]["updt_per_sec" := stats[key].updtPerSec]; }
      row := row - {"status", "resources", "yard_id"};
      if !agentsTable { row := row - {"updt_per_sec", "msg_per_sec", "_leaderAgents"}; }
    }

    /** The rows of a flush: every buffered row once. */
    method PrepareRows(bufferedData: Table, stats: map<Key, Rates>) returns (objArray: seq<Row>)
      ensures |objArray| == |bufferedData|
      ensures forall key :: key in bufferedData ==> Prepared(agentsTable, key, bufferedData[key], stats) in objArray
    {
      hide Prepared;
      objArray := [];
      var keys := bufferedData.Keys;
      while keys != {}
        invariant keys <= bufferedData.Keys && |objArray| == |bufferedData.Keys| - |keys|
        invariant forall key :: key in bufferedData && key !in keys ==>
          Prepared(agentsTable, key, bufferedData[key], stats) in objArray
        decreases |keys|
      {
        var key :| key in keys;
        var row := PrepareRow(key, bufferedData[key], stats);
        objArray := objArray + [row];
        keys := keys - {key};
      }
    }

    /** A flush: every buffered row is prepared and handed over once, or all are shed. */
    method Flush(stats: map<Key, Rates>) returns (objArray: seq<Row>)
      requires Valid()
      modifies `tableBuffer, `queue, `pendingPromises, `lostUpdates, `updateTimeout, `traffic
      ensures |objArray| == |old(tableBuffer)|
      ensures forall key :: key in old(tableBuffer) ==>
        Prepared(agentsTable, key, old(tableBuffer)[key], stats) in objArray
      ensures Valid()
      ensures var chosen := Choose(old(traffic));
        traffic == if objArray == [] then chosen else Dispatch(chosen, multiset(old(tableBuffer).Keys))
      ensures Contents() == if old(pendingPromises) > 2 * limitWaitingFlushes then old(Contents()).(buffer := map[])
                            else WriteBehind.Flush(old(Contents()), stats)
    {
      hide Prepared, Batch, Choose, Dispatch;
      DynamicallyChooseTimeout();
      var bufferedData := tableBuffer;
      tableBuffer := map[];
      objArray := PrepareRows(bufferedData, stats);
      assert |multiset(bufferedData.Keys)| == |bufferedData.Keys|;
      if objArray != [] {
        var dispatched := DispatchUpdatePromise(|objArray|, multiset(bufferedData.Keys));
        if dispatched { queue := queue + [Batch(old(Contents()), stats)]; }
      }
    }

    /** The oldest flush settles with its rows written. */
    method Settled()
      requires Valid() && traffic.inFlight > 0 && queue != []
      modifies `pendingPromises, `traffic, `queue, `database
      ensures Valid() && traffic == Settle(old(traffic))
      ensures Contents() == Land(old(Contents()))
    {
      traffic := Settle(traffic);
      pendingPromises := pendingPromises - 1;
      database, queue := Landed(database, queue[0]), queue[1..];
    }
  }
}
