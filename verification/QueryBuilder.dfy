/** Conditional updates: from a condition object and a patch to a statement with numbered
    placeholders, and what the statement does to the rows of one table. */
module QueryBuilder {

  type Column = string

  datatype Value = Null | Text(text: string)

  type Row = map<Column, Value>

  /** One key of a condition object; keys ending in `__in` expect a list. */
  datatype Condition =
    | Equals(column: Column, value: string)
    | IsNull(column: Column)
    | In(column: Column, list: seq<string>)
    | NoList(column: Column)

  datatype ListClause = ListClause(column: Column, list: seq<string>)

  datatype Patch = Patch(column: Column, value: Value)

  /** parseConditions: names, values and placeholders of the scalar keys, the other clauses,
      and how many keys with a value were seen. */
  datatype Parsed = Parsed(
    names: seq<Column>, values: seq<Value>, masks: seq<nat>, nulls: seq<Column>,
    ins: seq<ListClause>, seen: nat)

  datatype Statement = Statement(
    setNames: seq<Column>, setMasks: seq<nat>, names: seq<Column>, masks: seq<nat>,
    nulls: seq<Column>, ins: seq<ListClause>, values: seq<Value>)

  datatype Result = NoStatement | Raised | Built(statement: Statement)

  function Parse(conditions: seq<Condition>): (p: Parsed)
    ensures |p.names| == |p.values| == |p.masks|
  {
    if conditions == [] then Parsed([], [], [], [], [], 0)
    else
      var p := Parse(conditions[..|conditions| - 1]);
      match conditions[|conditions| - 1]
      case Equals(column, value) =>
        p.(names := p.names + [column], values := p.values + [Text(value)],
           masks := p.masks + [p.seen + 1], seen := p.seen + 1)
      case IsNull(column) => p.(nulls := p.nulls + [column])
      case In(column, list) => p.(ins := p.ins + [ListClause(column, list)], seen := p.seen + 1)
      case NoList(_) => p
  }

  predicate ListsGiven(conditions: seq<Condition>) {
    forall c | c in conditions :: !c.NoList?
  }

  function WithoutId(patch: seq<Patch>): seq<Patch> {
    if patch == [] then []
    else WithoutId(patch[..|patch| - 1]) + if patch[|patch| - 1].column == "id" then [] else [patch[|patch| - 1]]
  }

  function Columns(patch: seq<Patch>): seq<Column> {
    seq(|patch|, i requires 0 <= i < |patch| => patch[i].column)
  }

  function PatchValues(patch: seq<Patch>): seq<Value> {
    seq(|patch|, i requires 0 <= i < |patch| => patch[i].value)
  }

  function MasksAfter(start: nat, count: nat): seq<nat> {
    seq(count, i requires 0 <= i => start + i + 1)
  }

  function Build(conditions: seq<Condition>, patch: seq<Patch>): Result {
    if patch == [] || conditions == [] then NoStatement
    else if !ListsGiven(conditions) then Raised
    else
      var p := Parse(conditions);
      var kept := WithoutId(patch);
      Built(Statement(Columns(kept), MasksAfter(|p.values|, |kept|), p.names, p.masks, p.nulls, p.ins,
                      p.values + PatchValues(kept)))
  }

  // ------------------------------------------------------------------ what a statement does

  predicate IsWritable(s: Statement) {
    && |s.setNames| == |s.setMasks| > 0 && |s.names| == |s.masks| > 0
    && (forall l | l in s.ins :: l.list != [])
  }

  /** Every placeholder has a value and every value a placeholder. */
  ghost predicate IsAddressed(s: Statement) {
    && (forall m :: m in s.masks + s.setMasks ==> 1 <= m <= |s.values|)
    && (forall k :: 1 <= k <= |s.values| ==> k in s.masks + s.setMasks)
  }

  /** The database accepts the statement. */
  ghost predicate IsValid(s: Statement) {
    IsWritable(s) && IsAddressed(s)
  }

  function Cell(row: Row, column: Column): Value {
    if column in row then row[column] else Null
  }

  ghost predicate Selects(s: Statement, row: Row)
    requires IsValid(s)
  {
    && (forall i {:trigger s.names[i]} :: 0 <= i < |s.names| ==>
          s.masks[i] in s.masks + s.setMasks && Cell(row, s.names[i]) == s.values[s.masks[i] - 1] != Null)
    && (forall c :: c in s.nulls ==> Cell(row, c) == Null)
    && (forall l :: l in s.ins ==> Cell(row, l.column).Text? && Cell(row, l.column).text in l.list)
  }

  /** Assigns the first `count` columns of the statement. */
  ghost function Assign(s: Statement, row: Row, count: nat): Row
    requires IsValid(s) && count <= |s.setNames|
  {
    if count == 0 then row
    else
      assert s.setMasks[count - 1] in s.masks + s.setMasks;
      Assign(s, row, count - 1)[s.setNames[count - 1] := s.values[s.setMasks[count - 1] - 1]]
  }

  ghost function Executed(s: Statement, row: Row): Row
    requires IsValid(s)
  {
    if Selects(s, row) then Assign(s, row, |s.setNames|) else row
  }

  // ------------------------------------------------------------------ what is meant

  predicate Meets(row: Row, c: Condition) {
    match c
    case Equals(column, value) => Cell(row, column) == Text(value)
    case IsNull(column) => Cell(row, column) == Null
    case In(column, list) => Cell(row, column).Text? && Cell(row, column).text in list
    case NoList(_) => false
  }

  predicate MeetsAll(row: Row, conditions: seq<Condition>) {
    forall c | c in conditions :: Meets(row, c)
  }

  function Patched(row: Row, patch: seq<Patch>): Row {
    if patch == [] then row
    else Patched(row, patch[..|patch| - 1])[patch[|patch| - 1].column := patch[|patch| - 1].value]
  }

  /** No list key stands before a scalar key. */
  predicate ScalarsFirst(conditions: seq<Condition>) {
    forall i, j | 0 <= i < j < |conditions| :: conditions[i].In? ==> !conditions[j].Equals?
  }

  predicate SomeScalar(conditions: seq<Condition>) {
    exists c :: c in conditions && c.Equals?
  }

  predicate ListsFilled(conditions: seq<Condition>) {
    forall c | c in conditions :: c.In? ==> c.list != []
  }

  // ------------------------------------------------------------------ placeholders

  /** The placeholders rise, none below its own position, and none above the keys seen. */
  lemma {:induction false} MasksRise(conditions: seq<Condition>)
    ensures var p := Parse(conditions);
      && |p.values| <= p.seen
      && (forall i :: 0 <= i < |p.masks| ==> i + 1 <= p.masks[i] <= p.seen)
      && (forall i, j :: 0 <= i < j < |p.masks| ==> p.masks[i] < p.masks[j])
  {
    if conditions != [] { MasksRise(conditions[..|conditions| - 1]); }
  }

  lemma {:induction false} SeenCounts(conditions: seq<Condition>)
    requires ListsGiven(conditions)
    ensures Parse(conditions).seen == |Parse(conditions).values| <==> forall c :: c in conditions ==> !c.In?
    ensures Parse(conditions).seen >= |Parse(conditions).values|
    ensures Parse(conditions).values != [] <==> SomeScalar(conditions)
  {
    if conditions != [] {
      var front, last := conditions[..|conditions| - 1], conditions[|conditions| - 1];
      SeenCounts(front);
      assert conditions == front + [last];
      if last.Equals? { assert last in conditions; }
      if SomeScalar(front) { var c :| c in front && c.Equals?; assert c in conditions; }
      if SomeScalar(conditions) && !last.Equals? { var c :| c in conditions && c.Equals?; assert c in front; }
    }
  }

  /** Each condition is compared with its own value exactly when the scalar keys come first. */
  lemma {:induction false} OwnPlaceholders(conditions: seq<Condition>)
    requires ListsGiven(conditions)
    ensures var p := Parse(conditions);
      (forall i :: 0 <= i < |p.masks| ==> p.masks[i] == i + 1) <==> ScalarsFirst(conditions)
  {
    if conditions != [] {
      var front, last := conditions[..|conditions| - 1], conditions[|conditions| - 1];
      var p, q := Parse(front), Parse(conditions);
      OwnPlaceholders(front);
      SeenCounts(front);
      assert conditions == front + [last];
      if last.Equals? {
        assert q.masks[|q.masks| - 1] == p.seen + 1;
        assert forall i :: 0 <= i < |p.masks| ==> q.masks[i] == p.masks[i];
        if ScalarsFirst(conditions) {
          forall c | c in front ensures !c.In? {
            var i :| 0 <= i < |front| && front[i] == c;
            assert conditions[i] == c && conditions[|front|] == last;
          }
        }
      }
    }
  }

  lemma AddressedMeans(conditions: seq<Condition>, patch: seq<Patch>)
    requires ListsGiven(conditions) && conditions != [] && patch != []
    ensures IsAddressed(Build(conditions, patch).statement) <==> ScalarsFirst(conditions)
  {
    var p, s := Parse(conditions), Build(conditions, patch).statement;
    OwnPlaceholders(conditions);
    MasksRise(conditions);
    var n := |p.values|;
    if ScalarsFirst(conditions) {
      forall k | 1 <= k <= |s.values| ensures k in s.masks + s.setMasks {
        if k <= n { assert s.masks[k - 1] == k; } else { assert s.setMasks[k - n - 1] == k; }
      }
    } else {
      var i :| 0 <= i < n && p.masks[i] != i + 1;
      LaterMasksShift(conditions, i);
      LostValue(p.masks, n);
      var k :| 1 <= k <= n && k !in p.masks;
      assert k !in s.masks + s.setMasks;
    }
  }

  lemma {:induction false} LaterMasksShift(conditions: seq<Condition>, i: nat)
    requires i < |Parse(conditions).masks| && Parse(conditions).masks[i] != i + 1
    ensures var masks := Parse(conditions).masks; masks[|masks| - 1] > |masks|
  {
    MasksRise(conditions);
    var masks := Parse(conditions).masks;
    var j := i;
    while j < |masks| - 1
      invariant i <= j < |masks| && masks[j] > j + 1
    {
      j := j + 1;
    }
  }

  /** Rising placeholders that run past their number leave some value without one. */
  lemma {:induction false} LostValue(masks: seq<nat>, n: nat)
    requires n == |masks| > 0 && masks[n - 1] > n
    requires forall i :: 0 <= i < n ==> i + 1 <= masks[i]
    requires forall i, j :: 0 <= i < j < n ==> masks[i] < masks[j]
    ensures exists k :: 1 <= k <= n && k !in masks
  {
    var k := n;
    while k in masks
      invariant 1 <= k <= n
      invariant k < n ==> exists i :: 0 <= i < k && masks[i] == k + 1
      decreases k
    {
      var i :| 0 <= i < n && masks[i] == k;
      if k < n {
        var j :| 0 <= j < k && masks[j] == k + 1;
        assert i < j;
      }
      assert i < k - 1;
      k := k - 1;
    }
  }

  // ------------------------------------------------------------------ clauses

  /** The i-th scalar clause of a statement, as a condition. */
  function ScalarClause(p: Parsed, i: nat): Condition
    requires i < |p.names| == |p.values|
  {
    Equals(p.names[i], if p.values[i].Text? then p.values[i].text else "")
  }

  /** Each scalar clause stands for a condition and each scalar condition has its clause. */
  ghost predicate ScalarsOf(p: Parsed, conditions: seq<Condition>) {
    && |p.names| == |p.values|
    && (forall i :: 0 <= i < |p.names| ==>
          ScalarClause(p, i) in conditions && p.values[i] == Text(ScalarClause(p, i).value))
    && (forall c :: c in conditions && c.Equals? ==> exists i :: 0 <= i < |p.names| && ScalarClause(p, i) == c)
  }

  ghost predicate OthersOf(p: Parsed, conditions: seq<Condition>) {
    && (forall n :: n in p.nulls <==> IsNull(n) in conditions)
    && (forall l :: l in p.ins <==> In(l.column, l.list) in conditions)
  }

  lemma MoreScalars(p: Parsed, q: Parsed, front: seq<Condition>, last: Condition)
    requires ScalarsOf(p, front)
    requires if last.Equals? then q.names == p.names + [last.column] && q.values == p.values + [Text(last.value)]
             else q.names == p.names && q.values == p.values
    ensures ScalarsOf(q, front + [last])
  {
    assert forall i :: 0 <= i < |p.names| ==> ScalarClause(q, i) == ScalarClause(p, i) && q.values[i] == p.values[i];
    if last.Equals? { assert ScalarClause(q, |p.names|) == last; }
    forall c | c in front + [last] && c.Equals? ensures exists i :: 0 <= i < |q.names| && ScalarClause(q, i) == c {
      if c in front {
        var i :| 0 <= i < |p.names| && ScalarClause(p, i) == c;
        assert ScalarClause(q, i) == c;
      }
    }
  }

  lemma {:induction false} ParsedClauses(conditions: seq<Condition>)
    ensures ScalarsOf(Parse(conditions), conditions) && OthersOf(Parse(conditions), conditions)
  {
    if conditions != [] {
      var front, last := conditions[..|conditions| - 1], conditions[|conditions| - 1];
      ParsedClauses(front);
      assert conditions == front + [last];
      hide ScalarsOf;
      MoreScalars(Parse(front), Parse(conditions), front, last);
    }
  }

  /** The statement is accepted exactly for conditions with a scalar key, all scalar keys
      before the list keys, no empty list, and a patch that sets more than the id. */
  lemma ValidExactly(conditions: seq<Condition>, patch: seq<Patch>)
    requires ListsGiven(conditions) && conditions != [] && patch != []
    ensures IsValid(Build(conditions, patch).statement) <==>
      && SomeScalar(conditions) && ScalarsFirst(conditions) && ListsFilled(conditions) && WithoutId(patch) != []
  {
    var p, s := Parse(conditions), Build(conditions, patch).statement;
    AddressedMeans(conditions, patch);
    SeenCounts(conditions);
    ParsedClauses(conditions);
    if ListsFilled(conditions) {
      forall l | l in s.ins ensures l.list != [] { assert In(l.column, l.list) in conditions; }
    } else {
      var c :| c in conditions && c.In? && c.list == [];
      assert In(c.column, c.list) == c;
      assert ListClause(c.column, c.list) in s.ins;
    }
    hide IsAddressed;
  }

  /** The statement's clauses are those parsed, each scalar one with its own value. */
  ghost predicate Carries(s: Statement, p: Parsed) {
    && |s.names| == |s.masks| <= |s.values| && s.names == p.names && s.nulls == p.nulls && s.ins == p.ins
    && |p.names| == |p.values|
    && forall i :: 0 <= i < |s.names| ==> s.masks[i] == i + 1 && s.values[i] == p.values[i]
  }

  lemma MeetsSelected(s: Statement, p: Parsed, conditions: seq<Condition>, row: Row)
    requires IsValid(s) && Carries(s, p) && ScalarsOf(p, conditions) && OthersOf(p, conditions)
    requires MeetsAll(row, conditions)
    ensures Selects(s, row)
  {
    hide IsValid;
    forall i {:trigger s.names[i]} | 0 <= i < |s.names|
      ensures s.masks[i] in s.masks + s.setMasks && Cell(row, s.names[i]) == s.values[s.masks[i] - 1] != Null
    {
      assert Meets(row, ScalarClause(p, i));
    }
    forall l | l in s.ins
      ensures Cell(row, l.column).Text? && Cell(row, l.column).text in l.list
    {
      assert Meets(row, In(l.column, l.list));
    }
    forall c | c in s.nulls ensures Cell(row, c) == Null { assert Meets(row, IsNull(c)); }
  }

  lemma SelectedScalar(s: Statement, p: Parsed, row: Row, i: nat)
    requires IsValid(s) && Carries(s, p) && Selects(s, row) && i < |p.names| && p.values[i].Text?
    ensures Meets(row, ScalarClause(p, i))
  {
    assert Cell(row, s.names[i]) == s.values[s.masks[i] - 1];
  }

  lemma SelectedOther(s: Statement, p: Parsed, conditions: seq<Condition>, row: Row, c: Condition)
    requires IsValid(s) && Carries(s, p) && OthersOf(p, conditions)
    requires c in conditions && (c.IsNull? || c.In?) && Selects(s, row)
    ensures Meets(row, c)
  {
    if c.In? {
      assert In(c.column, c.list) == c;
      assert ListClause(c.column, c.list) in s.ins;
    }
  }

  lemma SelectedMeets(s: Statement, p: Parsed, conditions: seq<Condition>, row: Row, c: Condition)
    requires IsValid(s) && Carries(s, p) && ScalarsOf(p, conditions) && OthersOf(p, conditions)
    requires c in conditions && !c.NoList? && Selects(s, row)
    ensures Meets(row, c)
  {
    hide IsValid, Selects, Carries, OthersOf, Meets;
    if c.Equals? {
      var i :| 0 <= i < |p.names| && ScalarClause(p, i) == c;
      SelectedScalar(s, p, row, i);
    } else {
      SelectedOther(s, p, conditions, row, c);
    }
  }

  lemma SelectsMeaning(conditions: seq<Condition>, patch: seq<Patch>, row: Row)
    requires ListsGiven(conditions) && conditions != [] && patch != []
    requires ScalarsFirst(conditions) && IsValid(Build(conditions, patch).statement)
    ensures Selects(Build(conditions, patch).statement, row) <==> MeetsAll(row, conditions)
  {
    var p, s := Parse(conditions), Build(conditions, patch).statement;
    OwnPlaceholders(conditions);
    ParsedClauses(conditions);
    assert Carries(s, p);
    hide IsValid, ScalarsFirst, Selects, Carries, ScalarsOf, OthersOf, Meets;
    if MeetsAll(row, conditions) { MeetsSelected(s, p, conditions, row); }
    if Selects(s, row) {
      forall c | c in conditions ensures Meets(row, c) { SelectedMeets(s, p, conditions, row, c); }
    }
  }

  lemma {:induction false} AssignMeaning(s: Statement, kept: seq<Patch>, row: Row, offset: nat, count: nat)
    requires IsValid(s) && count <= |kept| == |s.setNames| && offset + |kept| == |s.values|
    requires s.setNames == Columns(kept) && s.setMasks == MasksAfter(offset, |kept|)
    requires s.values[offset..] == PatchValues(kept)
    ensures Assign(s, row, count) == Patched(row, kept[..count])
  {
    if count > 0 {
      AssignMeaning(s, kept, row, offset, count - 1);
      assert kept[..count][..count - 1] == kept[..count - 1];
      assert s.values[offset..][count - 1] == kept[count - 1].value;
    }
  }

  /** The patch's values stand behind those of the conditions. */
  lemma PatchIsBehind(conditions: seq<Condition>, patch: seq<Patch>) returns (n: nat)
    requires ListsGiven(conditions) && conditions != [] && patch != []
    ensures Build(conditions, patch).Built?
    ensures var s, kept := Build(conditions, patch).statement, WithoutId(patch);
      && |kept| == |s.setNames| && n + |kept| == |s.values|
      && s.setNames == Columns(kept) && s.setMasks == MasksAfter(n, |kept|) && s.values[n..] == PatchValues(kept)
  {
    var p, kept := Parse(conditions), WithoutId(patch);
    hide Parse, WithoutId;
    n := |p.values|;
    assert (p.values + PatchValues(kept))[n..] == PatchValues(kept);
  }

  /** Query meaning: an accepted statement patches exactly the rows that meet every
      condition, with exactly the values of the patch. */
  lemma QueryMeaning(conditions: seq<Condition>, patch: seq<Patch>, row: Row)
    requires ListsGiven(conditions) && ListsFilled(conditions) && WithoutId(patch) != []
    requires SomeScalar(conditions) && ScalarsFirst(conditions)
    ensures Build(conditions, patch).Built? && IsValid(Build(conditions, patch).statement)
    ensures Executed(Build(conditions, patch).statement, row) ==
      if MeetsAll(row, conditions) then Patched(row, WithoutId(patch)) else row
  {
    assert conditions != [] && patch != [];
    hide Build, SomeScalar, ScalarsFirst, ListsFilled, ListsGiven, IsValid, MeetsAll, Selects, Assign;
    hide Columns, MasksAfter, PatchValues, Patched, WithoutId;
    var kept := WithoutId(patch);
    ValidExactly(conditions, patch);
    SelectsMeaning(conditions, patch, row);
    var n := PatchIsBehind(conditions, patch);
    AssignMeaning(Build(conditions, patch).statement, kept, row, n, |kept|);
    assert kept[..|kept|] == kept;
  }

  ghost predicate DistinctColumns(patch: seq<Patch>) {
    forall i, j :: 0 <= i < j < |patch| ==> patch[i].column != patch[j].column
  }

  predicate Sets(patch: seq<Patch>, f: Column) {
    f != "id" && exists p :: p in patch && p.column == f
  }

  /** Every column named in the patch but `id` has the patch's value, all others their own. */
  ghost predicate IsPatched(row: Row, patch: seq<Patch>, t: Row) {
    && (forall p :: p in patch && p.column != "id" ==> p.column in t && t[p.column] == p.value)
    && (forall f :: !Sets(patch, f) ==> (f in t <==> f in row) && Cell(t, f) == Cell(row, f))
  }

  lemma SetsMore(front: seq<Patch>, last: Patch, f: Column)
    ensures Sets(front + [last], f) <==> Sets(front, f) || (f == last.column && f != "id")
  {
    if f == last.column { assert last in front + [last]; }
    if Sets(front, f) {
      var p :| p in front && p.column == f;
      assert p in front + [last];
    }
  }

  lemma PatchedLast(row: Row, patch: seq<Patch>)
    requires patch != []
    ensures var last, was := patch[|patch| - 1], Patched(row, WithoutId(patch[..|patch| - 1]));
      Patched(row, WithoutId(patch)) == if last.column == "id" then was else was[last.column := last.value]
  {
    var front, kept := WithoutId(patch[..|patch| - 1]), WithoutId(patch);
    if patch[|patch| - 1].column == "id" {
      assert kept == front;
    } else {
      assert kept == front + [patch[|patch| - 1]] && kept[..|kept| - 1] == front;
    }
  }

  lemma DistinctFront(patch: seq<Patch>)
    requires patch != [] && DistinctColumns(patch)
    ensures var front, last := patch[..|patch| - 1], patch[|patch| - 1];
      patch == front + [last] && DistinctColumns(front) && forall p :: p in front ==> p.column != last.column
  {
    var front, last := patch[..|patch| - 1], patch[|patch| - 1];
    forall p | p in front ensures p.column != last.column {
      var i :| 0 <= i < |front| && front[i] == p;
      assert patch[i].column != patch[|front|].column;
    }
  }

  lemma {:induction false} PatchMeans(row: Row, patch: seq<Patch>)
    requires DistinctColumns(patch)
    ensures IsPatched(row, patch, Patched(row, WithoutId(patch)))
  {
    if patch != [] {
      var front, last := patch[..|patch| - 1], patch[|patch| - 1];
      DistinctFront(patch);
      PatchMeans(row, front);
      PatchedLast(row, patch);
      PatchedMore(row, front, last, Patched(row, WithoutId(front)));
    }
  }

  lemma PatchedMore(row: Row, front: seq<Patch>, last: Patch, was: Row)
    requires IsPatched(row, front, was) && forall p :: p in front ==> p.column != last.column
    ensures IsPatched(row, front + [last], if last.column == "id" then was else was[last.column := last.value])
  {
    forall f ensures Sets(front + [last], f) <==> Sets(front, f) || (f == last.column && f != "id") {
      SetsMore(front, last, f);
    }
    hide Sets;
  }

  /** What an update does, column by column. */
  lemma UpdateMeans(conditions: seq<Condition>, patch: seq<Patch>, row: Row)
    requires ListsGiven(conditions) && ListsFilled(conditions) && WithoutId(patch) != [] && DistinctColumns(patch)
    requires SomeScalar(conditions) && ScalarsFirst(conditions)
    ensures Build(conditions, patch).Built? && IsValid(Build(conditions, patch).statement)
    ensures var t := Executed(Build(conditions, patch).statement, row);
      if MeetsAll(row, conditions) then IsPatched(row, patch, t) else t == row
  {
    QueryMeaning(conditions, patch, row);
    PatchMeans(row, patch);
    hide Build, IsValid, Executed, Patched, WithoutId, IsPatched, MeetsAll;
  }

  /** There is no statement without a patch or without conditions, and an error for a list key
      that has no list. */
  lemma BuildExactly(conditions: seq<Condition>, patch: seq<Patch>)
    ensures Build(conditions, patch) == NoStatement <==> patch == [] || conditions == []
    ensures Build(conditions, patch) == Raised <==>
      patch != [] && conditions != [] && exists c :: c in conditions && c.NoList?
  {
    hide Parse, WithoutId;
  }

  /** A list key before a scalar key: the scalar's placeholder is that of the patch, its own
      value has none, and the database refuses the statement. */
  lemma ListFirstIsRefused(id: string, list: seq<string>, status: Value)
    ensures var s := Build([In("status", list), Equals("id", id)], [Patch("status", status)]).statement;
      && s.values == [Text(id), status] && s.masks == [2] && s.setMasks == [2]
      && !IsValid(s)
  {
    var conditions, patch := [In("status", list), Equals("id", id)], [Patch("status", status)];
    var s := Build(conditions, patch).statement;
    var front := [In("status", list)];
    assert front[..0] == [] && conditions[..1] == front;
    assert Parse([]).seen == 0 && Parse(front).seen == 1;
    assert Parse(conditions).masks == [2];
    assert patch[..0] == [] && WithoutId(patch) == patch;
    assert s.setMasks == [2] && 1 !in s.masks + s.setMasks;
  }

  // ------------------------------------------------------------------ in place

  method ParseConditions(conditions: seq<Condition>) returns (raised: bool, p: Parsed)
    ensures raised == !ListsGiven(conditions)
    ensures !raised ==> p == Parse(conditions)
  {
    raised := false;
    p := Parsed([], [], [], [], [], 0);
    var nullConditions: seq<Column> := [];
    for i := 0 to |conditions|
      invariant nullConditions == Parse(conditions[..i]).nulls
    {
      assert conditions[..i + 1][..i] == conditions[..i];
      if conditions[i].IsNull? { nullConditions := nullConditions + [conditions[i].column]; }
    }
    var idx := 0;
    for i := 0 to |conditions|
      invariant ListsGiven(conditions[..i])
      invariant idx == Parse(conditions[..i]).seen
      invariant p.(nulls := Parse(conditions[..i]).nulls, seen := idx) == Parse(conditions[..i])
    {
      assert conditions[..i + 1][..i] == conditions[..i] && conditions[..i + 1] == conditions[..i] + [conditions[i]];
      match conditions[i] {
        case Equals(column, value) =>
          p := p.(names := p.names + [column], values := p.values + [Text(value)], masks := p.masks + [idx + 1]);
          idx := idx + 1;
        case In(column, list) =>
          p := p.(ins := p.ins + [ListClause(column, list)]);
          idx := idx + 1;
        case NoList(_) =>
          assert conditions[i] in conditions;
          return true, p;
        case IsNull(_) =>
      }
    }
    assert conditions[..|conditions|] == conditions;
    p := p.(nulls := nullConditions, seen := idx);
  }

  method UpdateByConditions(conditions: seq<Condition>, patch: seq<Patch>) returns (r: Result)
    ensures r == Build(conditions, patch)
  {
    if patch == [] || conditions == [] { return NoStatement; }
    var raised, p := ParseConditions(conditions);
    if raised { return Raised; }
    var colNames: seq<Column>, valueMasks: seq<nat>, colValues := [], [], p.values;
    for i := 0 to |patch|
      invariant var kept := WithoutId(patch[..i]);
        && colNames == Columns(kept) && valueMasks == MasksAfter(|p.values|, |kept|)
        && colValues == p.values + PatchValues(kept)
    {
      assert patch[..i + 1][..i] == patch[..i];
      if patch[i].column != "id" {
        colNames := colNames + [patch[i].column];
        colValues := colValues + [patch[i].value];
        valueMasks := valueMasks + [|valueMasks| + 1 + |p.values|];
      }
    }
    assert patch[..|patch|] == patch;
    return Built(Statement(colNames, valueMasks, p.names, p.masks, p.nulls, p.ins, colValues));
  }
}
