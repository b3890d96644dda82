/**
 * The schema space: column types, columns, index columns, indices and tables;
 * the enumeration of every table corrupttest exercises, in a fixed order and with
 * consecutive names; the DDL text for a table and the rows it inserts.
 */
module Schema {
  import opened Wrappers
  import opened Text

  // ---------------------------------------------------------------------------
  // Data model
  // ---------------------------------------------------------------------------

  datatype ColumnType = IntType | StringType(collation: Option<string>)

  datatype Column = Column(name: string, columnType: ColumnType)

  /** A column of an index, with an optional prefix length. */
  datatype IndexColumn = IndexColumn(name: string, length: Option<nat>)

  datatype Uniqueness = NonUnique | Unique | ClusterdPrimary | NonClusteredPrimary {
    predicate IsPrimary() {
      this == ClusterdPrimary || this == NonClusteredPrimary
    }
  }

  datatype Index = Index(name: string, columns: seq<IndexColumn>, unique: Uniqueness)

  datatype Table = Table(name: string, cols: seq<Column>, indices: seq<Index>)

  datatype Datum = IntDatum(i: int) | StringDatum(s: string)

  datatype Row = Row(cols: seq<Datum>)

  // ---------------------------------------------------------------------------
  // The streams of each level of the schema space
  // ---------------------------------------------------------------------------

  /** The collations a string column is tried with: none first, then three named ones. */
  function Collations(): (r: seq<Option<string>>)
    ensures |r| == 4 && r[0] == None
    ensures forall k :: 1 <= k < |r| ==> r[k].Some?
  {
    [None, Some("utf8mb4_unicode_ci"), Some("utf8mb4_general_ci"), Some("utf8mb4_bin")]
  }

  lemma CollationsDistinct()
    ensures forall j, k :: 0 <= j < k < |Collations()| ==> Collations()[j] != Collations()[k]
  {
  }

  /** `Int` first, then a string type for each collation, in collation order. */
  function ColumnTypes(): (r: seq<ColumnType>)
    ensures |r| == 1 + |Collations()| && r[0] == IntType
    ensures forall k :: 0 <= k < |Collations()| ==> r[k + 1] == StringType(Collations()[k])
  {
    [IntType] + seq(|Collations()|, k requires 0 <= k < |Collations()| => StringType(Collations()[k]))
  }

  /** A column called `name` of every column type, in column-type order. */
  function Columns(name: string): (r: seq<Column>)
    ensures |r| == |ColumnTypes()|
    ensures forall k :: 0 <= k < |r| ==> r[k] == Column(name, ColumnTypes()[k])
  {
    seq(|ColumnTypes()|, k requires 0 <= k < |ColumnTypes()| => Column(name, ColumnTypes()[k]))
  }

  lemma ColumnsMember(name: string, c: Column)
    ensures c in Columns(name) <==> c.name == name && c.columnType in ColumnTypes()
  {
    if c.name == name && c.columnType in ColumnTypes() {
      var k :| 0 <= k < |ColumnTypes()| && ColumnTypes()[k] == c.columnType;
      assert Columns(name)[k] == c;
    }
  }

  /** For each name in order: the whole column, then its 3-character prefix. */
  function IndexColumns(names: seq<string>): (r: seq<IndexColumn>)
    ensures |r| == 2 * |names|
    ensures forall k :: 0 <= k < |names| ==>
      r[2 * k] == IndexColumn(names[k], None) && r[2 * k + 1] == IndexColumn(names[k], Some(3))
  {
    if names == [] then []
    else [IndexColumn(names[0], None), IndexColumn(names[0], Some(3))] + IndexColumns(names[1..])
  }

  function Uniquenesses(): (r: seq<Uniqueness>)
    ensures |r| == 4
    ensures forall k :: 0 <= k < |r| ==> (r[k].IsPrimary() <==> k >= 2)
  {
    [NonUnique, Unique, ClusterdPrimary, NonClusteredPrimary]
  }

  /** Where each uniqueness stands in the uniqueness stream. */
  function UniquenessRank(u: Uniqueness): (k: nat)
    ensures k < |Uniquenesses()| && Uniquenesses()[k] == u
  {
    match u
    case NonUnique => 0
    case Unique => 1
    case ClusterdPrimary => 2
    case NonClusteredPrimary => 3
  }

  /** The indices whose first column is `first`: each second column, each uniqueness. */
  function IndexesWith(name: string, first: IndexColumn, seconds: seq<IndexColumn>): (r: seq<Index>)
    ensures |r| == 4 * |seconds|
    ensures forall j, k :: 0 <= j < |seconds| && 0 <= k < 4 ==>
      r[4 * j + k] == Index(name, [first, seconds[j]], Uniquenesses()[k])
  {
    if seconds == [] then []
    else
      seq(4, k requires 0 <= k < 4 => Index(name, [first, seconds[0]], Uniquenesses()[k]))
        + IndexesWith(name, first, seconds[1..])
  }

  lemma {:induction false} IndexesWithMember(name: string, first: IndexColumn, seconds: seq<IndexColumn>, x: Index)
    ensures x in IndexesWith(name, first, seconds) <==>
      x.name == name && |x.columns| == 2 && x.columns[0] == first && x.columns[1] in seconds
  {
    if seconds != [] {
      var chunk := seq(4, k requires 0 <= k < 4 => Index(name, [first, seconds[0]], Uniquenesses()[k]));
      IndexesWithMember(name, first, seconds[1..], x);
      if x.name == name && |x.columns| == 2 && x.columns[0] == first && x.columns[1] == seconds[0] {
        assert x.columns == [first, seconds[0]];
        assert x == chunk[UniquenessRank(x.unique)];
      }
    }
  }

  function IndexesFrom(name: string, firsts: seq<IndexColumn>, seconds: seq<IndexColumn>): seq<Index> {
    if firsts == [] then []
    else IndexesWith(name, firsts[0], seconds) + IndexesFrom(name, firsts[1..], seconds)
  }

  lemma {:induction false} IndexesFromMember(name: string, firsts: seq<IndexColumn>, seconds: seq<IndexColumn>, x: Index)
    ensures x in IndexesFrom(name, firsts, seconds) <==>
      x.name == name && |x.columns| == 2 && x.columns[0] in firsts && x.columns[1] in seconds
  {
    if firsts != [] {
      IndexesWithMember(name, firsts[0], seconds, x);
      IndexesFromMember(name, firsts[1..], seconds, x);
    }
  }

  /** Every two-column index called `name` over the columns `names`, with every uniqueness. */
  function Indexes(name: string, names: seq<string>): seq<Index> {
    IndexesFrom(name, IndexColumns(names), IndexColumns(names))
  }

  predicate IndexColumnOver(ic: IndexColumn, names: seq<string>) {
    ic.name in names && (ic.length == None || ic.length == Some(3))
  }

  lemma IndexColumnsMember(names: seq<string>, ic: IndexColumn)
    ensures ic in IndexColumns(names) <==> IndexColumnOver(ic, names)
  {
    var r := IndexColumns(names);
    if ic in r {
      var p :| 0 <= p < |r| && r[p] == ic;
      var k := p / 2;
      assert p == 2 * k || p == 2 * k + 1;
    }
    if IndexColumnOver(ic, names) {
      var k :| 0 <= k < |names| && names[k] == ic.name;
      if ic.length == None {
        assert r[2 * k] == ic;
      } else {
        assert r[2 * k + 1] == ic;
      }
    }
  }

  /** The index stream holds exactly the two-column indices over `names`, whatever their uniqueness. */
  lemma IndexesMember(name: string, names: seq<string>, x: Index)
    ensures x in Indexes(name, names) <==>
      x.name == name && |x.columns| == 2
      && IndexColumnOver(x.columns[0], names) && IndexColumnOver(x.columns[1], names)
  {
    IndexesFromMember(name, IndexColumns(names), IndexColumns(names), x);
    if |x.columns| == 2 {
      IndexColumnsMember(names, x.columns[0]);
      IndexColumnsMember(names, x.columns[1]);
    }
  }

  // ---------------------------------------------------------------------------
  // The constraints a table must meet
  // ---------------------------------------------------------------------------

  /** The first column called `name`, if any. */
  function Find(cols: seq<Column>, name: string): (r: Option<Column>)
    ensures r.Some? <==> exists c :: c in cols && c.name == name
    ensures r.Some? ==> r.value in cols && r.value.name == name
    ensures |cols| > 0 && cols[0].name == name ==> r == Some(cols[0])
    ensures r.Some? ==> exists k :: 0 <= k < |cols| && cols[k] == r.value && forall j :: 0 <= j < k ==> cols[j].name != name
  {
    if cols == [] then None
    else if cols[0].name == name then Some(cols[0])
    else Find(cols[1..], name)
  }

  /** Every index column names a column of the table. */
  predicate ColumnsDeclared(t: Table) {
    forall i, j :: 0 <= i < |t.indices| && 0 <= j < |t.indices[i].columns| ==>
      Find(t.cols, t.indices[i].columns[j].name).Some?
  }

  /** The table has the two indices of at least two columns that the pruning rule reads. */
  predicate Indexable(t: Table) {
    |t.indices| >= 2 && |t.indices[0].columns| >= 2 && |t.indices[1].columns| >= 2
  }

  predicate Admissible(t: Table) {
    ColumnsDeclared(t) && Indexable(t)
  }

  predicate AllAdmissible(ts: seq<Table>) {
    forall k :: 0 <= k < |ts| ==> Admissible(ts[k])
  }

  function PrimaryCount(indices: seq<Index>): nat {
    if indices == [] then 0
    else (if indices[0].unique.IsPrimary() then 1 else 0) + PrimaryCount(indices[1..])
  }

  /** No index column, with or without a prefix length, is over a non-string column. */
  predicate IndexedColumnsAreStrings(t: Table)
    requires ColumnsDeclared(t)
  {
    forall i, j :: 0 <= i < |t.indices| && 0 <= j < |t.indices[i].columns| ==>
      Find(t.cols, t.indices[i].columns[j].name).value.columnType.StringType?
  }

  predicate Satisfied(t: Table)
    requires ColumnsDeclared(t)
  {
    && PrimaryCount(t.indices) <= 1
    && (forall i :: 0 <= i < |t.indices| ==> |t.indices[i].columns| <= 2)
    && IndexedColumnsAreStrings(t)
  }

  /** The constraint check of a candidate table, one condition at a time. */
  method ConstraintSatisfied(t: Table) returns (satisfied: bool)
    requires ColumnsDeclared(t)
    ensures satisfied <==>
      && PrimaryCount(t.indices) <= 1
      && (forall i :: 0 <= i < |t.indices| ==> |t.indices[i].columns| <= 2)
      && IndexedColumnsAreStrings(t)
  {
    satisfied := true;
    // at most one primary index
    if PrimaryCount(t.indices) > 1 {
      satisfied := false;
    }
    if exists i | 0 <= i < |t.indices| :: |t.indices[i].columns| > 2 {
      satisfied := false;
    }
    // every index column names a declared column: the precondition
    // prefix indices are only for string columns, but any index column over another type rejects
    if exists i, j | 0 <= i < |t.indices| && 0 <= j < |t.indices[i].columns| ::
        !Find(t.cols, t.indices[i].columns[j].name).value.columnType.StringType? {
      satisfied := false;
    }
  }

  /** The pruning rule: `i1` is over (c1, c2) and `i2` over (c2, c1), in that order. */
  predicate Optimized(t: Table)
    requires Indexable(t)
  {
    && t.indices[0].columns[0].name == "c1"
    && t.indices[0].columns[1].name == "c2"
    && t.indices[1].columns[0].name == "c2"
    && t.indices[1].columns[1].name == "c1"
  }

  predicate Keep(t: Table)
    requires Admissible(t)
  {
    Satisfied(t) && Optimized(t)
  }

  // ---------------------------------------------------------------------------
  // The candidates, in the order of the four nested loops of the stream
  // ---------------------------------------------------------------------------

  /** One point of the product; a name is given only to the candidates that are kept. */
  function Candidate(c1: Column, c2: Column, i1: Index, i2: Index): Table {
    Table("", [c1, c2], [i1, i2])
  }

  function I2Candidates(c1: Column, c2: Column, i1: Index, i2s: seq<Index>): (r: seq<Table>)
    ensures |r| == |i2s|
    ensures forall k :: 0 <= k < |i2s| ==> r[k] == Candidate(c1, c2, i1, i2s[k])
  {
    seq(|i2s|, k requires 0 <= k < |i2s| => Candidate(c1, c2, i1, i2s[k]))
  }

  /** The candidates for the first-index choices `i1s`, each followed by every `i2`. */
  function I1Candidates(c1: Column, c2: Column, i1s: seq<Index>): seq<Table> {
    if i1s == [] then []
    else
      I1Candidates(c1, c2, i1s[..|i1s| - 1])
        + I2Candidates(c1, c2, i1s[|i1s| - 1], Indexes("i2", [c1.name, c2.name]))
  }

  function C2Candidates(c1: Column, c2s: seq<Column>): seq<Table> {
    if c2s == [] then []
    else
      var c2 := c2s[|c2s| - 1];
      C2Candidates(c1, c2s[..|c2s| - 1]) + I1Candidates(c1, c2, Indexes("i1", [c1.name, c2.name]))
  }

  function C1Candidates(c1s: seq<Column>, c2s: seq<Column>): seq<Table> {
    if c1s == [] then []
    else C1Candidates(c1s[..|c1s| - 1], c2s) + C2Candidates(c1s[|c1s| - 1], c2s)
  }

  /** Every candidate the nested loops visit, in visiting order. */
  function Candidates(): seq<Table> {
    C1Candidates(Columns("c1"), Columns("c2"))
  }

  lemma I2CandidatesMember(c1: Column, c2: Column, i1: Index, i2s: seq<Index>, t: Table)
    ensures t in I2Candidates(c1, c2, i1, i2s) <==>
      t.name == "" && t.cols == [c1, c2] && |t.indices| == 2 && t.indices[0] == i1 && t.indices[1] in i2s
  {
    if t.name == "" && t.cols == [c1, c2] && |t.indices| == 2 && t.indices[0] == i1 && t.indices[1] in i2s {
      var k :| 0 <= k < |i2s| && i2s[k] == t.indices[1];
      assert t.indices == [i1, i2s[k]];
      assert I2Candidates(c1, c2, i1, i2s)[k] == t;
    }
  }

  lemma {:induction false} I1CandidatesMember(c1: Column, c2: Column, i1s: seq<Index>, t: Table)
    ensures t in I1Candidates(c1, c2, i1s) <==>
      t.name == "" && t.cols == [c1, c2] && |t.indices| == 2
      && t.indices[0] in i1s && t.indices[1] in Indexes("i2", [c1.name, c2.name])
  {
    if i1s != [] {
      var init, last := i1s[..|i1s| - 1], i1s[|i1s| - 1];
      var i2s := Indexes("i2", [c1.name, c2.name]);
      var before, more := I1Candidates(c1, c2, init), I2Candidates(c1, c2, last, i2s);
      assert I1Candidates(c1, c2, i1s) == before + more;
      assert t in before + more <==> t in before || t in more;
      I1CandidatesMember(c1, c2, init, t);
      I2CandidatesMember(c1, c2, last, i2s, t);
      assert i1s == init + [last];
      if |t.indices| == 2 {
        assert t.indices[0] in i1s <==> t.indices[0] in init || t.indices[0] == last;
      }
    }
  }

  /** Two columns, the second drawn from `c2s`, and two indices drawn from the index choices over them. */
  predicate OverColumns(t: Table, c2s: seq<Column>) {
    && |t.cols| == 2 && t.cols[1] in c2s && |t.indices| == 2
    && t.indices[0] in Indexes("i1", [t.cols[0].name, t.cols[1].name])
    && t.indices[1] in Indexes("i2", [t.cols[0].name, t.cols[1].name])
  }

  lemma {:induction false} C2CandidatesMember(c1: Column, c2s: seq<Column>, t: Table)
    ensures t in C2Candidates(c1, c2s) <==>
      t.name == "" && |t.cols| == 2 && t.cols[0] == c1 && OverColumns(t, c2s)
  {
    if c2s != [] {
      var init, c2 := c2s[..|c2s| - 1], c2s[|c2s| - 1];
      var i1s := Indexes("i1", [c1.name, c2.name]);
      var before, more := C2Candidates(c1, init), I1Candidates(c1, c2, i1s);
      assert C2Candidates(c1, c2s) == before + more;
      assert t in before + more <==> t in before || t in more;
      C2CandidatesMember(c1, init, t);
      I1CandidatesMember(c1, c2, i1s, t);
      assert c2s == init + [c2];
      assert t.cols == [c1, c2] <==> |t.cols| == 2 && t.cols[0] == c1 && t.cols[1] == c2;
      if |t.cols| == 2 {
        assert t.cols[1] in c2s <==> t.cols[1] in init || t.cols[1] == c2;
      }
    }
  }

  lemma {:induction false} C1CandidatesMember(c1s: seq<Column>, c2s: seq<Column>, t: Table)
    ensures t in C1Candidates(c1s, c2s) <==>
      t.name == "" && |t.cols| == 2 && t.cols[0] in c1s && OverColumns(t, c2s)
  {
    if c1s != [] {
      var init, c1 := c1s[..|c1s| - 1], c1s[|c1s| - 1];
      var before, more := C1Candidates(init, c2s), C2Candidates(c1, c2s);
      assert C1Candidates(c1s, c2s) == before + more;
      assert t in before + more <==> t in before || t in more;
      C1CandidatesMember(init, c2s, t);
      C2CandidatesMember(c1, c2s, t);
      assert c1s == init + [c1];
      if |t.cols| == 2 {
        assert t.cols[0] in c1s <==> t.cols[0] in init || t.cols[0] == c1;
      }
    }
  }

  /** A two-column index called `name` whose columns are `c1` or `c2`, whole or as a 3-character prefix. */
  predicate IndexOverBoth(x: Index, name: string) {
    && x.name == name && |x.columns| == 2
    && IndexColumnOver(x.columns[0], ["c1", "c2"])
    && IndexColumnOver(x.columns[1], ["c1", "c2"])
  }

  /**
   * A point of the schema space, before the constraints and the pruning rule:
   * columns `c1` and `c2` of any column type, and indices `i1` and `i2` over them.
   */
  predicate IsCandidate(t: Table) {
    && t.name == "" && |t.cols| == 2 && |t.indices| == 2
    && t.cols[0].name == "c1" && t.cols[0].columnType in ColumnTypes()
    && t.cols[1].name == "c2" && t.cols[1].columnType in ColumnTypes()
    && IndexOverBoth(t.indices[0], "i1")
    && IndexOverBoth(t.indices[1], "i2")
  }

  /** The nested loops visit every point of the schema space and nothing else. */
  lemma CandidatesMember(t: Table)
    ensures t in Candidates() <==> IsCandidate(t)
  {
    C1CandidatesMember(Columns("c1"), Columns("c2"), t);
    if |t.cols| == 2 {
      ColumnsMember("c1", t.cols[0]);
      ColumnsMember("c2", t.cols[1]);
      if t.cols[0].name == "c1" && t.cols[1].name == "c2" && |t.indices| == 2 {
        var names := [t.cols[0].name, t.cols[1].name];
        assert names == ["c1", "c2"];
        IndexesMember("i1", names, t.indices[0]);
        IndexesMember("i2", names, t.indices[1]);
      }
    }
  }

  lemma FindOfTwo(c1: Column, c2: Column, n: string)
    requires c1.name == "c1" && c2.name == "c2"
    requires n == "c1" || n == "c2"
    ensures Find([c1, c2], n).Some?
  {
    if n == "c2" {
      assert [c1, c2][1..] == [c2];
    }
  }

  lemma CandidateAdmissible(t: Table)
    requires IsCandidate(t)
    ensures Admissible(t)
  {
    assert t.cols == [t.cols[0], t.cols[1]];
    forall i, j | 0 <= i < |t.indices| && 0 <= j < |t.indices[i].columns|
      ensures Find(t.cols, t.indices[i].columns[j].name).Some?
    {
      assert i == 0 || i == 1;
      assert j == 0 || j == 1;
      FindOfTwo(t.cols[0], t.cols[1], t.indices[i].columns[j].name);
    }
  }

  lemma CandidatesAdmissible()
    ensures AllAdmissible(Candidates())
  {
    var r := Candidates();
    forall k | 0 <= k < |r| ensures Admissible(r[k]) {
      CandidatesMember(r[k]);
      CandidateAdmissible(r[k]);
    }
  }

  /** The candidates that pass the constraint check and the pruning rule, in order. */
  function Survivors(cands: seq<Table>): (r: seq<Table>)
    requires AllAdmissible(cands)
    ensures |r| <= |cands|
  {
    if cands == [] then []
    else
      var last := cands[|cands| - 1];
      Survivors(cands[..|cands| - 1]) + (if Keep(last) then [last] else [])
  }

  /** A candidate is yielded exactly when it passes the constraint check and the pruning rule. */
  lemma {:induction false} SurvivorsMember(cands: seq<Table>, t: Table)
    requires AllAdmissible(cands)
    ensures t in Survivors(cands) <==> t in cands && Admissible(t) && Keep(t)
  {
    if cands != [] {
      var init, last := cands[..|cands| - 1], cands[|cands| - 1];
      var before, more := Survivors(init), if Keep(last) then [last] else [];
      assert Survivors(cands) == before + more;
      assert t in before + more <==> t in before || t in more;
      SurvivorsMember(init, t);
      assert cands == init + [last];
      assert t in cands <==> t in init || t == last;
    }
  }

  function TableName(k: nat): string {
    "t" + NatText(k)
  }

  /** The `k`-th table kept is called `t{k}`. */
  function Named(ts: seq<Table>): (r: seq<Table>)
    ensures |r| == |ts|
    ensures forall k :: 0 <= k < |ts| ==> r[k] == ts[k].(name := TableName(k))
  {
    seq(|ts|, k requires 0 <= k < |ts| => ts[k].(name := TableName(k)))
  }

  /** The candidates that are kept, in visiting order, before they are named. */
  function Kept(): seq<Table> {
    CandidatesAdmissible();
    Survivors(Candidates())
  }

  function Yielded(): seq<Table> {
    Named(Kept())
  }

  lemma KeepIgnoresName(t: Table, name: string)
    requires Admissible(t)
    ensures Admissible(t.(name := name))
    ensures Keep(t.(name := name)) == Keep(t)
  {
    var u := t.(name := name);
    assert u.cols == t.cols && u.indices == t.indices;
  }

  /** Names the candidate after the tables kept so far, then applies the constraint check and the pruning rule. */
  method Visit(c1: Column, c2: Column, i1: Index, i2: Index, tableCount: nat) returns (t: Table, keep: bool)
    requires IsCandidate(Candidate(c1, c2, i1, i2))
    ensures t == Candidate(c1, c2, i1, i2).(name := TableName(tableCount))
    ensures Admissible(Candidate(c1, c2, i1, i2))
    ensures keep == Keep(Candidate(c1, c2, i1, i2))
  {
    ghost var candidate := Candidate(c1, c2, i1, i2);
    CandidateAdmissible(candidate);
    t := Table(TableName(tableCount), [c1, c2], [i1, i2]);
    KeepIgnoresName(candidate, TableName(tableCount));
    assert t == candidate.(name := TableName(tableCount));
    var ok := ConstraintSatisfied(t);
    keep := ok && Optimized(t);
  }

  /**
   * Walks the schema space: column type and collation of c1, then of c2, then
   * the two columns and the uniqueness of i1, then of i2. Each candidate that
   * passes the constraint check and the pruning rule is yielded under the next
   * free name. The two inner loops are in `StreamIndexes`.
   */
  method Stream() returns (tables: seq<Table>)
    ensures tables == Yielded()
  {
    CandidatesAdmissible();
    tables := [];
    ghost var seen: seq<Table> := [];
    var c1s := Columns("c1");
    var c2s := Columns("c2");
    var a := 0;
    while a < |c1s|
      invariant 0 <= a <= |c1s|
      invariant seen == C1Candidates(c1s[..a], Columns("c2"))
      invariant AllAdmissible(seen)
      invariant tables == Named(Survivors(seen))
    {
      var c1 := c1s[a];
      ghost var more := C2Candidates(c1, Columns("c2"));
      tables := StreamSecondColumns(c1, c2s, tables, seen);
      C1CandidatesSnoc(c1s, Columns("c2"), a);
      seen := seen + more;
      a := a + 1;
    }
    assert c1s[..a] == c1s;
  }

  /** The second loop of the stream: every column `c2`, with `c1` fixed. */
  method StreamSecondColumns(c1: Column, c2s: seq<Column>, tables: seq<Table>, ghost seen: seq<Table>)
    returns (tables': seq<Table>)
    requires c1 in Columns("c1") && forall c2 :: c2 in c2s ==> c2 in Columns("c2")
    requires AllAdmissible(seen) && tables == Named(Survivors(seen))
    ensures AllAdmissible(seen + C2Candidates(c1, c2s))
    ensures tables' == Named(Survivors(seen + C2Candidates(c1, c2s)))
  {
    tables' := tables;
    ghost var now := seen;
    var b := 0;
    while b < |c2s|
      invariant 0 <= b <= |c2s|
      invariant now == seen + C2Candidates(c1, c2s[..b])
      invariant AllAdmissible(now)
      invariant tables' == Named(Survivors(now))
    {
      var c2 := c2s[b];
      ghost var more := I1Candidates(c1, c2, Indexes("i1", [c1.name, c2.name]));
      tables' := StreamIndexes(c1, c2, tables', now);
      assert now + more == seen + C2Candidates(c1, c2s[..b + 1]) by {
        C2CandidatesSnoc(c1, c2s, b);
        AppendCandidates(seen, C2Candidates(c1, c2s[..b]), more);
      }
      now := now + more;
      b := b + 1;
    }
    assert c2s[..b] == c2s;
  }

  /** The third loop of the stream: every first index over the columns `c1` and `c2`. */
  method StreamIndexes(c1: Column, c2: Column, tables: seq<Table>, ghost seen: seq<Table>)
    returns (tables': seq<Table>)
    requires c1 in Columns("c1") && c2 in Columns("c2")
    requires AllAdmissible(seen) && tables == Named(Survivors(seen))
    ensures AllAdmissible(seen + I1Candidates(c1, c2, Indexes("i1", [c1.name, c2.name])))
    ensures tables' == Named(Survivors(seen + I1Candidates(c1, c2, Indexes("i1", [c1.name, c2.name]))))
  {
    tables' := tables;
    ghost var now := seen;
    var i1s := Indexes("i1", [c1.name, c2.name]);
    var c := 0;
    while c < |i1s|
      invariant 0 <= c <= |i1s|
      invariant now == seen + I1Candidates(c1, c2, i1s[..c])
      invariant AllAdmissible(now)
      invariant tables' == Named(Survivors(now))
    {
      var i1 := i1s[c];
      ghost var more := I2Candidates(c1, c2, i1, Indexes("i2", [c1.name, c2.name]));
      tables' := StreamSecondIndexes(c1, c2, i1, tables', now);
      I1CandidatesSnoc(c1, c2, i1s, c);
      AppendCandidates(seen, I1Candidates(c1, c2, i1s[..c]), more);
      now := now + more;
      c := c + 1;
    }
    assert i1s[..c] == i1s;
  }

  /** The innermost loop of the stream: every second index, with the columns and the first index fixed. */
  method StreamSecondIndexes(c1: Column, c2: Column, i1: Index, tables: seq<Table>, ghost seen: seq<Table>)
    returns (tables': seq<Table>)
    requires c1 in Columns("c1") && c2 in Columns("c2") && i1 in Indexes("i1", [c1.name, c2.name])
    requires AllAdmissible(seen) && tables == Named(Survivors(seen))
    ensures AllAdmissible(seen + I2Candidates(c1, c2, i1, Indexes("i2", [c1.name, c2.name])))
    ensures tables' == Named(Survivors(seen + I2Candidates(c1, c2, i1, Indexes("i2", [c1.name, c2.name]))))
  {
    tables' := tables;
    var tableCount := |tables|;
    ghost var now := seen;
    var i2s := Indexes("i2", [c1.name, c2.name]);
    var d := 0;
    assert I2Candidates(c1, c2, i1, i2s[..d]) == [];
    while d < |i2s|
      invariant 0 <= d <= |i2s|
      invariant now == seen + I2Candidates(c1, c2, i1, i2s[..d])
      invariant AllAdmissible(now)
      invariant tableCount == |tables'| && tables' == Named(Survivors(now))
    {
      var i2 := i2s[d];
      ghost var candidate := Candidate(c1, c2, i1, i2);
      CandidateFromLoops(c1, c2, i1, i2);
      CandidateAdmissible(candidate);
      Advance(now, tables', candidate);
      var t, keep := Visit(c1, c2, i1, i2, tableCount);
      if keep {
        tables' := tables' + [t];
        tableCount := tableCount + 1;
      }
      ghost var done := I2Candidates(c1, c2, i1, i2s[..d]);
      I2CandidatesSnoc(c1, c2, i1, i2s, d);
      AppendCandidates(seen, done, [candidate]);
      now := now + [candidate];
      d := d + 1;
    }
    assert i2s[..d] == i2s;
  }

  /** Candidates appended level by level are those of the levels appended together. */
  lemma AppendCandidates(a: seq<Table>, b: seq<Table>, c: seq<Table>)
    ensures (a + b) + c == a + (b + c)
  {
  }

  lemma C1CandidatesSnoc(c1s: seq<Column>, c2s: seq<Column>, a: nat)
    requires a < |c1s|
    ensures C1Candidates(c1s[..a + 1], c2s) == C1Candidates(c1s[..a], c2s) + C2Candidates(c1s[a], c2s)
  {
    assert c1s[..a + 1][..a] == c1s[..a];
  }

  lemma C2CandidatesSnoc(c1: Column, c2s: seq<Column>, b: nat)
    requires b < |c2s|
    ensures C2Candidates(c1, c2s[..b + 1]) ==
      C2Candidates(c1, c2s[..b]) + I1Candidates(c1, c2s[b], Indexes("i1", [c1.name, c2s[b].name]))
  {
    assert c2s[..b + 1][..b] == c2s[..b];
  }

  lemma I1CandidatesSnoc(c1: Column, c2: Column, i1s: seq<Index>, c: nat)
    requires c < |i1s|
    ensures I1Candidates(c1, c2, i1s[..c + 1]) ==
      I1Candidates(c1, c2, i1s[..c]) + I2Candidates(c1, c2, i1s[c], Indexes("i2", [c1.name, c2.name]))
  {
    assert i1s[..c + 1][..c] == i1s[..c];
  }

  lemma I2CandidatesSnoc(c1: Column, c2: Column, i1: Index, i2s: seq<Index>, d: nat)
    requires d < |i2s|
    ensures I2Candidates(c1, c2, i1, i2s[..d + 1]) ==
      I2Candidates(c1, c2, i1, i2s[..d]) + [Candidate(c1, c2, i1, i2s[d])]
  {
    var l, r := I2Candidates(c1, c2, i1, i2s[..d + 1]), I2Candidates(c1, c2, i1, i2s[..d]) + [Candidate(c1, c2, i1, i2s[d])];
    assert |l| == |r|;
    forall k | 0 <= k < |l| ensures l[k] == r[k] {
      if k < d {
        assert i2s[..d + 1][k] == i2s[..d][k];
      }
    }
  }

  lemma CandidateFromLoops(c1: Column, c2: Column, i1: Index, i2: Index)
    requires c1 in Columns("c1") && c2 in Columns("c2")
    requires i1 in Indexes("i1", [c1.name, c2.name]) && i2 in Indexes("i2", [c1.name, c2.name])
    ensures IsCandidate(Candidate(c1, c2, i1, i2))
  {
    ColumnsMember("c1", c1);
    ColumnsMember("c2", c2);
    IndexesMember("i1", [c1.name, c2.name], i1);
    IndexesMember("i2", [c1.name, c2.name], i2);
  }

  /** Visiting one more candidate appends it, named after the count so far, exactly when it is kept. */
  lemma Advance(seen: seq<Table>, tables: seq<Table>, candidate: Table)
    requires AllAdmissible(seen) && tables == Named(Survivors(seen))
    requires Admissible(candidate)
    ensures AllAdmissible(seen + [candidate])
    ensures Named(Survivors(seen + [candidate])) ==
      tables + (if Keep(candidate) then [candidate.(name := TableName(|tables|))] else [])
  {
    var s := seen + [candidate];
    assert s[..|s| - 1] == seen;
    if Keep(candidate) {
      assert Survivors(s) == Survivors(seen) + [candidate];
      NamedSnoc(Survivors(seen), candidate);
    } else {
      assert Survivors(s) == Survivors(seen) + [];
      assert Survivors(seen) + [] == Survivors(seen);
    }
  }

  lemma NamedSnoc(ts: seq<Table>, t: Table)
    ensures Named(ts + [t]) == Named(ts) + [t.(name := TableName(|ts|))]
  {
    var l, r := Named(ts + [t]), Named(ts) + [t.(name := TableName(|ts|))];
    assert |l| == |r|;
    forall k | 0 <= k < |l| ensures l[k] == r[k] {
      if k < |ts| {
        assert (ts + [t])[k] == ts[k];
      }
    }
  }

  // ---------------------------------------------------------------------------
  // What the stream yields
  // ---------------------------------------------------------------------------

  /**
   * An independent description of the candidates that are kept: both columns
   * are strings, `i1` is over (c1, c2) and `i2` over (c2, c1), and the two
   * indices are not both primary.
   */
  predicate KeptShape(t: Table)
    requires IsCandidate(t)
  {
    && t.cols[0].columnType.StringType? && t.cols[1].columnType.StringType?
    && t.indices[0].columns[0].name == "c1" && t.indices[0].columns[1].name == "c2"
    && t.indices[1].columns[0].name == "c2" && t.indices[1].columns[1].name == "c1"
    && !(t.indices[0].unique.IsPrimary() && t.indices[1].unique.IsPrimary())
  }

  lemma PrimaryCountOfTwo(x: Index, y: Index)
    ensures PrimaryCount([x, y]) <= 1 <==> !(x.unique.IsPrimary() && y.unique.IsPrimary())
  {
    assert PrimaryCount([y]) == (if y.unique.IsPrimary() then 1 else 0) by {
      assert [y][1..] == [];
    }
    assert PrimaryCount([x, y]) == (if x.unique.IsPrimary() then 1 else 0) + PrimaryCount([y]) by {
      assert [x, y][1..] == [y];
    }
  }

  /**
   * The constraint check and the pruning rule together keep exactly the
   * candidates of `KeptShape`: an index column over the `Int` column rejects
   * the table whether or not it has a prefix length.
   */
  lemma KeepIff(t: Table)
    requires IsCandidate(t)
    ensures Admissible(t) && (Keep(t) <==> KeptShape(t))
  {
    CandidateAdmissible(t);
    assert t.indices == [t.indices[0], t.indices[1]];
    PrimaryCountOfTwo(t.indices[0], t.indices[1]);
    if Optimized(t) {
      OptimizedStrings(t);
    }
  }

  /** Once the pruning rule holds, both columns are indexed, so the type check asks that both be strings. */
  lemma OptimizedStrings(t: Table)
    requires IsCandidate(t) && Admissible(t) && Optimized(t)
    ensures IndexedColumnsAreStrings(t) <==> t.cols[0].columnType.StringType? && t.cols[1].columnType.StringType?
  {
    assert t.cols == [t.cols[0], t.cols[1]];
    assert Find(t.cols, "c2") == Some(t.cols[1]) by {
      assert t.cols[1..] == [t.cols[1]];
    }
    assert Find(t.cols, t.indices[0].columns[0].name) == Some(t.cols[0]);
    assert Find(t.cols, t.indices[0].columns[1].name) == Some(t.cols[1]);
    if t.cols[0].columnType.StringType? && t.cols[1].columnType.StringType? {
      forall i, j | 0 <= i < |t.indices| && 0 <= j < |t.indices[i].columns|
        ensures Find(t.cols, t.indices[i].columns[j].name).value.columnType.StringType?
      {
        var n := t.indices[i].columns[j].name;
        assert n == "c1" || n == "c2";
      }
    }
  }

  /** Every yielded table is `t{k}` over two string columns `c1`, `c2`, with `i1` over (c1, c2), `i2` over (c2, c1), and at most one primary index. */
  predicate YieldedShape(t: Table, k: nat) {
    && t.name == TableName(k)
    && |t.cols| == 2 && t.cols[0].name == "c1" && t.cols[1].name == "c2"
    && t.cols[0].columnType.StringType? && t.cols[1].columnType.StringType?
    && |t.indices| == 2
    && t.indices[0].name == "i1" && |t.indices[0].columns| == 2
    && t.indices[0].columns[0].name == "c1" && t.indices[0].columns[1].name == "c2"
    && t.indices[1].name == "i2" && |t.indices[1].columns| == 2
    && t.indices[1].columns[0].name == "c2" && t.indices[1].columns[1].name == "c1"
    && PrimaryCount(t.indices) <= 1
  }

  /** The `k`-th yielded table is the `k`-th kept candidate, renamed. */
  lemma YieldedIsKept(k: nat)
    requires k < |Yielded()|
    ensures k < |Kept()| && IsCandidate(Kept()[k]) && KeptShape(Kept()[k])
    ensures Yielded()[k] == Kept()[k].(name := TableName(k))
  {
    CandidatesAdmissible();
    var kept := Kept();
    var u := kept[k];
    assert u in kept;
    SurvivorsMember(Candidates(), u);
    CandidatesMember(u);
    KeepIff(u);
  }

  lemma ShapeOfKept(u: Table, k: nat)
    requires IsCandidate(u) && KeptShape(u)
    ensures YieldedShape(u.(name := TableName(k)), k)
  {
    PrimaryCountOfTwo(u.indices[0], u.indices[1]);
    assert u.indices == [u.indices[0], u.indices[1]];
  }

  lemma YieldedTable(k: nat)
    requires k < |Yielded()|
    ensures YieldedShape(Yielded()[k], k)
  {
    YieldedIsKept(k);
    ShapeOfKept(Kept()[k], k);
  }

  /** A candidate is yielded, under the name of its position, exactly when it is kept. */
  lemma YieldedIffKept(t: Table)
    requires IsCandidate(t)
    ensures (exists k :: 0 <= k < |Yielded()| && Yielded()[k] == t.(name := TableName(k))) <==> KeptShape(t)
  {
    CandidatesAdmissible();
    var kept := Kept();
    KeepIff(t);
    SurvivorsMember(Candidates(), t);
    CandidatesMember(t);
    if KeptShape(t) {
      var k :| 0 <= k < |kept| && kept[k] == t;
      assert Yielded()[k] == t.(name := TableName(k));
    }
    if exists k :: 0 <= k < |Yielded()| && Yielded()[k] == t.(name := TableName(k)) {
      var k :| 0 <= k < |Yielded()| && Yielded()[k] == t.(name := TableName(k));
      assert kept[k].(name := TableName(k)) == t.(name := TableName(k));
      assert kept[k] in kept;
      SurvivorsMember(Candidates(), kept[k]);
      CandidatesMember(kept[k]);
      assert kept[k].name == "" == t.name;
      assert kept[k] == t;
    }
  }

  /** Rejected candidates do not use up a number, and no two yielded tables share a name. */
  lemma YieldedNamesDistinct(j: nat, k: nat)
    requires j < k < |Yielded()|
    ensures Yielded()[j].name != Yielded()[k].name
  {
    if Yielded()[j].name == Yielded()[k].name {
      assert "t" + NatText(j) == "t" + NatText(k);
      assert NatText(j) == ("t" + NatText(j))[1..];
      assert NatText(k) == ("t" + NatText(k))[1..];
      NatTextInjective(j, k);
    }
  }

  // ---------------------------------------------------------------------------
  // Rows
  // ---------------------------------------------------------------------------

  /** A datum of the kind a column of type `ct` holds. */
  predicate Fits(d: Datum, ct: ColumnType) {
    d.IntDatum? <==> ct.IntType?
  }

  predicate RowFits(r: Row, cols: seq<Column>) {
    |r.cols| == |cols| && forall k :: 0 <= k < |cols| ==> Fits(r.cols[k], cols[k].columnType)
  }

  /** The first value written to a column: 10 for `Int`, "hello" for a string. */
  function NewDatum(ct: ColumnType): (d: Datum)
    ensures Fits(d, ct)
  {
    match ct
    case IntType => IntDatum(10)
    case StringType(_) => StringDatum("hello")
  }

  /** The value after `d`: an integer plus one, a string with " x" appended. */
  function NextDatum(d: Datum): (n: Datum)
    ensures n != d
    ensures n.IntDatum? <==> d.IntDatum?
    ensures n.IntDatum? ==> n.i > d.i
    ensures n.StringDatum? ==> |n.s| > |d.s| && n.s[..|d.s|] == d.s
  {
    match d
    case IntDatum(x) => IntDatum(x + 1)
    case StringDatum(x) => StringDatum(x + " x")
  }

  /** The first row of a table with columns `cols`. */
  function NewRow(cols: seq<Column>): (r: Row)
    ensures RowFits(r, cols)
    ensures forall k :: 0 <= k < |cols| ==> r.cols[k] == NewDatum(cols[k].columnType)
  {
    Row(seq(|cols|, k requires 0 <= k < |cols| => NewDatum(cols[k].columnType)))
  }

  function NextRow(r: Row): (n: Row)
    ensures |n.cols| == |r.cols|
    ensures forall k :: 0 <= k < |r.cols| ==> n.cols[k] == NextDatum(r.cols[k])
  {
    Row(seq(|r.cols|, k requires 0 <= k < |r.cols| => NextDatum(r.cols[k])))
  }

  /** The next row still fits the table and differs from the row it follows in every column. */
  lemma NextRowFits(r: Row, cols: seq<Column>)
    requires RowFits(r, cols)
    ensures RowFits(NextRow(r), cols)
    ensures forall k :: 0 <= k < |cols| ==> NextRow(r).cols[k] != r.cols[k]
  {
  }

  /** A datum as `Datum::to_string` writes it: strings without quotes. */
  function DatumText(d: Datum): string {
    match d
    case IntDatum(i) => IntText(i)
    case StringDatum(s) => s
  }

  /** A datum as a SQL literal: strings in single quotes, integers bare. */
  function Literal(d: Datum): string {
    match d
    case IntDatum(i) => IntText(i)
    case StringDatum(s) => "'" + s + "'"
  }

  function Literals(ds: seq<Datum>): (r: seq<string>)
    ensures |r| == |ds|
    ensures forall k :: 0 <= k < |ds| ==> r[k] == Literal(ds[k])
  {
    seq(|ds|, k requires 0 <= k < |ds| => Literal(ds[k]))
  }

  /** The values list of an INSERT: the literals joined with ",". */
  function RowText(r: Row): string {
    Join(",", Literals(r.cols))
  }

  /** Reads a literal back: quoted text is a string, anything else must be an integer. */
  function ParseLiteral(s: string): Option<Datum> {
    if |s| >= 2 && s[0] == '\'' && s[|s| - 1] == '\'' then Some(StringDatum(s[1..|s| - 1]))
    else
      match ParseInt(s)
      case Some(i) => Some(IntDatum(i))
      case None => None
  }

  function ParseLiterals(parts: seq<string>): Option<seq<Datum>> {
    if parts == [] then Some([])
    else
      match (ParseLiterals(parts[..|parts| - 1]), ParseLiteral(parts[|parts| - 1]))
      case (Some(init), Some(last)) => Some(init + [last])
      case _ => None
  }

  /** Reads the values list of an INSERT back into a row. */
  function ParseRow(s: string): Option<Row> {
    match ParseLiterals(Split(s, ','))
    case Some(ds) => Some(Row(ds))
    case None => None
  }

  lemma LiteralRoundTrip(d: Datum)
    ensures ParseLiteral(Literal(d)) == Some(d)
  {
    match d
    case IntDatum(i) =>
      IntTextRoundTrip(i);
    case StringDatum(x) =>
      var s := "'" + x + "'";
      assert s[1..|s| - 1] == x;
  }

  lemma {:induction false} ParseLiteralsRoundTrip(ds: seq<Datum>)
    ensures ParseLiterals(Literals(ds)) == Some(ds)
  {
    if ds != [] {
      var init := ds[..|ds| - 1];
      ParseLiteralsRoundTrip(init);
      LiteralRoundTrip(ds[|ds| - 1]);
      var parts := Literals(ds);
      assert parts[..|parts| - 1] == Literals(init);
      assert init + [ds[|ds| - 1]] == ds;
    }
  }

  lemma NoCommaInIntText(i: int)
    ensures ',' !in IntText(i)
  {
  }

  /**
   * The values list reads back as the row it was written from, as long as the
   * row has a column and no string holds a comma.
   */
  lemma RowTextRoundTrip(r: Row)
    requires |r.cols| > 0
    requires forall k :: 0 <= k < |r.cols| ==> r.cols[k].StringDatum? ==> ',' !in r.cols[k].s
    ensures ParseRow(RowText(r)) == Some(r)
  {
    var parts := Literals(r.cols);
    forall k | 0 <= k < |parts| ensures ',' !in parts[k] {
      match r.cols[k]
      case IntDatum(i) =>
        NoCommaInIntText(i);
      case StringDatum(x) =>
        assert parts[k] == "'" + x + "'";
    }
    SplitJoin(parts, ',');
    assert Join(",", parts) == Join([','], parts);
    ParseLiteralsRoundTrip(r.cols);
  }

  // ---------------------------------------------------------------------------
  // DDL text
  // ---------------------------------------------------------------------------

  function ColumnTypeSql(ct: ColumnType): string {
    match ct
    case IntType => "INT"
    case StringType(None) => "VARCHAR(10)"
    case StringType(Some(c)) => "VARCHAR(10) COLLATE " + c
  }

  /** Reads a column type back from its SQL text. */
  function ParseColumnType(s: string): Option<ColumnType> {
    if s == "INT" then Some(IntType)
    else if s == "VARCHAR(10)" then Some(StringType(None))
    else if |s| >= 20 && s[..20] == "VARCHAR(10) COLLATE " then Some(StringType(Some(s[20..])))
    else None
  }

  /** Distinct column types are written differently: the type text names the type and the collation. */
  lemma ColumnTypeSqlRoundTrip(ct: ColumnType)
    ensures ParseColumnType(ColumnTypeSql(ct)) == Some(ct)
  {
    match ct
    case IntType =>
    case StringType(None) =>
    case StringType(Some(c)) =>
      var s := "VARCHAR(10) COLLATE " + c;
      assert s[..20] == "VARCHAR(10) COLLATE " && s[20..] == c;
      assert s != "INT" && s != "VARCHAR(10)" by {
        assert |s| >= 20;
      }
  }

  function ColumnDef(col: Column): string {
    col.name + " " + ColumnTypeSql(col.columnType)
  }

  function ColumnDefs(cols: seq<Column>): (r: seq<string>)
    ensures |r| == |cols|
    ensures forall k :: 0 <= k < |cols| ==> r[k] == ColumnDef(cols[k])
  {
    seq(|cols|, k requires 0 <= k < |cols| => ColumnDef(cols[k]))
  }

  /** An index column: its name, then the prefix length in parentheses when there is one. */
  function IndexColumnSql(ic: IndexColumn): string {
    match ic.length
    case None => ic.name
    case Some(l) => ic.name + "(" + NatText(l) + ")"
  }

  function IndexColumnSqls(ics: seq<IndexColumn>): (r: seq<string>)
    ensures |r| == |ics|
    ensures forall k :: 0 <= k < |ics| ==> r[k] == IndexColumnSql(ics[k])
  {
    seq(|ics|, k requires 0 <= k < |ics| => IndexColumnSql(ics[k]))
  }

  /** Reads an index column back: a name, optionally followed by a parenthesised length. */
  function ParseIndexColumn(s: string): Option<IndexColumn> {
    var parts := Split(s, '(');
    if |parts| == 1 then Some(IndexColumn(s, None))
    else if |parts| == 2 && |parts[1]| >= 1 && parts[1][|parts[1]| - 1] == ')'
      && AllDigits(parts[1][..|parts[1]| - 1])
    then Some(IndexColumn(parts[0], Some(DigitsValue(parts[1][..|parts[1]| - 1]))))
    else None
  }

  /** The prefix length is written so that it reads back, for a column name without '('. */
  lemma IndexColumnSqlRoundTrip(ic: IndexColumn)
    requires '(' !in ic.name
    ensures ParseIndexColumn(IndexColumnSql(ic)) == Some(ic)
  {
    match ic.length
    case None =>
      SplitWithout(ic.name, '(');
    case Some(l) =>
      var tail := NatText(l) + ")";
      assert IndexColumnSql(ic) == ic.name + ['('] + tail;
      assert '(' !in tail by {
        assert forall k :: 0 <= k < |tail| - 1 ==> IsDigit(tail[k]);
      }
      SplitAt(ic.name, '(', tail);
      SplitWithout(ic.name, '(');
      SplitWithout(tail, '(');
      assert tail[..|tail| - 1] == NatText(l);
      NatTextRoundTrip(l);
  }

  function KeyPrefix(u: Uniqueness): string {
    match u
    case NonUnique => ""
    case Unique => "UNIQUE "
    case _ => "PRIMARY "
  }

  function ClusteredSuffix(u: Uniqueness): string {
    if u == ClusterdPrimary then " CLUSTERED" else ""
  }

  /** An index clause without its uniqueness words: `KEY name (columns)`. */
  function KeyBody(x: Index): (body: string)
    ensures StartsWith(body, "KEY ") && EndsWith(body, ")")
  {
    var body := "KEY " + x.name + " (" + Join(", ", IndexColumnSqls(x.columns)) + ")";
    assert body[..4] == "KEY ";
    body
  }

  /** One index clause of CREATE TABLE. */
  function IndexDef(x: Index): string {
    KeyPrefix(x.unique) + KeyBody(x) + ClusteredSuffix(x.unique)
  }

  function IndexDefs(xs: seq<Index>): (r: seq<string>)
    ensures |r| == |xs|
    ensures forall k :: 0 <= k < |xs| ==> r[k] == IndexDef(xs[k])
  {
    seq(|xs|, k requires 0 <= k < |xs| => IndexDef(xs[k]))
  }

  predicate StartsWith(s: string, p: string) {
    |p| <= |s| && s[..|p|] == p
  }

  predicate EndsWith(s: string, p: string) {
    |p| <= |s| && s[|s| - |p|..] == p
  }

  /** How the server reads the uniqueness of an index clause. */
  function DeclaredUniqueness(clause: string): Uniqueness {
    if StartsWith(clause, "UNIQUE ") then Unique
    else if StartsWith(clause, "PRIMARY ") then
      (if EndsWith(clause, " CLUSTERED") then ClusterdPrimary else NonClusteredPrimary)
    else NonUnique
  }

  lemma DeclaredUniquenessOf(u: Uniqueness, body: string)
    requires StartsWith(body, "KEY ") && EndsWith(body, ")")
    ensures DeclaredUniqueness(KeyPrefix(u) + body + ClusteredSuffix(u)) == u
  {
    var clause := KeyPrefix(u) + body + ClusteredSuffix(u);
    match u
    case NonUnique =>
      assert clause == body;
      assert clause[0] == 'K';
    case Unique =>
      assert clause == "UNIQUE " + body;
      assert clause[..7] == "UNIQUE ";
    case ClusterdPrimary =>
      assert clause == "PRIMARY " + body + " CLUSTERED";
      assert clause[0] == 'P';
      assert clause[..8] == "PRIMARY ";
      assert clause[|clause| - 10..] == " CLUSTERED";
    case NonClusteredPrimary =>
      assert clause == "PRIMARY " + body;
      assert clause[0] == 'P';
      assert clause[..8] == "PRIMARY ";
      assert clause[|clause| - 1] == ')';
  }

  /**
   * Each index clause declares the uniqueness of its index: `UNIQUE` for a
   * unique key, `PRIMARY` for both primary kinds, and ` CLUSTERED` only for the
   * clustered one.
   */
  lemma IndexDefUniqueness(x: Index)
    ensures DeclaredUniqueness(IndexDef(x)) == x.unique
  {
    DeclaredUniquenessOf(x.unique, KeyBody(x));
  }

  /** Each index clause preceded by ", ". */
  function IndexClauses(xs: seq<Index>): string {
    if xs == [] then "" else IndexClauses(xs[..|xs| - 1]) + ", " + IndexDef(xs[|xs| - 1])
  }

  function CreateHeader(name: string): string {
    "CREATE TABLE " + name + " ("
  }

  /** The CREATE TABLE statement: the column definitions separated by ", ", then each index clause after ", ". */
  function CreateSql(t: Table): string {
    CreateHeader(t.name) + Join(", ", ColumnDefs(t.cols)) + IndexClauses(t.indices) + ")"
  }

  function DropSql(t: Table): string {
    "DROP TABLE IF EXISTS " + t.name
  }

  /** The table a DROP TABLE IF EXISTS statement names. */
  function DroppedTable(s: string): Option<string> {
    if StartsWith(s, "DROP TABLE IF EXISTS ") then Some(s[21..]) else None
  }

  lemma DropSqlNamesTable(t: Table)
    ensures DroppedTable(DropSql(t)) == Some(t.name)
  {
    var s := DropSql(t);
    assert s[..21] == "DROP TABLE IF EXISTS " && s[21..] == t.name;
  }

  lemma {:induction false} IndexClausesConcat(xs: seq<Index>)
    ensures IndexClauses(xs) == Concat(", ", IndexDefs(xs))
  {
    if xs != [] {
      IndexClausesConcat(xs[..|xs| - 1]);
      assert IndexDefs(xs)[..|xs| - 1] == IndexDefs(xs[..|xs| - 1]);
    }
  }

  /**
   * For a table with at least one column, the statement lists every column
   * definition and then every index clause, each pair separated by ", ".
   */
  lemma CreateSqlIsList(t: Table)
    requires |t.cols| > 0
    ensures CreateSql(t) == CreateHeader(t.name) + Join(", ", ColumnDefs(t.cols) + IndexDefs(t.indices)) + ")"
  {
    JoinAppend(", ", ColumnDefs(t.cols), IndexDefs(t.indices));
    IndexClausesConcat(t.indices);
  }

  lemma ColumnDefsSnoc(cols: seq<Column>, i: nat)
    requires i < |cols|
    ensures ColumnDefs(cols[..i + 1]) == ColumnDefs(cols[..i]) + [ColumnDef(cols[i])]
  {
  }

  lemma IndexColumnSqlsSnoc(ics: seq<IndexColumn>, j: nat)
    requires j < |ics|
    ensures IndexColumnSqls(ics[..j + 1]) == IndexColumnSqls(ics[..j]) + [IndexColumnSql(ics[j])]
  {
  }

  lemma IndexClausesSnoc(xs: seq<Index>, k: nat)
    requires k < |xs|
    ensures IndexClauses(xs[..k + 1]) == IndexClauses(xs[..k]) + ", " + IndexDef(xs[k])
  {
    assert xs[..k + 1][..k] == xs[..k];
  }

  /**
   * Builds the CREATE TABLE statement piece by piece: each column definition,
   * with ", " before all but the first, then ", " and a clause for each index.
   */
  method CreateStatement(t: Table) returns (statement: string)
    ensures statement == CreateSql(t)
  {
    statement := "CREATE TABLE ";
    statement := statement + t.name;
    statement := statement + " (";
    assert statement == CreateHeader(t.name);
    statement := PushColumnDefs(statement, t.cols);
    statement := PushIndexClauses(statement, t.indices);
    statement := statement + ")";
  }

  /** The column loop of `CreateStatement`. */
  method PushColumnDefs(statement: string, cols: seq<Column>) returns (statement': string)
    ensures statement' == statement + Join(", ", ColumnDefs(cols))
  {
    statement' := statement;
    var i := 0;
    while i < |cols|
      invariant 0 <= i <= |cols|
      invariant statement' == statement + Join(", ", ColumnDefs(cols[..i]))
    {
      var col := cols[i];
      ghost var done := Join(", ", ColumnDefs(cols[..i]));
      ghost var sep := if i > 0 then ", " else "";
      if i > 0 {
        statement' := statement' + ", ";
      }
      statement' := PushColumnDef(statement', col);
      ColumnDefsSnoc(cols, i);
      JoinSnoc(", ", ColumnDefs(cols[..i]), ColumnDef(col));
      AppendPiecesThree(statement, done, sep, ColumnDef(col));
      i := i + 1;
    }
    assert cols[..i] == cols;
  }

  /** The index loop of `CreateStatement`. */
  method PushIndexClauses(statement: string, indices: seq<Index>) returns (statement': string)
    ensures statement' == statement + IndexClauses(indices)
  {
    statement' := statement;
    var k := 0;
    while k < |indices|
      invariant 0 <= k <= |indices|
      invariant statement' == statement + IndexClauses(indices[..k])
    {
      ghost var done := IndexClauses(indices[..k]);
      statement' := statement' + ", ";
      statement' := PushIndexDef(statement', indices[k]);
      IndexClausesSnoc(indices, k);
      AppendPiecesThree(statement, done, ", ", IndexDef(indices[k]));
      k := k + 1;
    }
    assert indices[..k] == indices;
  }

  /** Appends the definition of one column. */
  method PushColumnDef(statement: string, col: Column) returns (statement': string)
    ensures statement' == statement + ColumnDef(col)
  {
    statement' := statement + col.name;
    statement' := statement' + " ";
    match col.columnType {
      case IntType =>
        statement' := statement' + "INT";
      case StringType(collation) =>
        statement' := statement' + "VARCHAR(10)";
        if collation.Some? {
          statement' := statement' + " COLLATE ";
          statement' := statement' + collation.value;
        }
    }
  }

  /** Appends the clause of one index. */
  method PushIndexDef(statement: string, index: Index) returns (statement': string)
    ensures statement' == statement + IndexDef(index)
  {
    statement' := statement;
    match index.unique {
      case NonUnique =>
      case Unique =>
        statement' := statement' + "UNIQUE ";
      case _ =>
        statement' := statement' + "PRIMARY ";
    }
    ghost var prefix := KeyPrefix(index.unique);
    assert statement' == statement + prefix;
    statement' := statement' + "KEY ";
    statement' := statement' + index.name;
    statement' := statement' + " (";
    ghost var columns := Join(", ", IndexColumnSqls(index.columns));
    statement' := PushIndexColumns(statement', index.columns);
    statement' := statement' + ")";
    AppendPiecesFive(statement + prefix, "KEY ", index.name, " (", columns, ")");
    ghost var body := KeyBody(index);
    assert statement' == statement + prefix + body;
    if index.unique == ClusterdPrimary {
      statement' := statement' + " CLUSTERED";
    }
    AppendPiecesThree(statement, prefix, body, ClusteredSuffix(index.unique));
  }

  /** The index-column loop of `CreateStatement`. */
  method PushIndexColumns(statement: string, ics: seq<IndexColumn>) returns (statement': string)
    ensures statement' == statement + Join(", ", IndexColumnSqls(ics))
  {
    statement' := statement;
    var j := 0;
    while j < |ics|
      invariant 0 <= j <= |ics|
      invariant statement' == statement + Join(", ", IndexColumnSqls(ics[..j]))
    {
      var col := ics[j];
      ghost var done := Join(", ", IndexColumnSqls(ics[..j]));
      ghost var sep := if j > 0 then ", " else "";
      if j > 0 {
        statement' := statement' + ", ";
      }
      statement' := PushIndexColumn(statement', col);
      IndexColumnSqlsSnoc(ics, j);
      JoinSnoc(", ", IndexColumnSqls(ics[..j]), IndexColumnSql(col));
      AppendPiecesThree(statement, done, sep, IndexColumnSql(col));
      j := j + 1;
    }
    assert ics[..j] == ics;
  }

  /** Appends one index column, with its prefix length when it has one. */
  method PushIndexColumn(statement: string, col: IndexColumn) returns (statement': string)
    ensures statement' == statement + IndexColumnSql(col)
  {
    statement' := statement + col.name;
    if col.length.Some? {
      statement' := statement' + "(";
      statement' := statement' + NatText(col.length.value);
      statement' := statement' + ")";
    }
  }
}
