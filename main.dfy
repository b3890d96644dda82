/**
 * The binary: run the chosen workload over the tables the enumerator yields,
 * stopping after the hundredth table or at the first run that fails, then
 * tally the recorded results per injection into four counters.
 */
module Driver {
  import opened Common
  import opened Schema
  import opened Workloads

  // ---------------------------------------------------------------------------
  // The tally
  // ---------------------------------------------------------------------------

  /** The four counters, in the order they are printed: success, other success, failure, consistent. */
  datatype Counts = Counts(success: nat, otherError: nat, failure: nat, consistent: nat)

  const NoCounts := Counts(0, 0, 0, 0)

  function Total(c: Counts): nat {
    c.success + c.otherError + c.failure + c.consistent
  }

  /** One step of the fold: the counter that `e` selects goes up by one. */
  function Count(acc: Counts, e: Effectiveness): (r: Counts)
    ensures Total(r) == Total(acc) + 1
  {
    match e
    case Success => acc.(success := acc.success + 1)
    case OtherError => acc.(otherError := acc.otherError + 1)
    case Failure => acc.(failure := acc.failure + 1)
    case Consistent => acc.(consistent := acc.consistent + 1)
  }

  /** An entry of the results map, as its iterator yields it. */
  type Entry = (Key, Effectiveness)

  /** The entries whose key names `injection`, folded into the four counters in iteration order. */
  function Tally(entries: seq<Entry>, injection: string): Counts {
    if entries == [] then NoCounts
    else
      var acc := Tally(entries[..|entries| - 1], injection);
      var last := entries[|entries| - 1];
      if last.0.injection == injection then Count(acc, last.1) else acc
  }

  /** The map whose entries are `entries`. */
  function MapOf(entries: seq<Entry>): (m: Results)
    ensures forall k :: k in m <==> exists i :: 0 <= i < |entries| && entries[i].0 == k
  {
    if entries == [] then map[]
    else
      var last := entries[|entries| - 1];
      MapOf(entries[..|entries| - 1])[last.0 := last.1]
  }

  predicate DistinctKeys(entries: seq<Entry>) {
    forall i, j :: 0 <= i < j < |entries| ==> entries[i].0 != entries[j].0
  }

  /** `entries` lists every entry of `results` exactly once, in some order. */
  predicate Enumerates(entries: seq<Entry>, results: Results) {
    DistinctKeys(entries) && MapOf(entries) == results
  }

  /** The keys for `injection` whose trial ended as `e`. */
  function Bucket(results: Results, injection: string, e: Effectiveness): set<Key> {
    set k | k in results && k.injection == injection && results[k] == e
  }

  /** The keys for `injection`. */
  function Matching(results: Results, injection: string): set<Key> {
    set k | k in results && k.injection == injection
  }

  /** What the tally of `injection` should count: the size of each bucket. */
  function Buckets(results: Results, injection: string): Counts {
    Counts(|Bucket(results, injection, Success)|, |Bucket(results, injection, OtherError)|,
           |Bucket(results, injection, Failure)|, |Bucket(results, injection, Consistent)|)
  }

  lemma BucketUnion(results: Results, k: Key, e: Effectiveness, injection: string, b: Effectiveness)
    requires k !in results
    ensures Bucket(results[k := e], injection, b)
         == Bucket(results, injection, b) + (if k.injection == injection && e == b then {k} else {})
  {
    var r := results[k := e];
    forall x | x in Bucket(r, injection, b)
      ensures x in Bucket(results, injection, b) + (if k.injection == injection && e == b then {k} else {})
    {
      if x != k {
        assert x in results && results[x] == r[x];
      }
    }
  }

  lemma BucketInsert(results: Results, k: Key, e: Effectiveness, injection: string, b: Effectiveness)
    requires k !in results
    ensures |Bucket(results[k := e], injection, b)|
         == |Bucket(results, injection, b)| + (if k.injection == injection && e == b then 1 else 0)
  {
    BucketUnion(results, k, e, injection, b);
    var before := Bucket(results, injection, b);
    if k.injection == injection && e == b {
      assert k !in before;
      assert |before + {k}| == |before| + 1;
    }
  }

  /**
   * Adding a new entry moves the bucket counts of `injection` exactly as one
   * fold step does when the entry is for `injection`, and not at all otherwise.
   */
  lemma BucketsInsert(results: Results, k: Key, e: Effectiveness, injection: string)
    requires k !in results
    ensures Buckets(results[k := e], injection)
         == if k.injection == injection then Count(Buckets(results, injection), e) else Buckets(results, injection)
  {
    BucketInsert(results, k, e, injection, Success);
    BucketInsert(results, k, e, injection, OtherError);
    BucketInsert(results, k, e, injection, Failure);
    BucketInsert(results, k, e, injection, Consistent);
    var before, after := Buckets(results, injection), Buckets(results[k := e], injection);
    if k.injection == injection {
      match e
      case Success => assert after == before.(success := before.success + 1);
      case OtherError => assert after == before.(otherError := before.otherError + 1);
      case Failure => assert after == before.(failure := before.failure + 1);
      case Consistent => assert after == before.(consistent := before.consistent + 1);
    } else {
      assert after == before;
    }
  }

  lemma MapOfDistinct(entries: seq<Entry>)
    requires DistinctKeys(entries) && entries != []
    ensures entries[|entries| - 1].0 !in MapOf(entries[..|entries| - 1])
  {
  }

  /** The fold over any enumeration of the map counts exactly the bucket sizes. */
  lemma {:induction false} TallyCounts(entries: seq<Entry>, results: Results, injection: string)
    requires Enumerates(entries, results)
    ensures Tally(entries, injection) == Buckets(results, injection)
    decreases |entries|
  {
    if entries != [] {
      var init := entries[..|entries| - 1];
      var last := entries[|entries| - 1];
      assert DistinctKeys(init);
      TallyCounts(init, MapOf(init), injection);
      MapOfDistinct(entries);
      BucketsInsert(MapOf(init), last.0, last.1, injection);
    }
  }

  /** The order in which the map yields its entries does not change the tally. */
  lemma TallyIgnoresOrder(entries: seq<Entry>, others: seq<Entry>, results: Results, injection: string)
    requires Enumerates(entries, results) && Enumerates(others, results)
    ensures Tally(entries, injection) == Tally(others, injection)
  {
    TallyCounts(entries, results, injection);
    TallyCounts(others, results, injection);
  }

  /**
   * Every entry for `injection` falls in exactly one of the four buckets, so
   * the four counters add up to the number of entries for `injection`.
   */
  lemma BucketsPartition(results: Results, injection: string)
    ensures Matching(results, injection)
         == Bucket(results, injection, Success) + Bucket(results, injection, OtherError)
          + Bucket(results, injection, Failure) + Bucket(results, injection, Consistent)
    ensures forall e, f :: e != f ==> Bucket(results, injection, e) !! Bucket(results, injection, f)
    ensures Total(Buckets(results, injection)) == |Matching(results, injection)|
  {
    var s, o := Bucket(results, injection, Success), Bucket(results, injection, OtherError);
    var f, c := Bucket(results, injection, Failure), Bucket(results, injection, Consistent);
    forall k | k in Matching(results, injection)
      ensures k in s + o + f + c
    {
      match results[k]
      case Success =>
      case OtherError =>
      case Failure =>
      case Consistent =>
    }
    assert s * o == {} && (s + o) * f == {} && (s + o + f) * c == {};
  }

  /** Entries for another injection, whatever their value, do not move the counters of `injection`. */
  lemma {:induction false} TallySkipsOtherInjections(entries: seq<Entry>, others: seq<Entry>, injection: string)
    requires forall i :: 0 <= i < |others| ==> others[i].0.injection != injection
    ensures Tally(entries + others, injection) == Tally(entries, injection)
    decreases |others|
  {
    if others == [] {
      assert entries + others == entries;
    } else {
      var init := others[..|others| - 1];
      assert (entries + others)[..|entries + others| - 1] == entries + init;
      TallySkipsOtherInjections(entries, init, injection);
    }
  }

  /**
   * The report loop: one line per injection, in the order the injections are
   * listed, each carrying the counts of that injection's buckets.
   */
  method Report(results: Results, entries: seq<Entry>) returns (lines: seq<(string, Counts)>)
    requires Enumerates(entries, results)
    ensures |lines| == |AvailableInjections|
    ensures forall i :: 0 <= i < |lines| ==> lines[i] == (AvailableInjections[i], Buckets(results, AvailableInjections[i]))
  {
    lines := [];
    for i := 0 to |AvailableInjections|
      invariant |lines| == i
      invariant forall j :: 0 <= j < i ==> lines[j] == (AvailableInjections[j], Buckets(results, AvailableInjections[j]))
    {
      var injection := AvailableInjections[i];
      var counts := Tally(entries, injection);
      TallyCounts(entries, results, injection);
      lines := lines + [(injection, counts)];
    }
  }

  // ---------------------------------------------------------------------------
  // The driver loop
  // ---------------------------------------------------------------------------

  /** At most this many tables are run. */
  const TableLimit: nat := 100

  function Min(a: nat, b: nat): nat {
    if a < b then a else b
  }

  /** Every table in `tables` has the columns the workload `v` reads. */
  predicate Runnable(v: Variant, tables: seq<Table>) {
    forall i :: 0 <= i < |tables| ==> Formable(v, tables[i])
  }

  /**
   * Workload runs over the first `n` tables, one after the other, each
   * continuing the trace and the results of the one before, until one does
   * not complete.
   */
  function Runs(v: Variant, c: Config, tables: seq<Table>, n: nat, server: Server, start: Outcome): Outcome
    requires Runnable(v, tables) && n <= |tables|
  {
    if n == 0 then start
    else
      var o := Runs(v, c, tables, n - 1, server, start);
      if o.status.Completed? then Workload(v, c, tables[n - 1], server, o.trace, o.results) else o
  }

  /**
   * The driver loop from the table at `cnt` on, `o` being the outcome so far:
   * how many tables it counts in all, and the outcome it ends with.
   */
  function Loop(v: Variant, c: Config, tables: seq<Table>, server: Server, o: Outcome, cnt: nat): (nat, Outcome)
    requires Runnable(v, tables) && cnt <= |tables|
    decreases |tables| - cnt
  {
    if cnt == |tables| then (cnt, o)
    else
      var o' := Workload(v, c, tables[cnt], server, o.trace, o.results);
      if !o'.status.Completed? || cnt + 1 == TableLimit then (cnt + 1, o')
      else Loop(v, c, tables, server, o', cnt + 1)
  }

  /**
   * `r` counts at most a hundred tables and ends with the outcome of running
   * the workload over the tables it counted; when that outcome is a
   * completion it counted the first hundred tables, or all of them if fewer,
   * and otherwise the last table it counted is the one whose run failed.
   */
  predicate Ended(v: Variant, c: Config, tables: seq<Table>, server: Server, start: Outcome, r: (nat, Outcome))
    requires Runnable(v, tables)
  {
    && r.0 <= |tables| && r.0 <= TableLimit
    && r.1 == Runs(v, c, tables, r.0, server, start)
    && (r.1.status.Completed? ==> r.0 == Min(|tables|, TableLimit))
    && (!r.1.status.Completed? ==> exists m: nat :: m + 1 == r.0 && Runs(v, c, tables, m, server, start).status.Completed?)
  }

  /** A turn after which the loop stops ends as `Ended` says. */
  lemma LoopStops(v: Variant, c: Config, tables: seq<Table>, server: Server, start: Outcome, cnt: nat)
    requires Runnable(v, tables) && cnt < |tables| && cnt < TableLimit
    requires Runs(v, c, tables, cnt, server, start).status.Completed?
    requires var o := Runs(v, c, tables, cnt + 1, server, start);
      !o.status.Completed? || cnt + 1 == TableLimit
    ensures Ended(v, c, tables, server, start, Loop(v, c, tables, server, Runs(v, c, tables, cnt, server, start), cnt))
  {
    assert Ended(v, c, tables, server, start, (cnt + 1, Runs(v, c, tables, cnt + 1, server, start)));
  }

  /** A turn after which the loop goes on leaves it where the tables up to `cnt` left it. */
  lemma LoopGoesOn(v: Variant, c: Config, tables: seq<Table>, server: Server, start: Outcome, cnt: nat)
    requires Runnable(v, tables) && cnt < |tables|
    requires Runs(v, c, tables, cnt, server, start).status.Completed?
    requires Runs(v, c, tables, cnt + 1, server, start).status.Completed? && cnt + 1 != TableLimit
    ensures Loop(v, c, tables, server, Runs(v, c, tables, cnt, server, start), cnt)
         == Loop(v, c, tables, server, Runs(v, c, tables, cnt + 1, server, start), cnt + 1)
  {
  }

  /** The loop, entered with the outcome of the tables before `cnt`, all completed, ends as `Ended` says. */
  lemma {:induction false} LoopRuns(v: Variant, c: Config, tables: seq<Table>, server: Server, start: Outcome, cnt: nat)
    requires Runnable(v, tables) && cnt <= |tables| && cnt < TableLimit
    requires Runs(v, c, tables, cnt, server, start).status.Completed?
    ensures Ended(v, c, tables, server, start, Loop(v, c, tables, server, Runs(v, c, tables, cnt, server, start), cnt))
    decreases |tables| - cnt
  {
    if cnt < |tables| {
      var o := Runs(v, c, tables, cnt + 1, server, start);
      if !o.status.Completed? || cnt + 1 == TableLimit {
        LoopStops(v, c, tables, server, start, cnt);
      } else {
        LoopGoesOn(v, c, tables, server, start, cnt);
        LoopRuns(v, c, tables, server, start, cnt + 1);
      }
    }
  }

  /** The `for table in tables` loop: count the table, run the workload on it, stop at a failure or after the hundredth table. */
  method RunTables(v: Variant, c: Config, tables: seq<Table>, server: Server, start: Outcome)
    returns (cnt: nat, o: Outcome)
    requires Runnable(v, tables)
    ensures (cnt, o) == Loop(v, c, tables, server, start, 0)
  {
    cnt := 0;
    o := start;
    while cnt < |tables|
      invariant cnt <= |tables| && cnt < TableLimit
      invariant Loop(v, c, tables, server, o, cnt) == Loop(v, c, tables, server, start, 0)
    {
      var t := tables[cnt];
      cnt := cnt + 1;
      o := Execute(v, c, t, server, o.trace, o.results);
      if !o.status.Completed? {
        return;
      }
      if cnt == TableLimit {
        break;
      }
    }
  }

  /** The result keys of every injection against each of the first `n` tables. */
  function AllKeys(tables: seq<Table>, n: nat): (keys: set<Key>)
    requires n <= |tables|
    ensures forall k :: k in keys ==>
              k.table in tables[..n] && k.workload == WorkloadColumn && k.injection in AvailableInjections
  {
    if n == 0 then {}
    else AllKeys(tables, n - 1) + InjectionKeys(tables[n - 1], AvailableInjections)
  }

  lemma AllKeysStep(tables: seq<Table>, m: nat)
    requires m < |tables|
    ensures AllKeys(tables, m + 1) == AllKeys(tables, m) + InjectionKeys(tables[m], AvailableInjections)
  {
  }

  /** One more table: the run so far completed, and the next workload continues from it. */
  lemma RunsStep(v: Variant, c: Config, tables: seq<Table>, m: nat, server: Server, start: Outcome)
    requires Runnable(v, tables) && m < |tables|
    requires Runs(v, c, tables, m + 1, server, start).status.Completed?
    ensures var before := Runs(v, c, tables, m, server, start);
      && before.status.Completed?
      && Runs(v, c, tables, m + 1, server, start) == Workload(v, c, tables[m], server, before.trace, before.results)
  {
  }

  /** One more completed table adds that table's keys to what the runs recorded. */
  lemma RecordStep(v: Variant, c: Config, tables: seq<Table>, m: nat, server: Server, start: Outcome)
    requires Runnable(v, tables) && m < |tables|
    requires var o := Runs(v, c, tables, m, server, start);
      o.status.Completed? ==> Recorded(start.results, o.results, AllKeys(tables, m))
    ensures var o := Runs(v, c, tables, m + 1, server, start);
      o.status.Completed? ==> Recorded(start.results, o.results, AllKeys(tables, m + 1))
  {
    var o := Runs(v, c, tables, m + 1, server, start);
    if o.status.Completed? {
      var before := Runs(v, c, tables, m, server, start);
      RunsStep(v, c, tables, m, server, start);
      WorkloadRecordsEveryInjection(v, c, tables[m], server, before.trace, before.results);
      AllKeysStep(tables, m);
      RecordedChain(start.results, before.results, o.results, AllKeys(tables, m),
                    InjectionKeys(tables[m], AvailableInjections));
    }
  }

  /** Runs that all completed recorded one result per injection and table, and left every other entry alone. */
  lemma {:induction false} RunsRecord(v: Variant, c: Config, tables: seq<Table>, n: nat, server: Server, start: Outcome)
    requires Runnable(v, tables) && n <= |tables|
    ensures var o := Runs(v, c, tables, n, server, start);
      o.status.Completed? ==> Recorded(start.results, o.results, AllKeys(tables, n))
  {
    if n > 0 {
      var m := n - 1;
      RunsRecord(v, c, tables, m, server, start);
      RecordStep(v, c, tables, m, server, start);
    }
  }

  predicate Distinct(tables: seq<Table>) {
    forall i, j :: 0 <= i < j < |tables| ==> tables[i] != tables[j]
  }

  /** The keys in `keys` for `injection`. */
  function KeysFor(keys: set<Key>, injection: string): set<Key> {
    set k | k in keys && k.injection == injection
  }

  lemma InjectionKeysFor(t: Table, injection: string)
    requires injection in AvailableInjections
    ensures KeysFor(InjectionKeys(t, AvailableInjections), injection) == {Key(t, WorkloadColumn, injection)}
  {
    assert Key(t, WorkloadColumn, injection) in InjectionKeys(t, AvailableInjections);
  }

  lemma KeysForUnion(a: set<Key>, b: set<Key>, injection: string)
    ensures KeysFor(a + b, injection) == KeysFor(a, injection) + KeysFor(b, injection)
  {
  }

  /** Distinct tables give one key each for a given injection. */
  lemma {:induction false} MatchingAllKeys(tables: seq<Table>, n: nat, injection: string)
    requires Distinct(tables) && n <= |tables| && injection in AvailableInjections
    ensures |KeysFor(AllKeys(tables, n), injection)| == n
  {
    if n > 0 {
      var m := n - 1;
      var last := tables[m];
      var key := Key(last, WorkloadColumn, injection);
      MatchingAllKeys(tables, m, injection);
      assert forall i :: 0 <= i < m ==> tables[i] != last;
      var before := KeysFor(AllKeys(tables, m), injection);
      assert key !in before;
      AllKeysStep(tables, m);
      KeysForUnion(AllKeys(tables, m), InjectionKeys(last, AvailableInjections), injection);
      InjectionKeysFor(last, injection);
      assert KeysFor(AllKeys(tables, n), injection) == before + {key};
    }
  }

  /** The connection the pool hands out, with nothing sent on it yet and no results. */
  const Fresh := Outcome(Completed, [], map[])

  /**
   * When the runs over the first `n` of distinct tables all complete, from an
   * empty map, each injection's four counters add up to `n`.
   */
  lemma CountsCoverTables(v: Variant, c: Config, tables: seq<Table>, n: nat, server: Server)
    requires Runnable(v, tables) && Distinct(tables) && n <= |tables|
    requires Runs(v, c, tables, n, server, Fresh).status.Completed?
    ensures forall injection :: injection in AvailableInjections ==>
              Total(Buckets(Runs(v, c, tables, n, server, Fresh).results, injection)) == n
  {
    var o := Runs(v, c, tables, n, server, Fresh);
    RunsRecord(v, c, tables, n, server, Fresh);
    forall injection | injection in AvailableInjections
      ensures Total(Buckets(o.results, injection)) == n
    {
      KeysCounted(o.results, tables, n, injection);
    }
  }

  /** Results holding exactly the keys of `n` distinct tables count `n` trials for each injection. */
  lemma KeysCounted(results: Results, tables: seq<Table>, n: nat, injection: string)
    requires Distinct(tables) && n <= |tables| && injection in AvailableInjections
    requires results.Keys == AllKeys(tables, n)
    ensures Total(Buckets(results, injection)) == n
  {
    BucketsPartition(results, injection);
    MatchingAllKeys(tables, n, injection);
    assert Matching(results, injection) == KeysFor(AllKeys(tables, n), injection);
  }

  lemma YieldedRunnable(v: Variant)
    ensures Runnable(v, Yielded()) && Distinct(Yielded())
  {
    forall k | 0 <= k < |Yielded()|
      ensures Formable(v, Yielded()[k])
    {
      YieldedTable(k);
    }
    forall j, k | 0 <= j < k < |Yielded()|
      ensures Yielded()[j] != Yielded()[k]
    {
      YieldedNamesDistinct(j, k);
    }
  }

  /**
   * `main` after connecting: run the workload over the enumerated tables, at
   * most a hundred of them, stopping at the first run that fails. When every
   * run completed, the counters of each injection add up to the number of
   * tables run.
   */
  method Drive(v: Variant, c: Config, server: Server) returns (cnt: nat, o: Outcome)
    ensures Runnable(v, Yielded()) && Ended(v, c, Yielded(), server, Fresh, (cnt, o))
    ensures o.status.Completed? ==>
              forall injection :: injection in AvailableInjections ==> Total(Buckets(o.results, injection)) == cnt
  {
    var tables := Stream();
    YieldedRunnable(v);
    cnt, o := RunTables(v, c, tables, server, Fresh);
    LoopRuns(v, c, tables, server, Fresh, 0);
    if o.status.Completed? {
      CountsCoverTables(v, c, tables, cnt, server);
    }
  }
}
