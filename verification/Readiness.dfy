/** The readiness metrics of src/evaluation/readiness.ts: equal-task means, and cluster resampling. */
module Readiness {
  import opened Ordering
  import opened Shuffling
  import opened Strings
  import opened Sums
  import opened Wrappers

  datatype Row = Row(
    taskId: string, clusterId: string, routed: real, strong: real,
    routedTokens: Option<real>, baselineTokens: Option<real>)

  const SUCCESS: Row -> real := (row: Row) => row.routed
  const QUALITY: Row -> real := (row: Row) => row.routed - row.strong
  const ROUTED_TOKENS: Row -> real := (row: Row) => if row.routedTokens.Some? then row.routedTokens.value else 0.0
  const BASELINE_TOKENS: Row -> real := (row: Row) => if row.baselineTokens.Some? then row.baselineTokens.value else 0.0

  predicate TokensKnown(row: Row) { row.routedTokens.Some? && row.baselineTokens.Some? }

  // ----- means -----

  const TASK_OF: Row -> string := (row: Row) => row.taskId
  const CLUSTER_OF: Row -> string := (row: Row) => row.clusterId

  /** Task ids in the order of their first rows. */
  function TaskIds(rows: seq<Row>): seq<string> { Distinct(Map(TASK_OF, rows)) }

  function IsTask(task: string): Row -> bool { (row: Row) => row.taskId == task }

  function OfTask(task: string, rows: seq<Row>): seq<Row> { Filter(IsTask(task), rows) }

  function MeanOf(f: Row -> real, rows: seq<Row>): real {
    if rows == [] then 0.0 else Sum(f, rows) / |rows| as real
  }

  function TaskMean(f: Row -> real, rows: seq<Row>): string -> real { (task: string) => MeanOf(f, OfTask(task, rows)) }

  /** The sum of the task means. */
  function TotalOfMeans(f: Row -> real, rows: seq<Row>): real { Sum(TaskMean(f, rows), TaskIds(rows)) }

  datatype Measures = Measures(success: Option<real>, quality: Option<real>, reduction: Option<real>)

  function Means(rows: seq<Row>): Measures {
    if rows == [] || TaskIds(rows) == [] then Measures(None, None, None)
    else
      var tasks := |TaskIds(rows)| as real;
      var strong := TotalOfMeans(BASELINE_TOKENS, rows);
      Measures(Some(TotalOfMeans(SUCCESS, rows) / tasks), Some(TotalOfMeans(QUALITY, rows) / tasks),
               if (exists row :: row in rows && !TokensKnown(row)) || strong <= 0.0 then None
               else Some(1.0 - TotalOfMeans(ROUTED_TOKENS, rows) / strong))
  }

  lemma TaskIdsMembers(rows: seq<Row>, task: string)
    ensures task in TaskIds(rows) <==> exists row :: row in rows && row.taskId == task
    ensures task in TaskIds(rows) <==> OfTask(task, rows) != []
    ensures NoDuplicates(TaskIds(rows))
  {
    DistinctMembers(Map(TASK_OF, rows));
    MapMembers(TASK_OF, rows, task);
    var selected := OfTask(task, rows);
    if selected != [] {
      FilterMember(IsTask(task), rows, selected[0]);
    }
    if row :| row in rows && row.taskId == task {
      FilterMember(IsTask(task), rows, row);
    }
  }

  // ----- repeating and permuting rows -----

  /** k copies of a sequence, one after another. */
  function Repeat<T>(s: seq<T>, k: nat): seq<T> { if k == 0 then [] else Repeat(s, k - 1) + s }

  /** `t` holds every element of `s` k times as often, in any order. */
  ghost predicate Scaled<T>(s: seq<T>, t: seq<T>, k: nat) { multiset(t) == multiset(Repeat(s, k)) }

  lemma OneMore(k: nat, x: real)
    ensures (k + 1) as real * x == k as real * x + x
  {
    assert (k + 1) as real == k as real + 1.0;
  }

  lemma {:induction false} RepeatSum<T>(f: T -> real, s: seq<T>, k: nat)
    ensures Sum(f, Repeat(s, k)) == k as real * Sum(f, s)
  {
    if k > 0 {
      RepeatSum(f, s, k - 1);
      SumConcat(f, Repeat(s, k - 1), s);
      OneMore(k - 1, Sum(f, s));
    }
  }

  lemma {:induction false} RepeatLength<T>(s: seq<T>, k: nat)
    ensures |Repeat(s, k)| == k * |s|
  {
    if k > 0 {
      RepeatLength(s, k - 1);
      assert k * |s| == (k - 1) * |s| + |s|;
    }
  }

  lemma {:induction false} RepeatFilter<T>(keep: T -> bool, s: seq<T>, k: nat)
    ensures Filter(keep, Repeat(s, k)) == Repeat(Filter(keep, s), k)
  {
    if k > 0 {
      RepeatFilter(keep, s, k - 1);
      FilterConcat(keep, Repeat(s, k - 1), s);
    }
  }

  lemma {:induction false} RepeatMembers<T>(s: seq<T>, k: nat, x: T)
    requires k >= 1
    ensures x in Repeat(s, k) <==> x in s
  {
    if k > 1 {
      RepeatMembers(s, k - 1, x);
    } else {
      assert Repeat(s, 0) + s == s;
    }
  }

  lemma ScaledFilter<T(!new)>(keep: T -> bool, s: seq<T>, t: seq<T>, k: nat)
    requires Scaled(s, t, k)
    ensures Scaled(Filter(keep, s), Filter(keep, t), k)
  {
    RepeatFilter(keep, s, k);
    FilterPermuted(keep, t, Repeat(s, k));
  }

  lemma ScaledMembers<T>(s: seq<T>, t: seq<T>, k: nat, x: T)
    requires Scaled(s, t, k) && k >= 1
    ensures x in s <==> x in t
  {
    RepeatMembers(s, k, x);
    assert x in t <==> x in multiset(t);
    assert x in Repeat(s, k) <==> x in multiset(Repeat(s, k));
  }

  /** Two repetition-free sequences with the same elements are permutations of each other. */
  lemma SameElements(s: seq<string>, t: seq<string>)
    requires NoDuplicates(s) && NoDuplicates(t) && forall x :: x in s <==> x in t
    ensures multiset(s) == multiset(t)
  {
    forall x ensures multiset(s)[x] == multiset(t)[x] {
      CountAtMostOne(s, x);
      CountAtMostOne(t, x);
      assert x in multiset(s) <==> x in s;
      assert x in multiset(t) <==> x in t;
    }
  }

  lemma ScaledMean(f: Row -> real, s: seq<Row>, t: seq<Row>, k: nat)
    requires Scaled(s, t, k) && k >= 1
    ensures MeanOf(f, s) == MeanOf(f, t)
  {
    hide Sum, MeanOf;
    SumPermuted(f, t, Repeat(s, k));
    RepeatSum(f, s, k);
    RepeatLength(s, k);
    hide Repeat, Scaled;
    SameMean(f, s, t, k);
  }

  lemma SameMean(f: Row -> real, s: seq<Row>, t: seq<Row>, k: nat)
    requires k >= 1 && Sum(f, t) == k as real * Sum(f, s) && |t| == k * |s|
    ensures MeanOf(f, s) == MeanOf(f, t)
  {
    hide Sum;
    if s != [] {
      MeanOfScaled(k, Sum(f, s), |s|);
    }
  }

  lemma MeanOfScaled(k: nat, x: real, n: nat)
    requires k > 0 && n > 0
    ensures k * n > 0 && (k as real * x) / (k * n) as real == x / n as real
  {
    assert (k * n) as real == k as real * n as real;
  }

  lemma ScaledTasks(s: seq<Row>, t: seq<Row>, k: nat, task: string)
    requires Scaled(s, t, k) && k >= 1
    ensures task in TaskIds(s) <==> task in TaskIds(t)
  {
    TaskIdsMembers(s, task);
    TaskIdsMembers(t, task);
    if row :| row in s && row.taskId == task {
      ScaledMembers(s, t, k, row);
    }
    if row :| row in t && row.taskId == task {
      ScaledMembers(s, t, k, row);
    }
  }

  lemma ScaledTotal(f: Row -> real, s: seq<Row>, t: seq<Row>, k: nat)
    requires Scaled(s, t, k) && k >= 1
    ensures TotalOfMeans(f, s) == TotalOfMeans(f, t) && |TaskIds(s)| == |TaskIds(t)|
  {
    forall task ensures TaskMean(f, s)(task) == TaskMean(f, t)(task) {
      ScaledFilter(IsTask(task), s, t, k);
      ScaledMean(f, OfTask(task, s), OfTask(task, t), k);
    }
    forall task ensures task in TaskIds(s) <==> task in TaskIds(t) {
      ScaledTasks(s, t, k, task);
    }
    TaskIdsMembers(s, "");
    TaskIdsMembers(t, "");
    SameElements(TaskIds(s), TaskIds(t));
    SumPermuted(TaskMean(f, s), TaskIds(s), TaskIds(t));
    SumSame(TaskMean(f, s), TaskMean(f, t), TaskIds(t));
  }

  /** Repeating every row k times, and permuting the rows, leaves all three measures unchanged. */
  lemma MeansScaled(s: seq<Row>, t: seq<Row>, k: nat)
    requires Scaled(s, t, k) && k >= 1
    ensures Means(s) == Means(t)
  {
    ScaledTotal(SUCCESS, s, t, k);
    ScaledTotal(QUALITY, s, t, k);
    ScaledTotal(ROUTED_TOKENS, s, t, k);
    ScaledTotal(BASELINE_TOKENS, s, t, k);
    forall row ensures row in s <==> row in t {
      ScaledMembers(s, t, k, row);
    }
    assert s != [] ==> s[0] in t;
    assert t != [] ==> t[0] in s;
  }

  // ----- grouping by task, as the code does it -----

  ghost predicate Grouped(rows: seq<Row>, order: seq<string>, groups: map<string, seq<Row>>) {
    && order == TaskIds(rows)
    && (forall task :: task in groups <==> task in order)
    && (forall task :: task in groups ==> groups[task] == OfTask(task, rows))
  }

  lemma GroupedSnoc(rows: seq<Row>, order: seq<string>, groups: map<string, seq<Row>>, row: Row)
    requires Grouped(rows, order, groups)
    ensures var group := if row.taskId in groups then groups[row.taskId] else [];
      Grouped(rows + [row], if row.taskId in groups then order else order + [row.taskId],
              groups[row.taskId := group + [row]])
  {
    forall task ensures OfTask(task, rows + [row]) == OfTask(task, rows) + (if task == row.taskId then [row] else []) {
      FilterSnoc(IsTask(task), rows, row);
    }
    TaskIdsMembers(rows, row.taskId);
  }

  method SumRows(f: Row -> real, group: seq<Row>) returns (sum: real)
    ensures sum == Sum(f, group)
  {
    sum := 0.0;
    for m := 0 to |group|
      invariant sum == Sum(f, group[..m])
    {
      assert group[..m + 1] == group[..m] + [group[m]];
      SumSnoc(f, group[..m], group[m]);
      sum := sum + f(group[m]);
    }
    assert group[..|group|] == group;
  }

  /** The sum of the task means of `f` over a finished grouping. */
  method ReduceMeans(f: Row -> real, ghost rows: seq<Row>, order: seq<string>, groups: map<string, seq<Row>>)
    returns (total: real)
    requires Grouped(rows, order, groups)
    ensures total == TotalOfMeans(f, rows)
  {
    total := 0.0;
    assert Sum(TaskMean(f, rows), order[..0]) == 0.0;
    hide Sum, OfTask, TaskIds;
    for n := 0 to |order|
      invariant total == Sum(TaskMean(f, rows), order[..n])
    {
      var task := order[n];
      TaskIdsMembers(rows, task);
      assert task in order;
      var group := groups[task];
      var sum := SumRows(f, group);
      assert order[..n + 1] == order[..n] + [task];
      SumSnoc(TaskMean(f, rows), order[..n], task);
      total := total + sum / |group| as real;
    }
    assert order[..|order|] == order;
  }

  /** The local map of `means`. */
  method GroupByTask(rows: seq<Row>) returns (order: seq<string>, groups: map<string, seq<Row>>)
    ensures Grouped(rows, order, groups)
  {
    order, groups := [], map[];
    for n := 0 to |rows|
      invariant Grouped(rows[..n], order, groups)
    {
      var row := rows[n];
      assert rows[..n + 1] == rows[..n] + [row];
      GroupedSnoc(rows[..n], order, groups, row);
      var group := if row.taskId in groups then groups[row.taskId] else [];
      if row.taskId !in groups {
        order := order + [row.taskId];
      }
      groups := groups[row.taskId := group + [row]];
    }
    assert rows[..|rows|] == rows;
  }

  method ComputeMeans(rows: seq<Row>) returns (m: Measures)
    ensures m == Means(rows)
  {
    if rows == [] {
      return Measures(None, None, None);
    }
    var order, groups := GroupByTask(rows);
    var tasks := |order| as real;
    var success := ReduceMeans(SUCCESS, rows, order, groups);
    var quality := ReduceMeans(QUALITY, rows, order, groups);
    hide TotalOfMeans, TaskIds, Grouped;
    var n := 0;
    while n < |rows| && TokensKnown(rows[n])
      invariant n <= |rows| && forall i :: 0 <= i < n ==> TokensKnown(rows[i])
    {
      n := n + 1;
    }
    if n < |rows| {
      assert rows[n] in rows && !TokensKnown(rows[n]);
      return Measures(Some(success / tasks), Some(quality / tasks), None);
    }
    assert forall row :: row in rows ==> TokensKnown(row);
    var routed := ReduceMeans(ROUTED_TOKENS, rows, order, groups);
    var strong := ReduceMeans(BASELINE_TOKENS, rows, order, groups);
    m := Measures(Some(success / tasks), Some(quality / tasks),
                  if strong > 0.0 then Some(1.0 - routed / strong) else None);
  }

  // ----- resampling whole clusters -----

  function InCluster(cluster: string): Row -> bool { (row: Row) => row.clusterId == cluster }

  function OfCluster(cluster: string, rows: seq<Row>): seq<Row> { Filter(InCluster(cluster), rows) }

  function ClusterIds(rows: seq<Row>): seq<string> { Sort(StringLe, Distinct(Map(CLUSTER_OF, rows))) }

  function CopyName(draw: nat, task: string): string { Decimal(draw) + [':'] + task }

  /** A resampled cluster is a new copy of its tasks, named after the draw. */
  function Renamed(draw: nat): Row -> Row { (row: Row) => row.(taskId := CopyName(draw, row.taskId)) }

  /** The rows of one resample: draw d takes the cluster at position picks[d]. */
  function Resample(rows: seq<Row>, ids: seq<string>, picks: seq<nat>): seq<Row>
    requires forall d :: 0 <= d < |picks| ==> picks[d] < |ids|
  {
    if picks == [] then []
    else
      var draw := |picks| - 1;
      Resample(rows, ids, picks[..draw]) + Map(Renamed(draw), OfCluster(ids[picks[draw]], rows))
  }

  /** Copies made by different draws never share a task name. */
  lemma CopyNameInjective(d: nat, s: string, e: nat, t: string)
    requires CopyName(d, s) == CopyName(e, t)
    ensures d == e && s == t
  {
    DecimalDigits(d);
    DecimalDigits(e);
    var a, b, x := Decimal(d), Decimal(e), CopyName(d, s);
    assert x[|a|] == ':' && x[|b|] == ':';
    assert forall i :: 0 <= i < |a| ==> x[i] == a[i];
    assert forall i :: 0 <= i < |b| ==> x[i] == b[i];
    assert |a| == |b|;
    assert a == x[..|a|] && b == x[..|b|];
    DecimalInjective(d, e);
    assert s == x[|a| + 1..] && t == x[|b| + 1..];
  }

  /** A measure that does not look at the task's name. */
  ghost predicate NameBlind(f: Row -> real) { forall row: Row, draw: nat :: f(Renamed(draw)(row)) == f(row) }

  lemma {:induction false} DistinctConcat(a: seq<string>, b: seq<string>)
    requires forall x :: x in a ==> x !in b
    ensures Distinct(a + b) == Distinct(a) + Distinct(b)
  {
    if b == [] {
      assert a + b == a;
    } else {
      var init, last := b[..|b| - 1], b[|b| - 1];
      assert (a + b)[..|a + b| - 1] == a + init;
      assert last in b;
      DistinctConcat(a, init);
      DistinctMembers(a);
      DistinctMembers(init);
    }
  }

  /** Rows about different tasks: their totals of means add up. */
  lemma DisjointTotal(f: Row -> real, a: seq<Row>, b: seq<Row>)
    requires forall task :: task in TaskIds(a) ==> task !in TaskIds(b)
    ensures TaskIds(a + b) == TaskIds(a) + TaskIds(b)
    ensures TotalOfMeans(f, a + b) == TotalOfMeans(f, a) + TotalOfMeans(f, b)
  {
    DisjointIds(a, b);
    var all := TaskMean(f, a + b);
    SumConcat(all, TaskIds(a), TaskIds(b));
    forall i | 0 <= i < |TaskIds(a)| ensures all(TaskIds(a)[i]) == TaskMean(f, a)(TaskIds(a)[i]) {
      DisjointMean(f, a, b, TaskIds(a)[i]);
    }
    forall i | 0 <= i < |TaskIds(b)| ensures all(TaskIds(b)[i]) == TaskMean(f, b)(TaskIds(b)[i]) {
      assert TaskIds(b)[i] in TaskIds(b);
      DisjointMean(f, a, b, TaskIds(b)[i]);
    }
    SumSame(all, TaskMean(f, a), TaskIds(a));
    SumSame(all, TaskMean(f, b), TaskIds(b));
  }

  lemma DisjointIds(a: seq<Row>, b: seq<Row>)
    requires forall task :: task in TaskIds(a) ==> task !in TaskIds(b)
    ensures TaskIds(a + b) == TaskIds(a) + TaskIds(b)
  {
    MapConcat(TASK_OF, a, b);
    DistinctMembers(Map(TASK_OF, a));
    DistinctMembers(Map(TASK_OF, b));
    forall x | x in Map(TASK_OF, a) ensures x !in Map(TASK_OF, b) {
      assert x in TaskIds(a);
    }
    DistinctConcat(Map(TASK_OF, a), Map(TASK_OF, b));
  }

  lemma DisjointMean(f: Row -> real, a: seq<Row>, b: seq<Row>, task: string)
    requires task !in TaskIds(a) || task !in TaskIds(b)
    ensures TaskMean(f, a + b)(task) == if task in TaskIds(b) then TaskMean(f, b)(task) else TaskMean(f, a)(task)
  {
    FilterConcat(IsTask(task), a, b);
    TaskIdsMembers(a, task);
    TaskIdsMembers(b, task);
    assert OfTask(task, a + b) == OfTask(task, a) + OfTask(task, b);
    assert OfTask(task, a) + [] == OfTask(task, a) && [] + OfTask(task, b) == OfTask(task, b);
  }

  lemma {:induction false} RenamedIds(draw: nat, rows: seq<Row>)
    ensures TaskIds(Map(Renamed(draw), rows)) == Map(task => CopyName(draw, task), TaskIds(rows))
  {
    if rows != [] {
      var init, last := rows[..|rows| - 1], rows[|rows| - 1];
      assert rows == init + [last];
      RenamedIds(draw, init);
      var name := (task: string) => CopyName(draw, task);
      MapMembers(name, TaskIds(init), name(last.taskId));
      if task :| task in TaskIds(init) && name(task) == name(last.taskId) {
        CopyNameInjective(draw, task, draw, last.taskId);
      }
    }
  }

  lemma {:induction false} RenamedOf(draw: nat, rows: seq<Row>, task: string)
    ensures OfTask(CopyName(draw, task), Map(Renamed(draw), rows)) == Map(Renamed(draw), OfTask(task, rows))
  {
    if rows != [] {
      var init, last := rows[..|rows| - 1], rows[|rows| - 1];
      assert rows == init + [last];
      RenamedOf(draw, init, task);
      if last.taskId != task && CopyName(draw, last.taskId) == CopyName(draw, task) {
        CopyNameInjective(draw, last.taskId, draw, task);
      }
      FilterSnoc(IsTask(task), init, last);
      FilterSnoc(IsTask(CopyName(draw, task)), Map(Renamed(draw), init), Renamed(draw)(last));
      assert IsTask(CopyName(draw, task))(Renamed(draw)(last)) <==> last.taskId == task;
    }
  }

  lemma {:induction false} RenamedSum(f: Row -> real, draw: nat, rows: seq<Row>)
    requires NameBlind(f)
    ensures Sum(f, Map(Renamed(draw), rows)) == Sum(f, rows)
  {
    if rows != [] {
      RenamedSum(f, draw, rows[..|rows| - 1]);
      SumSnoc(f, Map(Renamed(draw), rows[..|rows| - 1]), Renamed(draw)(rows[|rows| - 1]));
    }
  }

  lemma {:induction false} SumMapped(f: string -> real, g: string -> real, name: string -> string, s: seq<string>)
    requires forall x :: x in s ==> f(name(x)) == g(x)
    ensures Sum(f, Map(name, s)) == Sum(g, s)
  {
    if s != [] {
      var init, last := s[..|s| - 1], s[|s| - 1];
      assert s == init + [last] && last in s;
      SumMapped(f, g, name, init);
      SumSnoc(f, Map(name, init), name(last));
    }
  }

  /** Renaming a copy changes neither its task means nor their number. */
  lemma RenamedTotal(f: Row -> real, draw: nat, rows: seq<Row>)
    requires NameBlind(f)
    ensures TotalOfMeans(f, Map(Renamed(draw), rows)) == TotalOfMeans(f, rows)
    ensures |TaskIds(Map(Renamed(draw), rows))| == |TaskIds(rows)|
  {
    var copy, name := Map(Renamed(draw), rows), (task: string) => CopyName(draw, task);
    RenamedIds(draw, rows);
    forall task | task in TaskIds(rows) ensures TaskMean(f, copy)(name(task)) == TaskMean(f, rows)(task) {
      RenamedOf(draw, rows, task);
      RenamedSum(f, draw, OfTask(task, rows));
    }
    SumMapped(TaskMean(f, copy), TaskMean(f, rows), name, TaskIds(rows));
  }

  // ----- what one resample computes -----

  /** Over the draws so far, with multiplicity: the task means of the drawn clusters, and their number. */
  function DrawnTotal(f: Row -> real, rows: seq<Row>, ids: seq<string>, picks: seq<nat>): real
    requires forall d :: 0 <= d < |picks| ==> picks[d] < |ids|
  {
    if picks == [] then 0.0
    else
      DrawnTotal(f, rows, ids, picks[..|picks| - 1]) + TotalOfMeans(f, OfCluster(ids[picks[|picks| - 1]], rows))
  }

  function DrawnTasks(rows: seq<Row>, ids: seq<string>, picks: seq<nat>): nat
    requires forall d :: 0 <= d < |picks| ==> picks[d] < |ids|
  {
    if picks == [] then 0
    else
      DrawnTasks(rows, ids, picks[..|picks| - 1]) + |TaskIds(OfCluster(ids[picks[|picks| - 1]], rows))|
  }

  /** Every task name of a resample carries the number of one of its draws. */
  lemma {:induction false} ResampleNames(rows: seq<Row>, ids: seq<string>, picks: seq<nat>, task: string)
    requires forall d :: 0 <= d < |picks| ==> picks[d] < |ids|
    requires task in TaskIds(Resample(rows, ids, picks))
    ensures exists d: nat, name :: d < |picks| && task == CopyName(d, name)
  {
    TaskIdsMembers(Resample(rows, ids, picks), task);
    if picks != [] {
      var draw := |picks| - 1;
      var before, copy := Resample(rows, ids, picks[..draw]), Map(Renamed(draw), OfCluster(ids[picks[draw]], rows));
      var row: Row :| row in before + copy && row.taskId == task;
      if row in before {
        TaskIdsMembers(before, task);
        ResampleNames(rows, ids, picks[..draw], task);
        var d: nat, name :| d < |picks[..draw]| && task == CopyName(d, name);
      } else {
        MapMembers(Renamed(draw), OfCluster(ids[picks[draw]], rows), row);
        var original: Row :| original in OfCluster(ids[picks[draw]], rows) && Renamed(draw)(original) == row;
        assert task == CopyName(draw, original.taskId);
      }
    }
  }

  lemma CopiesApart(rows: seq<Row>, ids: seq<string>, picks: seq<nat>, task: string)
    requires picks != [] && forall d :: 0 <= d < |picks| ==> picks[d] < |ids|
    requires task in TaskIds(Resample(rows, ids, picks[..|picks| - 1]))
    ensures task !in TaskIds(Map(Renamed(|picks| - 1), OfCluster(ids[picks[|picks| - 1]], rows)))
  {
    var draw := |picks| - 1;
    var group := OfCluster(ids[picks[draw]], rows);
    ResampleNames(rows, ids, picks[..draw], task);
    var d: nat, name :| d < draw && task == CopyName(d, name);
    RenamedIds(draw, group);
    MapMembers((t: string) => CopyName(draw, t), TaskIds(group), task);
    if other :| other in TaskIds(group) && CopyName(draw, other) == task {
      CopyNameInjective(draw, other, d, name);
    }
  }

  lemma NothingTotal(f: Row -> real)
    ensures TotalOfMeans(f, []) == 0.0 && TaskIds([]) == []
  {
  }

  /** Renaming by draw keeps copies of the same cluster apart: a resample's task means are exactly those
      of the drawn clusters, counted as often as they were drawn. */
  lemma {:induction false} ResampleAverages(f: Row -> real, rows: seq<Row>, ids: seq<string>, picks: seq<nat>)
    requires NameBlind(f) && forall d :: 0 <= d < |picks| ==> picks[d] < |ids|
    ensures TotalOfMeans(f, Resample(rows, ids, picks)) == DrawnTotal(f, rows, ids, picks)
    ensures |TaskIds(Resample(rows, ids, picks))| == DrawnTasks(rows, ids, picks)
  {
    NothingTotal(f);
    hide TotalOfMeans, NameBlind, OfCluster, TaskIds;
    if picks != [] {
      var draw := |picks| - 1;
      var before, group := Resample(rows, ids, picks[..draw]), OfCluster(ids[picks[draw]], rows);
      ResampleAverages(f, rows, ids, picks[..draw]);
      forall task | task in TaskIds(before) ensures task !in TaskIds(Map(Renamed(draw), group)) {
        CopiesApart(rows, ids, picks, task);
      }
      DisjointTotal(f, before, Map(Renamed(draw), group));
      RenamedTotal(f, draw, group);
    }
  }

  // ----- bounds -----

  /** A task belongs to one cluster. */
  ghost predicate OneClusterPerTask(rows: seq<Row>) {
    forall a, b :: a in rows && b in rows && a.taskId == b.taskId ==> a.clusterId == b.clusterId
  }

  ghost predicate MeansWithin(f: Row -> real, rows: seq<Row>, low: real, high: real) {
    forall task :: task in TaskIds(rows) ==> low <= TaskMean(f, rows)(task) <= high
  }

  /** The task means of every cluster: a task that occurs in several clusters has one in each. */
  ghost predicate ClusterMeansWithin(f: Row -> real, rows: seq<Row>, low: real, high: real) {
    forall cluster :: MeansWithin(f, OfCluster(cluster, rows), low, high)
  }

  lemma {:induction false} FilterInside(cluster: string, task: string, rows: seq<Row>)
    requires forall row :: row in rows && row.taskId == task ==> row.clusterId == cluster
    ensures OfTask(task, OfCluster(cluster, rows)) == OfTask(task, rows)
  {
    if rows != [] {
      var init, last := rows[..|rows| - 1], rows[|rows| - 1];
      assert rows == init + [last];
      assert last in rows;
      FilterInside(cluster, task, init);
      FilterSnoc(InCluster(cluster), init, last);
      FilterSnoc(IsTask(task), OfCluster(cluster, init), last);
    }
  }

  /** If every task belongs to one cluster, these are the task means. */
  lemma TaskMeansSuffice(f: Row -> real, rows: seq<Row>, low: real, high: real)
    requires OneClusterPerTask(rows) && MeansWithin(f, rows, low, high)
    ensures ClusterMeansWithin(f, rows, low, high)
  {
    forall cluster, task | task in TaskIds(OfCluster(cluster, rows))
      ensures low <= TaskMean(f, OfCluster(cluster, rows))(task) <= high
    {
      var group := OfCluster(cluster, rows);
      TaskIdsMembers(group, task);
      var row: Row :| row in group && row.taskId == task;
      FilterMember(InCluster(cluster), rows, row);
      TaskIdsMembers(rows, task);
      FilterInside(cluster, task, rows);
    }
  }

  function Times(n: nat, x: real): real { n as real * x }

  lemma {:induction false} SumWithin(f: string -> real, s: seq<string>, low: real, high: real)
    requires forall x :: x in s ==> low <= f(x) <= high
    ensures Times(|s|, low) <= Sum(f, s) <= Times(|s|, high)
  {
    NoTimes(low);
    NoTimes(high);
    hide Times;
    if s != [] {
      var init, last := s[..|s| - 1], s[|s| - 1];
      assert s == init + [last] && last in s;
      SumWithin(f, init, low, high);
      OneWithin(|init|, Sum(f, init), f(last), low, high);
    }
  }

  lemma NoTimes(x: real)
    ensures Times(0, x) == 0.0
  {
  }

  lemma OneWithin(n: nat, total: real, x: real, low: real, high: real)
    requires Times(n, low) <= total <= Times(n, high) && low <= x <= high
    ensures Times(n + 1, low) <= total + x <= Times(n + 1, high)
  {
    OneMore(n, low);
    OneMore(n, high);
  }

  lemma GroupWithin(f: Row -> real, rows: seq<Row>, cluster: string, low: real, high: real)
    requires ClusterMeansWithin(f, rows, low, high)
    ensures var group := OfCluster(cluster, rows);
      Times(|TaskIds(group)|, low) <= TotalOfMeans(f, group) <= Times(|TaskIds(group)|, high)
  {
    hide OfCluster, TaskIds, MeanOf, OfTask, Times;
    var group := OfCluster(cluster, rows);
    assert MeansWithin(f, group, low, high);
    SumWithin(TaskMean(f, group), TaskIds(group), low, high);
  }

  lemma {:induction false} DrawnWithin(f: Row -> real, rows: seq<Row>, ids: seq<string>, picks: seq<nat>, low: real,
    high: real)
    requires forall d :: 0 <= d < |picks| ==> picks[d] < |ids|
    requires ClusterMeansWithin(f, rows, low, high)
    ensures var n := DrawnTasks(rows, ids, picks);
      Times(n, low) <= DrawnTotal(f, rows, ids, picks) <= Times(n, high)
  {
    NoTimes(low);
    NoTimes(high);
    hide Times, TotalOfMeans, TaskIds, OfCluster, ClusterMeansWithin;
    if picks != [] {
      var init, group := picks[..|picks| - 1], OfCluster(ids[picks[|picks| - 1]], rows);
      DrawnWithin(f, rows, ids, init, low, high);
      GroupWithin(f, rows, ids[picks[|picks| - 1]], low, high);
      WithinStep(DrawnTasks(rows, ids, init), |TaskIds(group)|,
                 DrawnTotal(f, rows, ids, init), TotalOfMeans(f, group), low, high);
    }
  }

  lemma WithinStep(m: nat, n: nat, total: real, x: real, low: real, high: real)
    requires Times(m, low) <= total <= Times(m, high) && Times(n, low) <= x <= Times(n, high)
    ensures Times(m + n, low) <= total + x <= Times(m + n, high)
  {
    AddReal(m, n, low);
    AddReal(m, n, high);
  }

  lemma AddReal(m: nat, n: nat, x: real)
    ensures (m + n) as real * x == m as real * x + n as real * x
  {
    assert (m + n) as real == m as real + n as real;
  }

  lemma QuotientWithin(x: real, n: nat, low: real, high: real)
    requires n > 0 && Times(n, low) <= x <= Times(n, high)
    ensures low <= x / n as real <= high
  {
    DivideBoth(low, x, n as real);
    Quotient(x, n as real);
    CancelFactor(x / n as real, high, n as real);
  }

  /** Every success and quality value of a resample lies between the smallest and largest task mean of any
      cluster. */
  lemma ResampleWithin(f: Row -> real, rows: seq<Row>, ids: seq<string>, picks: seq<nat>, low: real, high: real)
    requires NameBlind(f) && forall d :: 0 <= d < |picks| ==> picks[d] < |ids|
    requires ClusterMeansWithin(f, rows, low, high)
    requires TaskIds(Resample(rows, ids, picks)) != []
    ensures var sample := Resample(rows, ids, picks);
      low <= TotalOfMeans(f, sample) / |TaskIds(sample)| as real <= high
  {
    hide Resample, TotalOfMeans, TaskIds, ClusterMeansWithin, DrawnTotal, DrawnTasks, Times;
    ResampleAverages(f, rows, ids, picks);
    DrawnWithin(f, rows, ids, picks, low, high);
    QuotientWithin(DrawnTotal(f, rows, ids, picks), DrawnTasks(rows, ids, picks), low, high);
  }

  // ----- the three metrics -----

  /** The program uses 10000 resamples, 20 clusters and 5000 valid resamples; nothing below depends on it. */
  datatype Settings = Settings(resamples: nat, minimumClusters: nat, minimumValidResamples: nat)

  const SUCCESS_TARGET: real := 0.8
  const QUALITY_TARGET: real := -0.05
  const REDUCTION_TARGET: real := 0.25
  const WIDTH: real := 0.000000000001

  datatype Reason = MissingUsage | FewClusters | FewResamples | Degenerate | Sparse

  datatype Interval = Interval(lower: real, upper: real)

  datatype Metric = Metric(
    value: Option<real>, interval: Option<Interval>, target: real, validResamples: nat, reason: Option<Reason>)

  datatype Metrics = Metrics(absoluteSuccess: Metric, qualityDifference: Metric, strongTokenReduction: Metric)

  const REAL_LE: (real, real) -> bool := (a: real, b: real) => a <= b

  /** Positions of the percentile bounds: floor((n - 1) * 0.025) and ceil((n - 1) * 0.975). */
  function LowerPosition(n: nat): (p: nat)
    requires n > 0
    ensures p < n
  {
    (n - 1) / 40
  }

  function UpperPosition(n: nat): (p: nat)
    requires n > 0
    ensures LowerPosition(n) <= p < n
  {
    (39 * (n - 1) + 39) / 40
  }

  function MetricOf(observed: Option<real>, values: seq<real>, clusters: nat, target: real, settings: Settings)
    : Metric
  {
    var sorted := Sort(REAL_LE, values);
    var n := |sorted|;
    var reason :=
      if observed.None? then Some(MissingUsage)
      else if clusters < settings.minimumClusters then Some(FewClusters)
      else if n < settings.minimumValidResamples || n == 0 then Some(FewResamples)
      else if sorted[n - 1] - sorted[0] < WIDTH then Some(Degenerate)
      else None;
    if reason.Some? then Metric(observed, None, target, n, reason)
    else
      var interval := Interval(sorted[LowerPosition(n)], sorted[UpperPosition(n)]);
      if interval.upper - interval.lower < WIDTH then Metric(observed, None, target, n, Some(Sparse))
      else Metric(observed, Some(interval), target, n, None)
  }

  function PicksAt(stream: Stream, start: nat, clusters: nat): (r: seq<nat>)
    requires InRange(stream)
    ensures |r| == clusters && forall d :: 0 <= d < clusters ==> r[d] < clusters
  {
    seq(clusters, d requires 0 <= d < clusters => stream(start + d, clusters))
  }

  /** The measures of resample b. */
  function SampleAt(rows: seq<Row>, ids: seq<string>, stream: Stream, b: nat): Measures
    requires InRange(stream)
  {
    Means(Resample(rows, ids, PicksAt(stream, b * |ids|, |ids|)))
  }

  function Samples(rows: seq<Row>, ids: seq<string>, stream: Stream, count: nat): seq<Measures>
    requires InRange(stream)
  {
    if count == 0 then [] else Samples(rows, ids, stream, count - 1) + [SampleAt(rows, ids, stream, count - 1)]
  }

  /** The known values of one measure. */
  function KnownValues(pick: Measures -> Option<real>, samples: seq<Measures>): seq<real> {
    if samples == [] then []
    else
      var last := pick(samples[|samples| - 1]);
      KnownValues(pick, samples[..|samples| - 1]) + (if last.Some? then [last.value] else [])
  }

  const SUCCESS_OF: Measures -> Option<real> := (m: Measures) => m.success
  const QUALITY_OF: Measures -> Option<real> := (m: Measures) => m.quality
  const REDUCTION_OF: Measures -> Option<real> := (m: Measures) => m.reduction

  function SamplesTaken(rows: seq<Row>, stream: Stream, settings: Settings): seq<Measures>
    requires InRange(stream)
  {
    var ids := ClusterIds(rows);
    if |ids| < settings.minimumClusters then [] else Samples(rows, ids, stream, settings.resamples)
  }

  function ReadinessMetrics(rows: seq<Row>, stream: Stream, settings: Settings): Metrics
    requires InRange(stream)
  {
    var samples, values, clusters := SamplesTaken(rows, stream, settings), Means(rows), |ClusterIds(rows)|;
    Metrics(MetricOf(values.success, KnownValues(SUCCESS_OF, samples), clusters, SUCCESS_TARGET, settings),
            MetricOf(values.quality, KnownValues(QUALITY_OF, samples), clusters, QUALITY_TARGET, settings),
            MetricOf(values.reduction, KnownValues(REDUCTION_OF, samples), clusters, REDUCTION_TARGET, settings))
  }

  /** One resample, drawn cluster by cluster. */
  method DrawResample(rows: seq<Row>, ids: seq<string>, random: Random) returns (selected: seq<Row>)
    requires InRange(random.stream)
    modifies random
    ensures random.drawn == old(random.drawn) + |ids|
    ensures selected == Resample(rows, ids, PicksAt(random.stream, old(random.drawn), |ids|))
  {
    hide OfCluster, Map, InRange;
    ghost var picks := PicksAt(random.stream, random.drawn, |ids|);
    selected := [];
    for draw := 0 to |ids|
      invariant random.drawn == old(random.drawn) + draw
      invariant selected == Resample(rows, ids, picks[..draw])
    {
      var position := random.Below(|ids|);
      assert position == picks[draw];
      assert picks[..draw + 1][..draw] == picks[..draw];
      selected := selected + Map(Renamed(draw), OfCluster(ids[position], rows));
    }
    assert picks[..|ids|] == picks;
  }

  /** The bootstrap loop: the known values of each measure over `count` resamples. */
  method TakeSamples(rows: seq<Row>, ids: seq<string>, random: Random, count: nat)
    returns (successes: seq<real>, qualities: seq<real>, reductions: seq<real>)
    requires InRange(random.stream) && random.drawn == 0
    modifies random
    ensures var samples := Samples(rows, ids, random.stream, count);
      && successes == KnownValues(SUCCESS_OF, samples) && qualities == KnownValues(QUALITY_OF, samples)
      && reductions == KnownValues(REDUCTION_OF, samples)
  {
    hide Means, Resample, InRange;
    successes, qualities, reductions := [], [], [];
    ghost var samples := [];
    for b := 0 to count
      invariant random.drawn == b * |ids|
      invariant samples == Samples(rows, ids, random.stream, b)
      invariant successes == KnownValues(SUCCESS_OF, samples)
      invariant qualities == KnownValues(QUALITY_OF, samples)
      invariant reductions == KnownValues(REDUCTION_OF, samples)
    {
      var selected := DrawResample(rows, ids, random);
      var m := ComputeMeans(selected);
      successes := successes + (if m.success.Some? then [m.success.value] else []);
      qualities := qualities + (if m.quality.Some? then [m.quality.value] else []);
      reductions := reductions + (if m.reduction.Some? then [m.reduction.value] else []);
      samples := samples + [m];
    }
  }

  method ComputeMetrics(rows: seq<Row>, random: Random, settings: Settings) returns (r: Metrics)
    requires InRange(random.stream) && random.drawn == 0
    modifies random
    ensures r == ReadinessMetrics(rows, random.stream, settings)
  {
    hide Means, MetricOf, ClusterIds, InRange, Samples;
    var ids := ClusterIds(rows);
    var values := ComputeMeans(rows);
    var successes, qualities, reductions := [], [], [];
    if |ids| >= settings.minimumClusters {
      successes, qualities, reductions := TakeSamples(rows, ids, random, settings.resamples);
    }
    r := Metrics(MetricOf(values.success, successes, |ids|, SUCCESS_TARGET, settings),
                 MetricOf(values.quality, qualities, |ids|, QUALITY_TARGET, settings),
                 MetricOf(values.reduction, reductions, |ids|, REDUCTION_TARGET, settings));
  }

  // ----- intervals lie between the task means -----

  lemma {:induction false} ValuesWithin(pick: Measures -> Option<real>, samples: seq<Measures>, low: real, high: real)
    requires forall m :: m in samples && pick(m).Some? ==> low <= pick(m).value <= high
    ensures forall x :: x in KnownValues(pick, samples) ==> low <= x <= high
  {
    if samples != [] {
      var init := samples[..|samples| - 1];
      assert samples == init + [samples[|samples| - 1]];
      assert samples[|samples| - 1] in samples;
      ValuesWithin(pick, init, low, high);
    }
  }

  lemma IntervalWithin(observed: Option<real>, values: seq<real>, clusters: nat, target: real, settings: Settings,
    low: real, high: real)
    requires forall x :: x in values ==> low <= x <= high
    ensures var interval := MetricOf(observed, values, clusters, target, settings).interval;
      interval.Some? ==> low <= interval.value.lower <= interval.value.upper <= high
  {
    var sorted := Sort(REAL_LE, values);
    SortPermutes(REAL_LE, values);
    SortSorted(REAL_LE, values);
    SameMembers(sorted, values);
    assert forall i :: 0 <= i < |sorted| ==> sorted[i] in sorted;
  }

  lemma {:induction false} SamplesAre(rows: seq<Row>, ids: seq<string>, stream: Stream, count: nat, m: Measures)
    requires InRange(stream) && m in Samples(rows, ids, stream, count)
    ensures exists b: nat :: b < count && m == SampleAt(rows, ids, stream, b)
  {
    hide InRange, SampleAt;
    if m in Samples(rows, ids, stream, count - 1) {
      SamplesAre(rows, ids, stream, count - 1, m);
    }
  }

  lemma SampleWithin(rows: seq<Row>, ids: seq<string>, stream: Stream, b: nat, low: real, high: real)
    requires InRange(stream)
    ensures ClusterMeansWithin(SUCCESS, rows, low, high) && SampleAt(rows, ids, stream, b).success.Some? ==>
      low <= SampleAt(rows, ids, stream, b).success.value <= high
    ensures ClusterMeansWithin(QUALITY, rows, low, high) && SampleAt(rows, ids, stream, b).quality.Some? ==>
      low <= SampleAt(rows, ids, stream, b).quality.value <= high
  {
    hide InRange, ClusterMeansWithin, TotalOfMeans, TaskIds, Resample;
    var picks := PicksAt(stream, b * |ids|, |ids|);
    if TaskIds(Resample(rows, ids, picks)) != [] {
      if ClusterMeansWithin(SUCCESS, rows, low, high) {
        ResampleWithin(SUCCESS, rows, ids, picks, low, high);
      }
      if ClusterMeansWithin(QUALITY, rows, low, high) {
        ResampleWithin(QUALITY, rows, ids, picks, low, high);
      }
    }
  }

  lemma SuccessesWithin(rows: seq<Row>, stream: Stream, settings: Settings, low: real, high: real)
    requires InRange(stream) && ClusterMeansWithin(SUCCESS, rows, low, high)
    ensures forall x :: x in KnownValues(SUCCESS_OF, SamplesTaken(rows, stream, settings)) ==> low <= x <= high
  {
    hide InRange, ClusterMeansWithin, SampleAt;
    var samples, ids := SamplesTaken(rows, stream, settings), ClusterIds(rows);
    forall m | m in samples && m.success.Some? ensures low <= m.success.value <= high {
      SamplesAre(rows, ids, stream, settings.resamples, m);
      var b: nat :| m == SampleAt(rows, ids, stream, b);
      SampleWithin(rows, ids, stream, b, low, high);
    }
    ValuesWithin(SUCCESS_OF, samples, low, high);
  }

  lemma QualitiesWithin(rows: seq<Row>, stream: Stream, settings: Settings, low: real, high: real)
    requires InRange(stream) && ClusterMeansWithin(QUALITY, rows, low, high)
    ensures forall x :: x in KnownValues(QUALITY_OF, SamplesTaken(rows, stream, settings)) ==> low <= x <= high
  {
    hide InRange, ClusterMeansWithin, SampleAt;
    var samples, ids := SamplesTaken(rows, stream, settings), ClusterIds(rows);
    forall m | m in samples && m.quality.Some? ensures low <= m.quality.value <= high {
      SamplesAre(rows, ids, stream, settings.resamples, m);
      var b: nat :| m == SampleAt(rows, ids, stream, b);
      SampleWithin(rows, ids, stream, b, low, high);
    }
    ValuesWithin(QUALITY_OF, samples, low, high);
  }

  /** For every seed, the reported bounds of absolute success lie between the smallest and the largest
      task mean of any cluster, in order; likewise those of the quality difference. */
  lemma SuccessBounds(rows: seq<Row>, stream: Stream, settings: Settings, low: real, high: real)
    requires InRange(stream) && ClusterMeansWithin(SUCCESS, rows, low, high)
    ensures var interval := ReadinessMetrics(rows, stream, settings).absoluteSuccess.interval;
      interval.Some? ==> low <= interval.value.lower <= interval.value.upper <= high
  {
    hide InRange, ClusterMeansWithin, SamplesTaken, MetricOf, Means;
    SuccessesWithin(rows, stream, settings, low, high);
    IntervalWithin(Means(rows).success, KnownValues(SUCCESS_OF, SamplesTaken(rows, stream, settings)),
                   |ClusterIds(rows)|, SUCCESS_TARGET, settings, low, high);
  }

  lemma QualityBounds(rows: seq<Row>, stream: Stream, settings: Settings, low: real, high: real)
    requires InRange(stream) && ClusterMeansWithin(QUALITY, rows, low, high)
    ensures var interval := ReadinessMetrics(rows, stream, settings).qualityDifference.interval;
      interval.Some? ==> low <= interval.value.lower <= interval.value.upper <= high
  {
    hide InRange, ClusterMeansWithin, SamplesTaken, MetricOf, Means;
    QualitiesWithin(rows, stream, settings, low, high);
    IntervalWithin(Means(rows).quality, KnownValues(QUALITY_OF, SamplesTaken(rows, stream, settings)),
                   |ClusterIds(rows)|, QUALITY_TARGET, settings, low, high);
  }

  // ----- repeating and permuting rows changes no metric -----

  lemma {:induction false} MapRepeat<A, B>(f: A -> B, s: seq<A>, k: nat)
    ensures Map(f, Repeat(s, k)) == Repeat(Map(f, s), k)
  {
    if k > 0 {
      MapRepeat(f, s, k - 1);
      MapConcat(f, Repeat(s, k - 1), s);
    }
  }

  lemma ScaledMap<A, B>(f: A -> B, s: seq<A>, t: seq<A>, k: nat)
    requires Scaled(s, t, k)
    ensures Scaled(Map(f, s), Map(f, t), k)
  {
    MapRepeat(f, s, k);
    MapPermuted(f, t, Repeat(s, k));
  }

  lemma {:induction false} RepeatConcat<T>(a: seq<T>, b: seq<T>, k: nat)
    ensures multiset(Repeat(a + b, k)) == multiset(Repeat(a, k)) + multiset(Repeat(b, k))
  {
    if k > 0 {
      RepeatConcat(a, b, k - 1);
    }
  }

  lemma ScaledConcat<T>(a: seq<T>, b: seq<T>, c: seq<T>, d: seq<T>, k: nat)
    requires Scaled(a, c, k) && Scaled(b, d, k)
    ensures Scaled(a + b, c + d, k)
  {
    RepeatConcat(a, b, k);
  }

  lemma {:induction false} ScaledResample(s: seq<Row>, t: seq<Row>, k: nat, ids: seq<string>, picks: seq<nat>)
    requires Scaled(s, t, k) && forall d :: 0 <= d < |picks| ==> picks[d] < |ids|
    ensures Scaled(Resample(s, ids, picks), Resample(t, ids, picks), k)
  {
    hide Scaled, Renamed, InCluster;
    if picks == [] {
      NothingScaled<Row>(k);
    } else {
      var draw := |picks| - 1;
      var cluster := ids[picks[draw]];
      ScaledResample(s, t, k, ids, picks[..draw]);
      ScaledFilter(InCluster(cluster), s, t, k);
      ScaledMap(Renamed(draw), OfCluster(cluster, s), OfCluster(cluster, t), k);
      ScaledConcat(Resample(s, ids, picks[..draw]), Map(Renamed(draw), OfCluster(cluster, s)),
                   Resample(t, ids, picks[..draw]), Map(Renamed(draw), OfCluster(cluster, t)), k);
    }
  }

  lemma {:induction false} NothingScaled<T>(k: nat)
    ensures Scaled<T>([], [], k)
  {
    if k > 0 {
      NothingScaled<T>(k - 1);
    }
  }

  lemma ScaledClusters(s: seq<Row>, t: seq<Row>, k: nat)
    requires Scaled(s, t, k) && k >= 1
    ensures ClusterIds(s) == ClusterIds(t)
  {
    var a, b := Map(CLUSTER_OF, s), Map(CLUSTER_OF, t);
    ScaledMap(CLUSTER_OF, s, t, k);
    forall x ensures x in a <==> x in b {
      ScaledMembers(a, b, k, x);
    }
    DistinctMembers(a);
    DistinctMembers(b);
    SameElements(Distinct(a), Distinct(b));
    StringOrder(Distinct(a));
    SortPermuted(StringLe, Distinct(a), Distinct(b));
  }

  lemma {:induction false} ScaledSamples(s: seq<Row>, t: seq<Row>, k: nat, ids: seq<string>, stream: Stream, count: nat)
    requires InRange(stream) && Scaled(s, t, k) && k >= 1
    ensures Samples(s, ids, stream, count) == Samples(t, ids, stream, count)
  {
    hide Means, Resample, InRange, Scaled;
    if count > 0 {
      ScaledSamples(s, t, k, ids, stream, count - 1);
      var picks := PicksAt(stream, (count - 1) * |ids|, |ids|);
      ScaledResample(s, t, k, ids, picks);
      MeansScaled(Resample(s, ids, picks), Resample(t, ids, picks), k);
    }
  }

  /** Repeating every row k >= 1 times, or permuting the rows, leaves all three metrics unchanged, for
      every seed. */
  lemma MetricsScaled(s: seq<Row>, t: seq<Row>, k: nat, stream: Stream, settings: Settings)
    requires InRange(stream) && Scaled(s, t, k) && k >= 1
    ensures ReadinessMetrics(s, stream, settings) == ReadinessMetrics(t, stream, settings)
  {
    hide Means, InRange, Scaled, ClusterIds, MetricOf;
    MeansScaled(s, t, k);
    ScaledClusters(s, t, k);
    ScaledSamples(s, t, k, ClusterIds(s), stream, settings.resamples);
  }

  // ----- what the three measures mean -----

  /** The rows with another number in the place of routed success. */
  function Judged(value: Row -> real, rows: seq<Row>): seq<Row> {
    if rows == [] then []
    else Judged(value, rows[..|rows| - 1]) + [rows[|rows| - 1].(routed := value(rows[|rows| - 1]))]
  }

  lemma {:induction false} JudgedTasks(value: Row -> real, rows: seq<Row>)
    ensures TaskIds(Judged(value, rows)) == TaskIds(rows) && |Judged(value, rows)| == |rows|
    ensures Map(TASK_OF, Judged(value, rows)) == Map(TASK_OF, rows)
  {
    if rows != [] {
      JudgedTasks(value, rows[..|rows| - 1]);
    }
  }

  lemma {:induction false} JudgedSum(value: Row -> real, rows: seq<Row>, task: string)
    ensures |OfTask(task, Judged(value, rows))| == |OfTask(task, rows)|
    ensures Sum(SUCCESS, OfTask(task, Judged(value, rows))) == Sum(value, OfTask(task, rows))
  {
    if rows != [] {
      JudgedSum(value, rows[..|rows| - 1], task);
      var init, last := rows[..|rows| - 1], rows[|rows| - 1];
      var judged := last.(routed := value(last));
      assert rows == init + [last];
      FilterSnoc(IsTask(task), init, last);
      FilterSnoc(IsTask(task), Judged(value, init), judged);
      SumSnoc(SUCCESS, OfTask(task, Judged(value, init)), judged);
      SumSnoc(value, OfTask(task, init), last);
    }
  }

  lemma JudgedTotal(value: Row -> real, rows: seq<Row>)
    ensures TotalOfMeans(SUCCESS, Judged(value, rows)) == TotalOfMeans(value, rows)
    ensures TaskIds(Judged(value, rows)) == TaskIds(rows)
  {
    JudgedTasks(value, rows);
    hide Judged, Sum;
    forall task ensures TaskMean(SUCCESS, Judged(value, rows))(task) == TaskMean(value, rows)(task) {
      JudgedSum(value, rows, task);
    }
    SumSame(TaskMean(SUCCESS, Judged(value, rows)), TaskMean(value, rows), TaskIds(rows));
  }

  /** The equal-task mean of any number that the rows carry. */
  function EqualTaskMean(value: Row -> real, rows: seq<Row>): Option<real> { Means(Judged(value, rows)).success }

  function Per(total: real, n: nat): real
    requires n > 0
  {
    total / n as real
  }

  function Saving(routed: real, baseline: real): real
    requires baseline != 0.0
  {
    1.0 - routed / baseline
  }

  lemma NonEmptyTasks(rows: seq<Row>)
    requires rows != []
    ensures TaskIds(rows) != []
  {
    TaskIdsMembers(rows, rows[0].taskId);
  }

  lemma JudgedSuccess(value: Row -> real, rows: seq<Row>)
    requires rows != []
    ensures TaskIds(rows) != []
    ensures EqualTaskMean(value, rows) == Some(Per(TotalOfMeans(value, rows), |TaskIds(rows)|))
  {
    NonEmptyTasks(rows);
    JudgedTasks(value, rows);
    JudgedTotal(value, rows);
    hide TaskIds, TotalOfMeans, Judged;
  }

  lemma {:induction false} SumDifference<T>(f: T -> real, g: T -> real, h: T -> real, s: seq<T>)
    requires forall x :: x in s ==> h(x) == f(x) - g(x)
    ensures Sum(h, s) == Sum(f, s) - Sum(g, s)
  {
    if s != [] {
      assert s == s[..|s| - 1] + [s[|s| - 1]];
      SumDifference(f, g, h, s[..|s| - 1]);
    }
  }

  lemma MeanDifference(f: Row -> real, g: Row -> real, h: Row -> real, rows: seq<Row>)
    requires forall row :: h(row) == f(row) - g(row)
    ensures MeanOf(h, rows) == MeanOf(f, rows) - MeanOf(g, rows)
  {
    SumDifference(f, g, h, rows);
  }

  lemma TotalDifference(f: Row -> real, g: Row -> real, h: Row -> real, rows: seq<Row>)
    requires forall row :: h(row) == f(row) - g(row)
    ensures TotalOfMeans(h, rows) == TotalOfMeans(f, rows) - TotalOfMeans(g, rows)
  {
    forall task: string ensures TaskMean(h, rows)(task) == TaskMean(f, rows)(task) - TaskMean(g, rows)(task) {
      MeanDifference(f, g, h, OfTask(task, rows));
    }
    hide TaskIds, MeanOf, OfTask;
    SumDifference(TaskMean(f, rows), TaskMean(g, rows), TaskMean(h, rows), TaskIds(rows));
  }

  ghost predicate AllTokensKnown(rows: seq<Row>) {
    forall row :: row in rows ==> row.routedTokens.Some? && row.baselineTokens.Some?
  }

  lemma MeansAre(rows: seq<Row>)
    requires rows != []
    ensures TaskIds(rows) != []
    ensures var m, n, baseline := Means(rows), |TaskIds(rows)|, TotalOfMeans(BASELINE_TOKENS, rows);
      && m.success == Some(Per(TotalOfMeans(SUCCESS, rows), n))
      && m.quality == Some(Per(TotalOfMeans(QUALITY, rows), n))
      && (m.reduction.Some? <==> AllTokensKnown(rows) && baseline > 0.0)
      && (m.reduction.Some? ==> m.reduction.value == Saving(TotalOfMeans(ROUTED_TOKENS, rows), baseline))
  {
    NonEmptyTasks(rows);
    hide TotalOfMeans, TaskIds;
  }

  lemma QualityTotal(rows: seq<Row>, strong: Row -> real)
    requires forall row :: strong(row) == row.strong
    ensures TotalOfMeans(QUALITY, rows) == TotalOfMeans(SUCCESS, rows) - TotalOfMeans(strong, rows)
  {
    TotalDifference(SUCCESS, strong, QUALITY, rows);
    hide *;
  }

  lemma QualityFrom(rows: seq<Row>, strong: Row -> real)
    requires rows != []
    requires TotalOfMeans(QUALITY, rows) == TotalOfMeans(SUCCESS, rows) - TotalOfMeans(strong, rows)
    ensures Means(rows).success.Some? && Means(rows).quality.Some? && EqualTaskMean(strong, rows).Some?
    ensures Means(rows).quality.value == Means(rows).success.value - EqualTaskMean(strong, rows).value
  {
    hide *;
    MeansAre(rows);
    JudgedSuccess(strong, rows);
    PerDifference(TotalOfMeans(SUCCESS, rows), TotalOfMeans(strong, rows), |TaskIds(rows)|);
  }

  /** The quality difference is the equal-task mean of routed success minus that of strong success. */
  lemma QualityMeans(rows: seq<Row>, strong: Row -> real)
    requires rows != [] && forall row :: strong(row) == row.strong
    ensures Means(rows).success.Some? && Means(rows).quality.Some? && EqualTaskMean(strong, rows).Some?
    ensures Means(rows).quality.value == Means(rows).success.value - EqualTaskMean(strong, rows).value
  {
    hide *;
    QualityTotal(rows, strong);
    QualityFrom(rows, strong);
  }

  /** It is not negative if no row's routed run did worse. */
  lemma QualitySign(rows: seq<Row>)
    requires rows != [] && forall row :: row in rows ==> row.routed >= row.strong
    ensures Means(rows).quality.Some? && Means(rows).quality.value >= 0.0
  {
    QualityNonNegative(rows);
    MeansAre(rows);
    PerDifference(TotalOfMeans(QUALITY, rows), 0.0, |TaskIds(rows)|);
    hide *;
  }

  lemma PerDifference(x: real, y: real, n: nat)
    requires n > 0
    ensures Per(x - y, n) == Per(x, n) - Per(y, n)
    ensures x >= y ==> Per(x - y, n) >= 0.0
  {
  }

  lemma QualityNonNegative(rows: seq<Row>)
    requires rows != [] && forall row :: row in rows ==> row.routed >= row.strong
    ensures TotalOfMeans(QUALITY, rows) >= 0.0
  {
    forall task: string ensures TaskMean(QUALITY, rows)(task) >= 0.0 {
      var selected := OfTask(task, rows);
      forall k | 0 <= k < |selected| ensures QUALITY(selected[k]) >= 0.0 {
        FilterMember(IsTask(task), rows, selected[k]);
      }
      SumNonNegative(QUALITY, selected);
    }
    hide MeanOf, TaskIds;
    SumNonNegative(TaskMean(QUALITY, rows), TaskIds(rows));
  }

  lemma {:induction false} SumEqual<T>(f: T -> real, g: T -> real, s: seq<T>)
    requires forall x :: x in s ==> f(x) == g(x)
    ensures Sum(f, s) == Sum(g, s)
  {
    if s != [] {
      assert s == s[..|s| - 1] + [s[|s| - 1]];
      SumEqual(f, g, s[..|s| - 1]);
    }
  }

  lemma TotalEqual(f: Row -> real, g: Row -> real, rows: seq<Row>)
    requires forall row :: row in rows ==> f(row) == g(row)
    ensures TotalOfMeans(f, rows) == TotalOfMeans(g, rows)
  {
    forall task: string ensures TaskMean(f, rows)(task) == TaskMean(g, rows)(task) {
      forall row | row in OfTask(task, rows) ensures f(row) == g(row) {
        FilterMember(IsTask(task), rows, row);
      }
      SumEqual(f, g, OfTask(task, rows));
    }
    hide MeanOf, TaskIds;
    SumSame(TaskMean(f, rows), TaskMean(g, rows), TaskIds(rows));
  }

  /** The row's numbers are its token counts, if it has them. */
  ghost predicate CountTokens(routed: Row -> real, baseline: Row -> real) {
    && (forall row: Row :: row.routedTokens.Some? ==> routed(row) == row.routedTokens.value)
    && (forall row: Row :: row.baselineTokens.Some? ==> baseline(row) == row.baselineTokens.value)
  }

  /** `share` of the baseline was saved: positive if less was used, zero if as much. */
  ghost predicate IsSaving(share: real, routed: real, baseline: real) {
    && share * baseline == baseline - routed
    && (share > 0.0 <==> routed < baseline) && (share == 0.0 <==> routed == baseline)
  }

  /** The reduction is known exactly if all tokens are and the baseline used some. It is the share of the
      baseline's equal-task mean that routing saved: positive exactly if routing used fewer tokens. */
  lemma ReductionMeans(rows: seq<Row>, routed: Row -> real, baseline: Row -> real)
    requires rows != [] && CountTokens(routed, baseline)
    ensures EqualTaskMean(routed, rows).Some? && EqualTaskMean(baseline, rows).Some?
    ensures var r, x, y := Means(rows).reduction, EqualTaskMean(routed, rows).value,
        EqualTaskMean(baseline, rows).value;
      && (r.Some? <==> AllTokensKnown(rows) && y > 0.0)
      && (r.Some? ==> IsSaving(r.value, x, y))
  {
    if AllTokensKnown(rows) {
      TotalEqual(ROUTED_TOKENS, routed, rows);
      TotalEqual(BASELINE_TOKENS, baseline, rows);
    }
    MeansAre(rows);
    JudgedSuccess(routed, rows);
    JudgedSuccess(baseline, rows);
    hide *;
    Saved(TotalOfMeans(routed, rows), TotalOfMeans(baseline, rows), |TaskIds(rows)|);
  }

  lemma Saved(routed: real, baseline: real, n: nat)
    requires n > 0
    ensures Per(baseline, n) > 0.0 <==> baseline > 0.0
    ensures baseline > 0.0 ==> IsSaving(Saving(routed, baseline), Per(routed, n), Per(baseline, n))
  {
    if baseline > 0.0 {
      SavedOf(routed, baseline, n as real);
    }
  }

  lemma SavedOf(routed: real, baseline: real, n: real)
    requires n > 0.0 && baseline > 0.0
    ensures (1.0 - routed / baseline) * (baseline / n) == baseline / n - routed / n
    ensures 1.0 - routed / baseline > 0.0 <==> routed / n < baseline / n
    ensures 1.0 - routed / baseline == 0.0 <==> routed / n == baseline / n
  {
  }

  /** With one row for each task, the measures are plain averages over the rows. */
  lemma OneRowPerTask(rows: seq<Row>, value: Row -> real)
    requires rows != [] && NoDuplicates(Map(TASK_OF, rows))
    ensures EqualTaskMean(value, rows) == Some(Sum(value, rows) / |rows| as real)
  {
    JudgedSuccess(value, rows);
    DistinctKeeps(Map(TASK_OF, rows));
    SingleRows(value, rows);
  }

  lemma {:induction false} DistinctKeeps(s: seq<string>)
    requires NoDuplicates(s)
    ensures Distinct(s) == s
  {
    if s != [] {
      DistinctKeeps(s[..|s| - 1]);
      DistinctMembers(s[..|s| - 1]);
    }
  }

  lemma {:induction false} SingleRows(value: Row -> real, rows: seq<Row>)
    requires NoDuplicates(Map(TASK_OF, rows))
    ensures Sum(TaskMean(value, rows), Map(TASK_OF, rows)) == Sum(value, rows)
  {
    MapIs(rows);
    forall i | 0 <= i < |rows| ensures TaskMean(value, rows)(Map(TASK_OF, rows)[i]) == value(rows[i]) {
      OnlyRow(rows, i);
      assert OfTask(rows[i].taskId, rows) == [rows[i]];
      SumSnoc(value, [], rows[i]);
      assert [] + [rows[i]] == [rows[i]];
    }
    hide TaskMean, NoDuplicates;
    MapSum(TaskMean(value, rows), value, rows);
  }

  lemma {:induction false} MapIs(rows: seq<Row>)
    ensures forall i :: 0 <= i < |rows| ==> Map(TASK_OF, rows)[i] == rows[i].taskId
  {
    if rows != [] {
      MapIs(rows[..|rows| - 1]);
    }
  }

  lemma {:induction false} MapSum(f: string -> real, g: Row -> real, rows: seq<Row>)
    requires forall i :: 0 <= i < |rows| ==> f(Map(TASK_OF, rows)[i]) == g(rows[i])
    ensures Sum(f, Map(TASK_OF, rows)) == Sum(g, rows)
  {
    if rows != [] {
      var init := rows[..|rows| - 1];
      assert Map(TASK_OF, rows) == Map(TASK_OF, init) + [rows[|rows| - 1].taskId];
      forall i | 0 <= i < |init| ensures f(Map(TASK_OF, init)[i]) == g(init[i]) {
        assert Map(TASK_OF, init)[i] == Map(TASK_OF, rows)[i];
      }
      MapSum(f, g, init);
      assert f(Map(TASK_OF, rows)[|rows| - 1]) == g(rows[|rows| - 1]);
    }
  }

  lemma {:induction false} OnlyRow(rows: seq<Row>, i: nat)
    requires i < |rows| && forall j :: 0 <= j < |rows| && j != i ==> rows[j].taskId != rows[i].taskId
    ensures OfTask(rows[i].taskId, rows) == [rows[i]]
  {
    var task := rows[i].taskId;
    assert rows == rows[..i] + [rows[i]] + rows[i + 1..];
    FilterConcat(IsTask(task), rows[..i] + [rows[i]], rows[i + 1..]);
    FilterSnoc(IsTask(task), rows[..i], rows[i]);
    FilterNone(task, rows[..i]);
    FilterNone(task, rows[i + 1..]);
  }

  lemma FilterNone(task: string, rows: seq<Row>)
    requires forall j :: 0 <= j < |rows| ==> rows[j].taskId != task
    ensures OfTask(task, rows) == []
  {
    if OfTask(task, rows) != [] {
      FilterMember(IsTask(task), rows, OfTask(task, rows)[0]);
    }
  }

  /** A task counts once, however many rows it has: repeating all of its rows changes no measure. */
  lemma TaskCountsOnce(rows: seq<Row>, task: string)
    ensures Means(rows + OfTask(task, rows)) == Means(rows)
  {
    var selected := OfTask(task, rows);
    var more := rows + selected;
    SameTotal(SUCCESS, rows, task);
    SameTotal(QUALITY, rows, task);
    SameTotal(ROUTED_TOKENS, rows, task);
    SameTotal(BASELINE_TOKENS, rows, task);
    hide TotalOfMeans, TaskIds;
    forall row | row in selected ensures row in rows {
      FilterMember(IsTask(task), rows, row);
    }
    assert forall row :: row in more <==> row in rows;
    assert rows == [] ==> more == [];
  }

  lemma SameTotal(f: Row -> real, rows: seq<Row>, task: string)
    ensures var more := rows + OfTask(task, rows);
      TaskIds(more) == TaskIds(rows) && TotalOfMeans(f, more) == TotalOfMeans(f, rows)
  {
    var more := rows + OfTask(task, rows);
    SameIds(rows, task);
    forall t: string ensures TaskMean(f, more)(t) == TaskMean(f, rows)(t) {
      SameTaskMean(f, rows, task, t);
    }
    SumSame(TaskMean(f, more), TaskMean(f, rows), TaskIds(rows));
    hide TaskMean, TaskIds, Sum;
  }

  lemma SameTaskMean(f: Row -> real, rows: seq<Row>, task: string, t: string)
    ensures MeanOf(f, OfTask(t, rows + OfTask(task, rows))) == MeanOf(f, OfTask(t, rows))
  {
    var selected := OfTask(task, rows);
    FilterConcat(IsTask(t), rows, selected);
    if t == task {
      FilterTask(rows, task);
      SumConcat(f, selected, selected);
      if selected != [] {
        MeanOfScaled(2, Sum(f, selected), |selected|);
      }
    } else {
      forall j | 0 <= j < |selected| ensures selected[j].taskId != t {
        FilterMember(IsTask(task), rows, selected[j]);
      }
      FilterNone(t, selected);
      assert OfTask(t, rows) + [] == OfTask(t, rows);
    }
  }

  lemma FilterTask(rows: seq<Row>, task: string)
    ensures OfTask(task, OfTask(task, rows)) == OfTask(task, rows)
  {
    var selected := OfTask(task, rows);
    forall j | 0 <= j < |selected| ensures IsTask(task)(selected[j]) {
      FilterMember(IsTask(task), rows, selected[j]);
    }
    FilterAll(IsTask(task), selected);
  }

  lemma SameIds(rows: seq<Row>, task: string)
    ensures TaskIds(rows + OfTask(task, rows)) == TaskIds(rows)
  {
    var selected := OfTask(task, rows);
    MapConcat(TASK_OF, rows, selected);
    forall y | y in Map(TASK_OF, selected) ensures y in Map(TASK_OF, rows) {
      MapMembers(TASK_OF, selected, y);
      var row :| row in selected && row.taskId == y;
      FilterMember(IsTask(task), rows, row);
      MapMembers(TASK_OF, rows, y);
    }
    NothingNew(Map(TASK_OF, rows), Map(TASK_OF, selected));
  }

  lemma {:induction false} NothingNew(s: seq<string>, t: seq<string>)
    requires forall x :: x in t ==> x in s
    ensures Distinct(s + t) == Distinct(s)
  {
    if t == [] {
      assert s + t == s;
    } else {
      var init := t[..|t| - 1];
      assert t == init + [t[|t| - 1]];
      assert (s + t)[..|s + t| - 1] == s + init;
      NothingNew(s, init);
      DistinctMembers(s);
    }
  }

  // ----- the percentile bounds -----

  function Under(x: real): real -> bool { (y: real) => y < x }

  function UpTo(x: real): real -> bool { (y: real) => y <= x }

  function Over(x: real): real -> bool { (y: real) => y > x }

  function From(x: real): real -> bool { (y: real) => y >= x }

  /** At most 2.5 percent of the values (without one of them) are beyond either bound, and more are at it or beyond. */
  ghost predicate Percentiles(values: seq<real>, lower: real, upper: real) {
    && lower in values && upper in values && lower <= upper
    && 40 * |Filter(Under(lower), values)| <= |values| - 1 < 40 * |Filter(UpTo(lower), values)|
    && 40 * |Filter(Over(upper), values)| <= |values| - 1 < 40 * |Filter(From(upper), values)|
  }

  lemma CountBelow(s: seq<real>, p: nat)
    requires SortedBy(REAL_LE, s) && p < |s|
    ensures |Filter(Under(s[p]), s)| <= p && |Filter(From(s[p]), s)| >= |s| - p
  {
    assert s == s[..p] + s[p..];
    var high := s[p..];
    forall i | 0 <= i < |high| ensures high[i] >= s[p] {
      assert i > 0 ==> REAL_LE(s[p], s[p + i]);
    }
    FilterConcat(Under(s[p]), s[..p], s[p..]);
    FilterConcat(From(s[p]), s[..p], s[p..]);
    NoneKept(Under(s[p]), s[p..]);
    FilterAll(From(s[p]), s[p..]);
    FilterShorter(Under(s[p]), s[..p]);
    hide Filter;
  }

  lemma CountAbove(s: seq<real>, p: nat)
    requires SortedBy(REAL_LE, s) && p < |s|
    ensures |Filter(Over(s[p]), s)| <= |s| - 1 - p && |Filter(UpTo(s[p]), s)| >= p + 1
  {
    assert s == s[..p + 1] + s[p + 1..];
    var low := s[..p + 1];
    forall i | 0 <= i < |low| ensures low[i] <= s[p] {
      assert i < p ==> REAL_LE(s[i], s[p]);
    }
    FilterConcat(Over(s[p]), s[..p + 1], s[p + 1..]);
    FilterConcat(UpTo(s[p]), s[..p + 1], s[p + 1..]);
    NoneKept(Over(s[p]), s[..p + 1]);
    FilterAll(UpTo(s[p]), s[..p + 1]);
    FilterShorter(Over(s[p]), s[p + 1..]);
    hide Filter;
  }

  lemma CountSorted(keep: real -> bool, values: seq<real>)
    ensures |Filter(keep, Sort(REAL_LE, values))| == |Filter(keep, values)|
  {
    SortPermutes(REAL_LE, values);
    FilterPermuted(keep, Sort(REAL_LE, values), values);
    SameMembers(Filter(keep, Sort(REAL_LE, values)), Filter(keep, values));
  }

  lemma SortedPercentiles(values: seq<real>)
    requires values != []
    ensures |Sort(REAL_LE, values)| == |values|
    ensures var s := Sort(REAL_LE, values);
      Percentiles(values, s[LowerPosition(|s|)], s[UpperPosition(|s|)])
  {
    var s := Sort(REAL_LE, values);
    SortPermutes(REAL_LE, values);
    SortSorted(REAL_LE, values);
    SameMembers(s, values);
    var p, q := LowerPosition(|s|), UpperPosition(|s|);
    CountBelow(s, p);
    CountAbove(s, p);
    CountBelow(s, q);
    CountAbove(s, q);
    CountSorted(Under(s[p]), values);
    CountSorted(UpTo(s[p]), values);
    CountSorted(Over(s[q]), values);
    CountSorted(From(s[q]), values);
    assert s[p] in s && s[q] in s;
    assert 40 * p <= |s| - 1 < 40 * (p + 1) && 40 * (|s| - 1 - q) <= |s| - 1 < 40 * (|s| - q);
  }

  /** Percentile bounds at least 1e-12 apart are the interval; closer ones give none. */
  ghost predicate IntervalOf(values: seq<real>, interval: Option<Interval>, lower: real, upper: real) {
    && Percentiles(values, lower, upper)
    && interval == if upper - lower >= 0.000000000001 then Some(Interval(lower, upper)) else None
  }

  /** A metric reports its observed value and target. Its interval is that of the percentile bounds, if there
      are enough clusters and resamples; else it has none. */
  lemma MetricMeans(observed: Option<real>, values: seq<real>, clusters: nat, target: real, settings: Settings)
    ensures var m := MetricOf(observed, values, clusters, target, settings);
      && m.value == observed && m.target == target && m.validResamples == |values|
      && (m.reason.Some? <==> m.interval.None?)
      && if observed.Some? && clusters >= settings.minimumClusters && values != []
            && |values| >= settings.minimumValidResamples
         then exists lower, upper :: IntervalOf(values, m.interval, lower, upper)
         else m.interval.None?
  {
    SortPermutes(REAL_LE, values);
    hide Sort, Percentiles, LowerPosition, UpperPosition;
    if values != [] {
      SortedPercentiles(values);
      BoundsInRange(values);
      var s := Sort(REAL_LE, values);
      var m := MetricOf(observed, values, clusters, target, settings);
      assert observed.Some? && clusters >= settings.minimumClusters && |values| >= settings.minimumValidResamples
        ==> IntervalOf(values, m.interval, s[LowerPosition(|s|)], s[UpperPosition(|s|)]);
    }
  }

  lemma BoundsInRange(values: seq<real>)
    requires values != []
    ensures var s := Sort(REAL_LE, values);
      && |s| == |values|
      && s[0] <= s[LowerPosition(|s|)] <= s[UpperPosition(|s|)] <= s[|s| - 1]
  {
    SortPermutes(REAL_LE, values);
    SortSorted(REAL_LE, values);
    hide Sort;
    var s := Sort(REAL_LE, values);
    assert LowerPosition(|s|) == 0 || REAL_LE(s[0], s[LowerPosition(|s|)]);
    assert LowerPosition(|s|) == UpperPosition(|s|) || REAL_LE(s[LowerPosition(|s|)], s[UpperPosition(|s|)]);
    assert UpperPosition(|s|) == |s| - 1 || REAL_LE(s[UpperPosition(|s|)], s[|s| - 1]);
  }

  lemma {:induction false} SameKnownValues(p: Measures -> Option<real>, q: Measures -> Option<real>,
      samples: seq<Measures>)
    requires forall m :: p(m) == q(m)
    ensures KnownValues(p, samples) == KnownValues(q, samples)
  {
    if samples != [] {
      SameKnownValues(p, q, samples[..|samples| - 1]);
    }
  }

  /** Each metric is made of its own measure of the rows, its own measure of the resamples, and its target. */
  lemma MetricsMean(rows: seq<Row>, stream: Stream, settings: Settings, success: Measures -> Option<real>,
      quality: Measures -> Option<real>, reduction: Measures -> Option<real>)
    requires InRange(stream)
    requires forall m :: success(m) == m.success && quality(m) == m.quality && reduction(m) == m.reduction
    ensures var m, samples, n := Means(rows), SamplesTaken(rows, stream, settings), |ClusterIds(rows)|;
      ReadinessMetrics(rows, stream, settings) ==
      Metrics(MetricOf(m.success, KnownValues(success, samples), n, 0.8, settings),
              MetricOf(m.quality, KnownValues(quality, samples), n, -0.05, settings),
              MetricOf(m.reduction, KnownValues(reduction, samples), n, 0.25, settings))
  {
    hide InRange, SamplesTaken, MetricOf, Means, ClusterIds;
    var samples := SamplesTaken(rows, stream, settings);
    SameKnownValues(success, SUCCESS_OF, samples);
    SameKnownValues(quality, QUALITY_OF, samples);
    SameKnownValues(reduction, REDUCTION_OF, samples);
  }

  lemma {:induction false} SamplesInOrder(rows: seq<Row>, ids: seq<string>, stream: Stream, count: nat)
    requires InRange(stream)
    ensures |Samples(rows, ids, stream, count)| == count
    ensures forall b: nat :: b < count ==> Samples(rows, ids, stream, count)[b] == SampleAt(rows, ids, stream, b)
  {
    hide InRange, SampleAt;
    if count > 0 {
      SamplesInOrder(rows, ids, stream, count - 1);
    }
  }

  /** The picks of resample b: as many positions of the stream as there are clusters, after b times as many. */
  ghost predicate DrawnAt(picks: seq<nat>, stream: Stream, b: nat, clusters: nat) {
    |picks| == clusters && forall d :: 0 <= d < clusters ==> picks[d] == stream(b * clusters + d, clusters) < clusters
  }

  ghost predicate IsSample(rows: seq<Row>, ids: seq<string>, stream: Stream, b: nat, m: Measures) {
    exists picks :: DrawnAt(picks, stream, b, |ids|) && m == Means(Resample(rows, ids, picks))
  }

  lemma SampleIs(rows: seq<Row>, ids: seq<string>, stream: Stream, b: nat)
    requires InRange(stream)
    ensures IsSample(rows, ids, stream, b, SampleAt(rows, ids, stream, b))
  {
    assert DrawnAt(PicksAt(stream, b * |ids|, |ids|), stream, b, |ids|);
    hide InRange, Means, Resample, DrawnAt;
  }

  /** With enough clusters every resample is taken, none otherwise. Resample b draws as many clusters as there
      are, by the stream's next positions. */
  lemma SamplesMean(rows: seq<Row>, stream: Stream, settings: Settings, b: nat)
    requires InRange(stream)
    ensures |SamplesTaken(rows, stream, settings)|
      == (if |ClusterIds(rows)| >= settings.minimumClusters then settings.resamples else 0)
    ensures b < |SamplesTaken(rows, stream, settings)| ==>
      IsSample(rows, ClusterIds(rows), stream, b, SamplesTaken(rows, stream, settings)[b])
  {
    hide InRange, ClusterIds, Samples, SampleAt, IsSample;
    SamplesInOrder(rows, ClusterIds(rows), stream, settings.resamples);
    SampleIs(rows, ClusterIds(rows), stream, b);
  }
}
