/** The dashboard's four headline figures, read from the three stores: total
    and completed tasks, active and high-priority projects, the rounded mean
    objective progress with the achieved count, and the projects and
    objectives due within a week. */
module DashboardStats {
  import opened Values
  import opened ListOps
  import opened EntityList
  import StatsConfig

  /** A figure: its title, value, and the small number shown under it with its caption. */
  datatype Figure = Figure(title: string, value: int, change: int, changeLabel: string)

  /** Milliseconds in a day. */
  const DayMs: int := 1000 * 60 * 60 * 24

  /** `Math.ceil(a / b)` for a positive divisor. */
  function CeilDiv(a: int, b: int): (r: int)
    requires b > 0
    ensures b * (r - 1) < a <= b * r
  {
    var q := (-a) / b;
    assert b * q <= -a < b * q + b;
    -q
  }

  /** `Math.round(s / n)` for a positive count: halves round up. */
  function RoundHalfUp(s: int, n: int): (r: int)
    requires n > 0
    ensures 2 * r * n - n <= 2 * s < 2 * r * n + n
  {
    var q := (2 * s + n) / (2 * n);
    assert 2 * n * q <= 2 * s + n < 2 * n * q + 2 * n;
    q
  }

  /** `item.progress` as the sum adds it. */
  function Progress(item: Record): int {
    NumberOrZero(Get(item, "progress"))
  }

  /** `objectives.reduce((acc, obj) => acc + obj.progress, 0)` */
  function SumProgress(objectives: seq<Record>): (s: int)
    ensures (forall i :: 0 <= i < |objectives| ==> 0 <= Progress(objectives[i]) <= 100) ==>
      0 <= s <= 100 * |objectives|
  {
    if objectives == [] then 0
    else
      var n := |objectives|;
      assert forall i :: 0 <= i < n - 1 ==> objectives[..n - 1][i] == objectives[i];
      SumProgress(objectives[..n - 1]) + Progress(objectives[n - 1])
  }

  /** The "Objectives Progress" value: the rounded mean, or 0 without objectives. */
  function MeanProgress(objectives: seq<Record>): (v: int)
    ensures objectives == [] ==> v == 0
    ensures objectives != [] ==>
      2 * v * |objectives| - |objectives| <= 2 * SumProgress(objectives) < 2 * v * |objectives| + |objectives|
  {
    if |objectives| > 0 then RoundHalfUp(SumProgress(objectives), |objectives|) else 0
  }

  /** An item with a due date whose whole days from `now`, rounded up, are
      between 1 and 7. */
  function DueSoon(item: Record, now: int, parse: string -> int): (b: bool)
    ensures b ==> Truthy(Get(item, "dueDate")) && now < TimeOf(Get(item, "dueDate"), parse)
  {
    Truthy(Get(item, "dueDate")) &&
    var days := CeilDiv(TimeOf(Get(item, "dueDate"), parse) - now, DayMs);
    assert days > 0 ==> DayMs * (days - 1) >= 0;
    days <= 7 && days > 0
  }

  predicate IsCompleted(item: Record) {
    StatusIs(item, "completed")
  }

  /** The four figures, at time `now`. */
  function Figures(tasks: seq<Record>, projects: seq<Record>, objectives: seq<Record>, now: int, parse: string -> int): (r: seq<Figure>)
    ensures |r| == 4
    ensures r[0] == Figure("Total Tasks", |tasks|, Count(tasks, IsCompleted), "completed")
    ensures r[1] == Figure("Active Projects", Count(projects, StatsConfig.IsActive), Count(projects, IsHighPriority), "high priority")
    ensures r[2] == Figure("Objectives Progress", MeanProgress(objectives), Count(objectives, IsCompleted), "achieved")
    ensures r[3] == Figure("Due Soon", Count(projects + objectives, (i: Record) => DueSoon(i, now, parse)), 7, "days threshold")
  {
    [Figure("Total Tasks", |tasks|, Count(tasks, IsCompleted), "completed"),
     Figure("Active Projects", Count(projects, StatsConfig.IsActive), Count(projects, IsHighPriority), "high priority"),
     Figure("Objectives Progress", MeanProgress(objectives), Count(objectives, IsCompleted), "achieved"),
     Figure("Due Soon", Count(projects + objectives, (i: Record) => DueSoon(i, now, parse)), 7, "days threshold")]
  }

  /** An item is due soon exactly when its due time lies after `now` and at
      most seven days later. */
  lemma DueSoonWindow(item: Record, now: int, parse: string -> int)
    requires Truthy(Get(item, "dueDate"))
    ensures DueSoon(item, now, parse) <==>
      now < TimeOf(Get(item, "dueDate"), parse) <= now + 7 * DayMs
  {
    var t := TimeOf(Get(item, "dueDate"), parse);
    var days := CeilDiv(t - now, DayMs);
    if days > 0 {
      assert t - now > 0 by {
        assert DayMs * days >= DayMs;
      }
    }
    if days <= 7 {
      assert DayMs * days <= 7 * DayMs;
    }
    if days >= 8 {
      assert DayMs * (days - 1) >= 7 * DayMs;
    }
  }

  /** A sum between `lo` and `hi` per item rounds to a mean between them. */
  lemma RoundBetween(s: int, n: int, lo: int, hi: int)
    requires n > 0 && lo * n <= s <= hi * n
    ensures lo <= RoundHalfUp(s, n) <= hi
  {
    var r := RoundHalfUp(s, n);
    var below := r - lo;
    var above := r - hi;
    assert 2 * n * below > -n;
    assert 2 * n * above <= n;
  }

  /** With every progress in 0..100 the mean progress is in 0..100. */
  lemma MeanProgressInRange(objectives: seq<Record>)
    requires forall i :: 0 <= i < |objectives| ==> 0 <= Progress(objectives[i]) <= 100
    ensures 0 <= MeanProgress(objectives) <= 100
  {
    if objectives != [] {
      RoundBetween(SumProgress(objectives), |objectives|, 0, 100);
    }
  }

  /** Objectives that all have progress `p` sum to `p` per objective. */
  lemma {:induction false} SumOfEqualProgress(objectives: seq<Record>, p: int)
    requires forall i :: 0 <= i < |objectives| ==> Progress(objectives[i]) == p
    ensures SumProgress(objectives) == p * |objectives|
  {
    if objectives != [] {
      var n := |objectives|;
      SumOfEqualProgress(objectives[..n - 1], p);
      assert p * (n - 1) + p == p * n;
    }
  }

  /** The mean of objectives that all have the same progress is that progress. */
  lemma MeanOfEqualProgress(objectives: seq<Record>, p: int)
    requires objectives != []
    requires forall i :: 0 <= i < |objectives| ==> Progress(objectives[i]) == p
    ensures MeanProgress(objectives) == p
  {
    SumOfEqualProgress(objectives, p);
    RoundBetween(SumProgress(objectives), |objectives|, p, p);
  }
}
