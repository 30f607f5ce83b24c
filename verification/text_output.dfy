// The text report of both revisions (`src/show/text_output.rs` and the older `src/text_output.rs`):
// one header and one row per bus, a table of single-channel buses before a table of multi-channel
// ones, and the bucket cells that list how many periods fell into each power-of-two range.
module TextOutput {
  import opened Wrappers
  import opened Text
  import opened Buckets
  import opened CycleUsage

  /** A statistic as the report reads it; percentage values arrive already rendered. */
  datatype Statistic =
    | Percentage(name: string, dataLabels: seq<(string, string)>)
    | Bucket(buckets: BucketsStatistic)
    | Timeline(name: string, display: string)

  /** A bus result with the statistics it reports. */
  datatype Usage =
    | SingleChannel(name: string, stats: seq<Statistic>)
    | MultiChannel(name: string, stats: seq<Statistic>)

  /** One rendered table: its header and its rows. */
  datatype Table = Table(header: seq<string>, rows: seq<seq<string>>)

  const NO_TRANSACTION := "No transaction on this bus"

  // ---------------------------------------------------------------------------------------------
  // Bucket labels

  lemma {:induction false} Pow2Add(a: nat, b: nat)
    ensures Pow2(a + b) == Pow2(a) * Pow2(b)
    decreases b
  {
    if b > 0 {
      Pow2Add(a, b - 1);
      assert Pow2(a + b) == 2 * Pow2(a + b - 1);
    }
  }

  lemma Pow2Units()
    ensures Pow2(10) == 1024 && Pow2(20) == 1048576
  {
    assert Pow2(2) == 4;
    assert Pow2(5) == 32 by { Pow2Add(2, 3); }
    assert Pow2(10) == 1024 by { Pow2Add(5, 5); }
    Pow2Add(10, 10);
  }

  /** The duration range printed for bucket `i`, as both revisions write it. */
  function RangeText(i: int): (r: string)
    ensures |r| >= 1
  {
    if i < 2 then IntToString(i)
    else if i >= 41 then "2^" + NatToString(i) + "+"
    else if i >= 21 then NatToString(Pow2(i - 21)) + "-" + NatToString(Pow2(i - 20)) + "M"
    else if i >= 11 then NatToString(Pow2(i - 11)) + "-" + NatToString(Pow2(i - 10)) + "k"
    else NatToString(Pow2(i - 1)) + "-" + NatToString(Pow2(i) - 1)
  }

  /** One entry of a bucket cell: the range and how many periods it holds. */
  function BucketLabel(i: int, count: nat): (r: string)
    ensures |r| >= 1 && r[0] != 'N'
  {
    var range := RangeText(i);
    assert range[0] == '-' || IsDigit(range[0]);
    range + " x" + NatToString(count)
  }

  /** Buckets 0 and 1 hold exactly the durations 0 and 1, and their label is that number. */
  lemma ExactLabel(i: int, d: int)
    requires 0 <= i < 2
    ensures RangeText(i) == NatToString(i)
    ensures BucketNum(d) == i <==> d == i
  {
    BucketNumExact(d, i);
  }

  /** Buckets 2 to 10: the label names the first and the last duration of the bucket. */
  lemma SpanLabel(i: int, d: int)
    requires 2 <= i <= 10
    ensures RangeText(i) == NatToString(Pow2(i - 1)) + "-" + NatToString(Pow2(i) - 1)
    ensures BucketNum(d) == i <==> Pow2(i - 1) <= d <= Pow2(i) - 1
  {
    BucketNumExact(d, i);
  }

  /** Buckets 11 to 20: the label counts in units of 1024 cycles, from the bucket's start to its end. */
  lemma KiloLabel(i: int, d: int)
    requires 11 <= i <= 20
    ensures RangeText(i) == NatToString(Pow2(i - 11)) + "-" + NatToString(Pow2(i - 10)) + "k"
    ensures BucketNum(d) == i <==> Pow2(i - 11) * 1024 <= d < Pow2(i - 10) * 1024
  {
    BucketNumExact(d, i);
    Pow2Units();
    Pow2Add(i - 11, 10);
    Pow2Add(i - 10, 10);
  }

  /** Buckets 21 to 40: the label counts in units of 2^20 cycles, from the bucket's start to its end. */
  lemma MegaLabel(i: int, d: int)
    requires 21 <= i <= 40
    ensures RangeText(i) == NatToString(Pow2(i - 21)) + "-" + NatToString(Pow2(i - 20)) + "M"
    ensures BucketNum(d) == i <==> Pow2(i - 21) * 1048576 <= d < Pow2(i - 20) * 1048576
  {
    BucketNumExact(d, i);
    Pow2Units();
    Pow2Add(i - 21, 20);
    Pow2Add(i - 20, 20);
    assert Pow2(i - 1) == Pow2(i - 21) * 1048576;
    assert Pow2(i) == Pow2(i - 20) * 1048576;
  }

  /**
   * As written, the open label of bucket `i` (from 41 on) claims at least 2^i cycles, yet every
   * duration of that bucket is below 2^i; a period of 2^(i-1) cycles, 2^40 for bucket 41, is one.
   */
  lemma OpenLabelOverstates(i: int)
    requires i >= 41
    ensures RangeText(i) == "2^" + NatToString(i) + "+"
    ensures BucketNum(Pow2(i - 1)) == i && Pow2(i - 1) < Pow2(i)
    ensures forall d :: BucketNum(d) == i ==> d < Pow2(i)
  {
    BucketNumExact(Pow2(i - 1), i);
    forall d | BucketNum(d) == i ensures d < Pow2(i) {
      BucketNumExact(d, i);
    }
  }

  /**
   * A duration that fits the 32-bit `CyclesNum` lies in a bucket from -32 to 32, so the open label
   * of the buckets from 41 on is never printed for it.
   */
  lemma CyclesBucketsClosed(d: int)
    requires -(Pow2(31) as int) <= d < Pow2(31)
    ensures -32 <= BucketNum(d) <= 32
  {
    var r := BucketNum(d);
    assert InBucket(d, r);
    if r > 32 {
      Pow2Monotone(31, r - 1);
      assert false;
    } else if r < -32 {
      Pow2Monotone(32, -r - 1);
      assert false;
    }
  }

  // ---------------------------------------------------------------------------------------------
  // Bucket cells

  lemma MinExists(s: set<int>)
    requires s != {}
    ensures exists k :: k in s && forall j :: j in s ==> k <= j
    decreases |s|
  {
    NonEmptyHasMember(s);
    var x :| x in s;
    var rest := s - {x};
    if rest != {} {
      MinExists(rest);
      var m :| m in rest && forall j :: j in rest ==> m <= j;
      var k := if x < m then x else m;
      forall j | j in s ensures k <= j {
        if j != x {
          assert j in rest;
        }
      }
      assert k in s;
    } else {
      assert s == {x};
    }
  }

  /** The smallest element of a non-empty set. */
  function MinOf(s: set<int>): (k: int)
    requires s != {}
    ensures k in s && forall j :: j in s ==> k <= j
  {
    MinExists(s);
    var k :| k in s && forall j :: j in s ==> k <= j;
    k
  }

  /** The buckets with a non-zero count, smallest first: the order a `BTreeMap` walks its keys in. */
  function NonZeroAscending(counts: map<int, nat>): (ks: seq<int>)
    ensures forall a, b :: 0 <= a < b < |ks| ==> ks[a] < ks[b]
    ensures forall k :: k in ks <==> k in counts && counts[k] > 0
    decreases |counts|
  {
    if |counts| == 0 then []
    else
      var k := MinOf(counts.Keys);
      var smaller := counts - {k};
      var rest := NonZeroAscending(smaller);
      assert forall j :: j in smaller <==> j in counts && j != k;
      assert forall j :: j in rest ==> j in smaller && k < j;
      assert forall j :: 0 <= j < |rest| ==> rest[j] in rest;
      if counts[k] > 0 then [k] + rest else rest
  }

  /** The entries of a bucket cell, one per key in `ks`. */
  function Entries(counts: map<int, nat>, ks: seq<int>): (r: seq<string>)
    requires forall k :: k in ks ==> k in counts
    ensures |r| == |ks| && forall i :: 0 <= i < |ks| ==> r[i] == BucketLabel(ks[i], counts[ks[i]])
  {
    seq(|ks|, i requires 0 <= i < |ks| => BucketLabel(ks[i], counts[ks[i]]))
  }

  lemma {:induction false} JoinEmpty(parts: seq<string>, sep: string)
    requires forall i :: 0 <= i < |parts| ==> |parts[i]| >= 1
    ensures Join(parts, sep) == "" <==> |parts| == 0
  {
  }

  lemma {:induction false} JoinFirst(parts: seq<string>, sep: string)
    requires |parts| >= 1 && |parts[0]| >= 1
    ensures |Join(parts, sep)| >= 1 && Join(parts, sep)[0] == parts[0][0]
    decreases |parts|
  {
    if |parts| >= 2 {
      JoinFirst(parts[..|parts| - 1], sep);
    }
  }

  /**
   * The non-verbose cell of a bucket statistic: the non-zero buckets in ascending order joined with
   * "; ", or "No transaction on this bus" when there is none.
   */
  function BucketCell(counts: map<int, nat>): (r: string)
    ensures r == NO_TRANSACTION <==> forall k :: k in counts ==> counts[k] == 0
    ensures r != NO_TRANSACTION ==>
      r == Join(Entries(counts, NonZeroAscending(counts)), "; ")
  {
    var ks := NonZeroAscending(counts);
    var entries := Entries(counts, ks);
    var d := Join(entries, "; ");
    JoinEmpty(entries, "; ");
    if d == "" then NO_TRANSACTION
    else
      JoinFirst(entries, "; ");
      assert d[0] != NO_TRANSACTION[0];
      assert ks[0] in counts && counts[ks[0]] > 0;
      d
  }

  /** The bucket counts of a statistic, as `get_buckets` produces them. */
  ghost function BucketCounts(stat: BucketsStatistic): (m: map<int, nat>)
  {
    map b | b in BucketSet(stat.data) :: |DataForBucket(stat, b)|
  }

  /** Every bucket that occurs holds a period, so the cell is empty exactly when there is no period. */
  lemma NoTransactionIffEmpty(stat: BucketsStatistic)
    ensures BucketCell(BucketCounts(stat)) == NO_TRANSACTION <==> |stat.data| == 0
  {
    var m := BucketCounts(stat);
    if |stat.data| > 0 {
      var p := stat.data[0];
      var b := BucketNum(p.duration);
      assert b in BucketSet(stat.data);
      BucketNumExact(p.duration, b);
      assert p in DataForBucket(stat, b);
      assert m[b] > 0;
    } else {
      assert BucketSet(stat.data) == {};
    }
  }

  /** `format!("{:?}", period)`. */
  function DebugPeriod(p: Period): string
  {
    "Period { start: " + IntToString(p.start) + ", end: " + IntToString(p.end) +
    ", duration: " + IntToString(p.duration) + " }"
  }

  /** `format!("{:?}", periods)`: the verbose bucket cell. */
  function DebugPeriods(ps: seq<Period>): (r: string)
    ensures |r| >= 2 && r[0] == '[' && r[|r| - 1] == ']'
    ensures r == "[]" <==> |ps| == 0
  {
    var parts := seq(|ps|, i requires 0 <= i < |ps| => DebugPeriod(ps[i]));
    JoinEmpty(parts, ", ");
    "[" + Join(parts, ", ") + "]"
  }

  // ---------------------------------------------------------------------------------------------
  // Headers and rows

  /** How many columns a statistic takes: one per percentage label, one otherwise. */
  function StatWidth(s: Statistic): nat
  {
    if s.Percentage? then |s.dataLabels| else 1
  }

  function Width(stats: seq<Statistic>): nat
  {
    if |stats| == 0 then 0 else Width(stats[..|stats| - 1]) + StatWidth(stats[|stats| - 1])
  }

  /** The labels of the percentage entries. */
  function LabelsOf(dataLabels: seq<(string, string)>): (r: seq<string>)
    ensures |r| == |dataLabels| && forall i :: 0 <= i < |r| ==> r[i] == dataLabels[i].1
  {
    seq(|dataLabels|, i requires 0 <= i < |dataLabels| => dataLabels[i].1)
  }

  /** The rendered values of the percentage entries. */
  function ValuesOf(dataLabels: seq<(string, string)>): (r: seq<string>)
    ensures |r| == |dataLabels| && forall i :: 0 <= i < |r| ==> r[i] == dataLabels[i].0
  {
    seq(|dataLabels|, i requires 0 <= i < |dataLabels| => dataLabels[i].0)
  }

  /** The header columns of one statistic. */
  function StatLabels(s: Statistic): (r: seq<string>)
    ensures |r| == StatWidth(s)
  {
    match s {
      case Percentage(_, dataLabels) => LabelsOf(dataLabels)
      case Bucket(b) => [b.name]
      case Timeline(name, _) => [name]
    }
  }

  /** The header columns of a list of statistics, in order. */
  function Labels(stats: seq<Statistic>): (r: seq<string>)
  {
    if |stats| == 0 then [] else Labels(stats[..|stats| - 1]) + StatLabels(stats[|stats| - 1])
  }

  /** The cells of one statistic in a row. */
  ghost function StatCells(s: Statistic, verbose: bool): (r: seq<string>)
    ensures |r| == StatWidth(s)
  {
    match s {
      case Percentage(_, dataLabels) => ValuesOf(dataLabels)
      case Bucket(b) => if verbose then [DebugPeriods(b.data)] else [BucketCell(BucketCounts(b))]
      case Timeline(_, display) => [display]
    }
  }

  /** The cells of a list of statistics, in order. */
  ghost function RowCells(stats: seq<Statistic>, verbose: bool): (r: seq<string>)
  {
    if |stats| == 0 then [] else RowCells(stats[..|stats| - 1], verbose) + StatCells(stats[|stats| - 1], verbose)
  }

  lemma {:induction false} LabelsWidth(stats: seq<Statistic>)
    ensures |Labels(stats)| == Width(stats)
    decreases |stats|
  {
    if |stats| > 0 {
      LabelsWidth(stats[..|stats| - 1]);
    }
  }

  lemma {:induction false} RowCellsWidth(stats: seq<Statistic>, verbose: bool)
    ensures |RowCells(stats, verbose)| == Width(stats)
    decreases |stats|
  {
    if |stats| > 0 {
      RowCellsWidth(stats[..|stats| - 1], verbose);
    }
  }

  lemma {:induction false} PrefixColumns(stats: seq<Statistic>, verbose: bool, n: nat)
    requires n <= |stats|
    ensures Labels(stats[..n]) <= Labels(stats)
    ensures RowCells(stats[..n], verbose) <= RowCells(stats, verbose)
    decreases |stats| - n
  {
    if n < |stats| {
      PrefixColumns(stats, verbose, n + 1);
      assert stats[..n + 1][..n] == stats[..n];
    } else {
      assert stats[..n] == stats;
    }
  }

  /**
   * The cells of a statistic sit under its own header columns: in the header and in a row, what comes
   * before a statistic is equally wide, and the statistic's labels and cells follow it.
   */
  lemma CellsUnderLabels(stats: seq<Statistic>, verbose: bool, i: nat)
    requires i < |stats|
    ensures Labels(stats[..i]) + StatLabels(stats[i]) <= Labels(stats)
    ensures RowCells(stats[..i], verbose) + StatCells(stats[i], verbose) <= RowCells(stats, verbose)
    ensures |Labels(stats[..i])| == |RowCells(stats[..i], verbose)|
  {
    PrefixColumns(stats, verbose, i + 1);
    assert stats[..i + 1][..i] == stats[..i];
    LabelsWidth(stats[..i]);
    RowCellsWidth(stats[..i], verbose);
  }

  /**
   * `SingleChannelBusUsage::get_statistics`: the six cycle counters under their labels, then the
   * delay and the burst buckets; `render` stands for printing a counter converted to `f32`.
   */
  function SingleChannelStatistics(c: Counters, delays: seq<Period>, bursts: seq<Period>, clkPeriod: int,
                                   render: int -> string): (r: seq<Statistic>)
    ensures Width(r) == 8
    ensures Labels(r) == ["Busy", "Backpressure", "No data", "No transaction", "Free", "Reset",
                          "Transaction delays", "Burst lengths"]
  {
    var dataLabels := [(render(c.busy), "Busy"), (render(c.backpressure), "Backpressure"),
                       (render(c.noData), "No data"), (render(c.noTransaction), "No transaction"),
                       (render(c.free), "Free"), (render(c.reset), "Reset")];
    var cycles := [Percentage("Cycles", dataLabels)];
    var withDelays := cycles + [Bucket(BucketsStatistic("Transaction delays", delays, clkPeriod))];
    var r := withDelays + [Bucket(BucketsStatistic("Burst lengths", bursts, clkPeriod))];
    assert r[..|r| - 1] == withDelays && withDelays[..|withDelays| - 1] == cycles && cycles[..0] == [];
    var labels := LabelsOf(dataLabels);
    assert labels[0] == "Busy" && labels[1] == "Backpressure" && labels[2] == "No data";
    assert labels[3] == "No transaction" && labels[4] == "Free" && labels[5] == "Reset";
    assert labels == ["Busy", "Backpressure", "No data", "No transaction", "Free", "Reset"];
    assert Labels(cycles) == labels;
    assert Width(cycles) == 6;
    r
  }

  /** `get_header`: nothing for no bus, otherwise "bus name" and the first bus's statistic labels. */
  function HeaderCells(usages: seq<Usage>): (r: seq<string>)
  {
    if |usages| == 0 then [] else ["bus name"] + Labels(usages[0].stats)
  }

  /** The row `get_data` produces for one bus. */
  ghost function Row(u: Usage, verbose: bool): (r: seq<string>)
  {
    [u.name] + RowCells(u.stats, verbose)
  }

  /** A row of a bus whose statistics have the first bus's width is exactly as wide as the header. */
  lemma RowMatchesHeader(usages: seq<Usage>, i: nat, verbose: bool)
    requires i < |usages| && Width(usages[i].stats) == Width(usages[0].stats)
    ensures |Row(usages[i], verbose)| == |HeaderCells(usages)| == 1 + Width(usages[0].stats)
    ensures HeaderCells(usages)[0] == "bus name" && Row(usages[i], verbose)[0] == usages[i].name
  {
    LabelsWidth(usages[0].stats);
    RowCellsWidth(usages[i].stats, verbose);
  }

  /** `get_header`, which pushes the labels of the first bus's statistics one by one. */
  method GetHeader(usages: seq<Usage>) returns (header: seq<string>)
    ensures header == HeaderCells(usages)
    ensures |usages| == 0 ==> header == []
    ensures |usages| > 0 ==> header[0] == "bus name" && header[1..] == Labels(usages[0].stats)
  {
    if |usages| == 0 {
      return [];
    }
    header := ["bus name"];
    var stats := usages[0].stats;
    var i := 0;
    while i < |stats|
      invariant 0 <= i <= |stats|
      invariant header == ["bus name"] + Labels(stats[..i])
    {
      match stats[i] {
        case Percentage(_, dataLabels) =>
          var j := 0;
          while j < |dataLabels|
            invariant 0 <= j <= |dataLabels|
            invariant header == ["bus name"] + Labels(stats[..i]) + LabelsOf(dataLabels)[..j]
          {
            assert LabelsOf(dataLabels)[..j + 1] == LabelsOf(dataLabels)[..j] + [dataLabels[j].1];
            header := header + [dataLabels[j].1];
            j := j + 1;
          }
          assert LabelsOf(dataLabels)[..j] == LabelsOf(dataLabels);
        case Bucket(b) =>
          header := header + [b.name];
        case Timeline(name, _) =>
          header := header + [name];
      }
      assert stats[..i + 1][..i] == stats[..i];
      i := i + 1;
    }
    assert stats[..i] == stats;
  }

  /** One more percentage value follows the values before it. */
  lemma ValuesSnoc(row: seq<string>, dataLabels: seq<(string, string)>, j: int)
    requires 0 <= j < |dataLabels|
    ensures row + ValuesOf(dataLabels)[..j + 1] == (row + ValuesOf(dataLabels)[..j]) + [dataLabels[j].0]
  {
    assert ValuesOf(dataLabels)[..j + 1] == ValuesOf(dataLabels)[..j] + [dataLabels[j].0];
  }

  /** The counts `get_buckets` returns are the bucket counts of the statistic. */
  lemma BucketCountsAre(stat: BucketsStatistic, counts: map<int, nat>)
    requires forall b :: b in counts <==> b in BucketSet(stat.data)
    requires forall b :: b in counts ==> counts[b] == |DataForBucket(stat, b)|
    ensures counts == BucketCounts(stat)
  {
    assert forall k :: k in counts <==> k in BucketCounts(stat);
  }

  /** The cells one statistic pushes onto a row. */
  method PushStatistic(row: seq<string>, s: Statistic, verbose: bool) returns (row': seq<string>)
    ensures row' == row + StatCells(s, verbose)
  {
    row' := row;
    match s {
      case Percentage(_, dataLabels) =>
        var j := 0;
        while j < |dataLabels|
          invariant 0 <= j <= |dataLabels|
          invariant row' == row + ValuesOf(dataLabels)[..j]
        {
          ValuesSnoc(row, dataLabels, j);
          row' := row' + [dataLabels[j].0];
          j := j + 1;
        }
        assert ValuesOf(dataLabels)[..j] == ValuesOf(dataLabels);
      case Bucket(b) =>
        if verbose {
          row' := row' + [DebugPeriods(b.data)];
        } else {
          var counts := GetBuckets(b);
          BucketCountsAre(b, counts);
          row' := row' + [BucketCell(counts)];
        }
      case Timeline(_, display) =>
        row' := row' + [display];
    }
  }

  /** The cells of one more statistic follow the cells of those before it. */
  lemma RowCellsSnoc(name: string, stats: seq<Statistic>, i: int, verbose: bool)
    requires 0 <= i < |stats|
    ensures [name] + RowCells(stats[..i + 1], verbose) == ([name] + RowCells(stats[..i], verbose)) + StatCells(stats[i], verbose)
  {
    assert stats[..i + 1][..i] == stats[..i];
  }

  /** One row of `get_data`: the bus name, then the cells of each statistic pushed in order. */
  method GetRow(u: Usage, verbose: bool) returns (row: seq<string>)
    ensures row == Row(u, verbose)
    ensures |row| == 1 + Width(u.stats) && row[0] == u.name
  {
    row := [u.name];
    var stats := u.stats;
    var i := 0;
    while i < |stats|
      invariant 0 <= i <= |stats|
      invariant row == [u.name] + RowCells(stats[..i], verbose)
    {
      row := PushStatistic(row, stats[i], verbose);
      RowCellsSnoc(u.name, stats, i, verbose);
      i := i + 1;
    }
    assert stats[..i] == stats;
    RowCellsWidth(stats, verbose);
  }

  /** `get_data`: one row per bus, in the order the buses are given. */
  method GetData(usages: seq<Usage>, verbose: bool) returns (rows: seq<seq<string>>)
    ensures |rows| == |usages|
    ensures forall i :: 0 <= i < |usages| ==> rows[i] == Row(usages[i], verbose)
  {
    rows := [];
    var i := 0;
    while i < |usages|
      invariant 0 <= i <= |usages|
      invariant |rows| == i && forall k :: 0 <= k < i ==> rows[k] == Row(usages[k], verbose)
    {
      var row := GetRow(usages[i], verbose);
      rows := rows + [row];
      i := i + 1;
    }
  }

  // ---------------------------------------------------------------------------------------------
  // Tables

  /** The single-channel buses, in their order. */
  function Singles(usages: seq<Usage>): (r: seq<Usage>)
    ensures forall u :: u in r <==> u in usages && u.SingleChannel?
  {
    if |usages| == 0 then []
    else
      var rest := Singles(usages[..|usages| - 1]);
      var u := usages[|usages| - 1];
      assert forall v :: v in usages <==> v in usages[..|usages| - 1] || v == u;
      if u.SingleChannel? then rest + [u] else rest
  }

  /** The multi-channel buses, in their order. */
  function Multis(usages: seq<Usage>): (r: seq<Usage>)
    ensures forall u :: u in r <==> u in usages && u.MultiChannel?
  {
    if |usages| == 0 then []
    else
      var rest := Multis(usages[..|usages| - 1]);
      var u := usages[|usages| - 1];
      assert forall v :: v in usages <==> v in usages[..|usages| - 1] || v == u;
      if u.MultiChannel? then rest + [u] else rest
  }

  /** Every bus goes to exactly one of the two tables. */
  lemma {:induction false} SplitIsPartition(usages: seq<Usage>)
    ensures |Singles(usages)| + |Multis(usages)| == |usages|
    ensures multiset(Singles(usages)) + multiset(Multis(usages)) == multiset(usages)
    decreases |usages|
  {
    if |usages| > 0 {
      var init := usages[..|usages| - 1];
      SplitIsPartition(init);
      assert usages == init + [usages[|usages| - 1]];
    }
  }

  /** The table of a group of buses. */
  ghost function TableOf(usages: seq<Usage>, verbose: bool): Table
  {
    Table(HeaderCells(usages), seq(|usages|, i requires 0 <= i < |usages| => Row(usages[i], verbose)))
  }

  /** Builds one table: header, then the rows. */
  method MakeTable(usages: seq<Usage>, verbose: bool) returns (t: Table)
    ensures t == TableOf(usages, verbose)
    ensures |t.rows| == |usages|
  {
    var header := GetHeader(usages);
    var rows := GetData(usages, verbose);
    t := Table(header, rows);
  }

  /**
   * `print_statistics_internal`: a table of the single-channel buses, when there is one, comes before a
   * table of the multi-channel buses, when there is one.
   */
  method PrintStatistics(usages: seq<Usage>, verbose: bool) returns (tables: seq<Table>)
    ensures tables == Tables(usages, verbose)
    ensures |tables| == (if |Singles(usages)| > 0 then 1 else 0) + (if |Multis(usages)| > 0 then 1 else 0)
    ensures |Singles(usages)| > 0 ==> tables[0] == TableOf(Singles(usages), verbose)
    ensures |Multis(usages)| > 0 ==> tables[|tables| - 1] == TableOf(Multis(usages), verbose)
  {
    tables := [];
    var singles := Singles(usages);
    if |singles| > 0 {
      var t := MakeTable(singles, verbose);
      tables := tables + [t];
    }
    var multis := Multis(usages);
    if |multis| > 0 {
      var t := MakeTable(multis, verbose);
      tables := tables + [t];
    }
  }

  /** The tables of a list of buses: single-channel first, then multi-channel, each only when non-empty. */
  ghost function Tables(usages: seq<Usage>, verbose: bool): seq<Table>
  {
    (if |Singles(usages)| > 0 then [TableOf(Singles(usages), verbose)] else []) +
    (if |Multis(usages)| > 0 then [TableOf(Multis(usages), verbose)] else [])
  }

  /** The CSV records of some tables: each table's header, then its rows. */
  ghost function Records(tables: seq<Table>): seq<seq<string>>
  {
    if |tables| == 0 then [] else Records(tables[..|tables| - 1]) + [tables[|tables| - 1].header] + tables[|tables| - 1].rows
  }

  /** `generate_csv`: the same tables as the printed report, written record by record. */
  method GenerateCsv(usages: seq<Usage>, verbose: bool) returns (records: seq<seq<string>>)
    ensures records == Records(Tables(usages, verbose))
  {
    records := [];
    ghost var written: seq<Table> := [];
    var singles := Singles(usages);
    if |singles| > 0 {
      var t := MakeTable(singles, verbose);
      records := records + [t.header] + t.rows;
      written := [t];
      assert written[..0] == [];
    }
    assert records == Records(written);
    var multis := Multis(usages);
    if |multis| > 0 {
      var t := MakeTable(multis, verbose);
      records := records + [t.header] + t.rows;
      ghost var before := written;
      written := written + [t];
      assert written[..|written| - 1] == before;
    }
    assert written == Tables(usages, verbose);
  }

  /**
   * The older revision takes analyzers and reads each one's results with `expect("Already calculated")`:
   * it panics when any analyzer has none.
   */
  method CalculatedResults(results: seq<Option<Usage>>) returns (r: Outcome<seq<Usage>>)
    ensures r.Panics? <==> exists i :: 0 <= i < |results| && results[i].None?
    ensures r.Returns? ==> |r.value| == |results| && forall i :: 0 <= i < |results| ==> results[i] == Some(r.value[i])
  {
    var usages: seq<Usage> := [];
    var i := 0;
    while i < |results|
      invariant 0 <= i <= |results|
      invariant |usages| == i && forall k :: 0 <= k < i ==> results[k] == Some(usages[k])
    {
      if results[i].None? {
        return Panics;
      }
      usages := usages + [results[i].value];
      i := i + 1;
    }
    r := Returns(usages);
  }

  /** The older `print_statistics_internal`: the same tables, once every analyzer has its results. */
  method LegacyPrintStatistics(results: seq<Option<Usage>>, verbose: bool) returns (r: Outcome<seq<Table>>)
    ensures r.Panics? <==> exists i :: 0 <= i < |results| && results[i].None?
    ensures r.Returns? ==> exists usages :: (|usages| == |results| &&
      (forall i :: 0 <= i < |results| ==> results[i] == Some(usages[i])) && r.value == Tables(usages, verbose))
  {
    var calculated := CalculatedResults(results);
    if calculated.Panics? {
      return Panics;
    }
    var tables := PrintStatistics(calculated.value, verbose);
    r := Returns(tables);
  }

  /** The older `generate_csv`: the same records, once every analyzer has its results. */
  method LegacyGenerateCsv(results: seq<Option<Usage>>, verbose: bool) returns (r: Outcome<seq<seq<string>>>)
    ensures r.Panics? <==> exists i :: 0 <= i < |results| && results[i].None?
    ensures r.Returns? ==> exists usages :: (|usages| == |results| &&
      (forall i :: 0 <= i < |results| ==> results[i] == Some(usages[i])) && r.value == Records(Tables(usages, verbose)))
  {
    var calculated := CalculatedResults(results);
    if calculated.Panics? {
      return Panics;
    }
    var records := GenerateCsv(calculated.value, verbose);
    r := Returns(records);
  }
}
