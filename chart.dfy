/**
 * The donut chart of `drawPieChart` and `createDonutSegment`, reduced to its
 * angles: each non-empty segment becomes a slice that starts where the
 * previous one ended, spans its share of 360 degrees and carries the SVG
 * large-arc flag.
 */
module Chart {
  import opened Wrappers
  import opened Records
  import opened Stats
  import opened Sequences

  /** One entry of the segment list handed to `drawPieChart`. */
  datatype Segment = Segment(percentage: real, status: Status)

  /** One drawn slice: its status, its start and end angle in degrees, and the large-arc flag. */
  datatype Slice = Slice(status: Status, startAngle: real, endAngle: real, largeArc: int)

  /** `(count / total) * 100`. */
  function Percentage(count: nat, total: nat): real
    requires total > 0
  {
    (count as real / total as real) * 100.0
  }

  /** The four segments `updateStats` passes to `drawPieChart`, in drawing order. */
  function ChartSegments(counts: Counts): (r: seq<Segment>)
    requires counts.total > 0
    ensures |r| == 4
    ensures r[0].status == Pass && r[1].status == NotHealthy && r[2].status == Fail && r[3].status == Pending
    ensures forall k :: 0 <= k < |r| ==> r[k].percentage == Percentage(CountOf(counts, r[k].status), counts.total)
  {
    [Segment(Percentage(counts.safe, counts.total), Pass),
     Segment(Percentage(counts.notHealthy, counts.total), NotHealthy),
     Segment(Percentage(counts.fail, counts.total), Fail),
     Segment(Percentage(counts.pending, counts.total), Pending)]
  }

  /** `(percentage / 100) * 360`: the angle a segment spans. */
  function Span(percentage: real): real {
    (percentage / 100.0) * 360.0
  }

  /** `createDonutSegment`'s large-arc flag. */
  function LargeArcFlag(startAngle: real, endAngle: real): (flag: int)
    ensures flag == 0 || flag == 1
  {
    if endAngle - startAngle > 180.0 then 1 else 0
  }

  /** The slices drawn for `segments` when the first one starts at `start`. */
  function Layout(segments: seq<Segment>, start: real): (r: seq<Slice>)
    ensures |r| <= |segments|
  {
    if segments == [] then []
    else if segments[0].percentage == 0.0 then Layout(segments[1..], start)
    else
      var end := start + Span(segments[0].percentage);
      [Slice(segments[0].status, start, end, LargeArcFlag(start, end))] + Layout(segments[1..], end)
  }

  /** The segments that get a slice: those whose percentage is not zero. */
  function NonZero(segments: seq<Segment>): (r: seq<Segment>)
    ensures forall s :: s in r <==> s in segments && s.percentage != 0.0
  {
    if segments == [] then []
    else if segments[0].percentage == 0.0 then NonZero(segments[1..])
    else [segments[0]] + NonZero(segments[1..])
  }

  /** The non-zero segments keep their relative order. */
  lemma {:induction false} NonZeroSubsequence(segments: seq<Segment>)
    ensures IsSubsequence(NonZero(segments), segments)
  {
    if segments != [] {
      NonZeroSubsequence(segments[1..]);
      var r := NonZero(segments);
      if segments[0].percentage != 0.0 {
        assert r[0] == segments[0] && r[1..] == NonZero(segments[1..]);
      }
    }
  }

  /** Each non-zero segment is kept as often as it occurs; each zero segment is dropped. */
  lemma {:induction false} NonZeroMultiset(segments: seq<Segment>, s: Segment)
    ensures multiset(NonZero(segments))[s] == if s.percentage != 0.0 then multiset(segments)[s] else 0
  {
    if segments != [] {
      NonZeroMultiset(segments[1..], s);
      assert segments == [segments[0]] + segments[1..];
    }
  }

  /** The angle all segments span together. */
  function TotalSpan(segments: seq<Segment>): real {
    if segments == [] then 0.0 else Span(segments[0].percentage) + TotalSpan(segments[1..])
  }

  /**
   * One slice per non-zero segment, in order, each spanning that segment's
   * share of 360 degrees, with the large-arc flag set exactly when the span
   * exceeds 180 degrees.
   */
  lemma {:induction false} LayoutSlices(segments: seq<Segment>, start: real)
    ensures |Layout(segments, start)| == |NonZero(segments)|
    ensures forall k :: 0 <= k < |Layout(segments, start)| ==>
              var slice := Layout(segments, start)[k];
              slice.status == NonZero(segments)[k].status &&
              slice.endAngle - slice.startAngle == Span(NonZero(segments)[k].percentage) &&
              (slice.largeArc == 1 <==> slice.endAngle - slice.startAngle > 180.0)
  {
    if segments != [] {
      if segments[0].percentage == 0.0 {
        LayoutSlices(segments[1..], start);
      } else {
        LayoutSlices(segments[1..], start + Span(segments[0].percentage));
      }
    }
  }

  /**
   * The slices are laid end to end: the first starts at `start`, each starts
   * where the previous ended, and the last ends after the total span.
   */
  lemma {:induction false} LayoutContiguous(segments: seq<Segment>, start: real)
    ensures var slices := Layout(segments, start);
            slices != [] ==> slices[0].startAngle == start && slices[|slices| - 1].endAngle == start + TotalSpan(segments)
    ensures var slices := Layout(segments, start);
            forall k :: 0 <= k < |slices| - 1 ==> slices[k].endAngle == slices[k + 1].startAngle
    ensures Layout(segments, start) == [] ==> TotalSpan(segments) == 0.0
  {
    if segments != [] {
      var p := segments[0].percentage;
      if p == 0.0 {
        LayoutContiguous(segments[1..], start);
      } else {
        var rest := Layout(segments[1..], start + Span(p));
        LayoutContiguous(segments[1..], start + Span(p));
        assert Layout(segments, start) == [Slice(segments[0].status, start, start + Span(p), LargeArcFlag(start, start + Span(p)))] + rest;
      }
    }
  }

  /** `drawPieChart`: walk the segments, skipping empty ones and advancing `currentAngle`. */
  method DrawPieChart(segments: seq<Segment>) returns (slices: seq<Slice>)
    ensures slices == Layout(segments, 0.0)
  {
    slices := [];
    var currentAngle := 0.0;
    var i := 0;
    while i < |segments|
      invariant 0 <= i <= |segments|
      invariant slices + Layout(segments[i..], currentAngle) == Layout(segments, 0.0)
    {
      var segment := segments[i];
      assert segments[i..][1..] == segments[i + 1..];
      if segment.percentage != 0.0 {
        var angle := (segment.percentage / 100.0) * 360.0;
        var endAngle := currentAngle + angle;
        slices := slices + [Slice(segment.status, currentAngle, endAngle, LargeArcFlag(currentAngle, endAngle))];
        currentAngle := endAngle;
      }
      i := i + 1;
    }
  }

  /** Multiplying by a positive factor keeps the sign. */
  lemma PositiveFactor(a: real, t: real)
    requires t > 0.0
    ensures a * t > 0.0 <==> a > 0.0
  {
  }

  /** A product with a positive factor is zero only when the other factor is. */
  lemma ZeroFactor(a: real, t: real)
    requires t > 0.0 && a * t == 0.0
    ensures a == 0.0
  {
  }

  /** The share of a count spans more than half the circle exactly when it is more than half the total. */
  lemma SpanMajority(count: nat, total: nat)
    requires total > 0
    ensures Span(Percentage(count, total)) * (total as real) == (count as real) * 360.0
    ensures Span(Percentage(count, total)) > 180.0 <==> 2 * count > total
  {
    var c := count as real;
    var t := total as real;
    var x := c / t;
    assert x * t == c;
    assert Span(Percentage(count, total)) == x * 360.0;
    assert (x * 360.0) * t == (x * t) * 360.0;
    PositiveFactor(2.0 * x - 1.0, t);
    assert (2.0 * x - 1.0) * t == 2.0 * (x * t) - t;
    assert (2 * count > total) == (2.0 * c > t);
  }

  /** The four segments of `updateStats` together span the full circle. */
  lemma ChartTotalSpan(counts: Counts)
    requires counts.total > 0
    requires counts.total == counts.safe + counts.fail + counts.notHealthy + counts.pending
    ensures TotalSpan(ChartSegments(counts)) == 360.0
  {
    var segs := ChartSegments(counts);
    var t := counts.total as real;
    SpanMajority(counts.safe, counts.total);
    SpanMajority(counts.notHealthy, counts.total);
    SpanMajority(counts.fail, counts.total);
    SpanMajority(counts.pending, counts.total);
    var s1 := Span(Percentage(counts.safe, counts.total));
    var s2 := Span(Percentage(counts.notHealthy, counts.total));
    var s3 := Span(Percentage(counts.fail, counts.total));
    var s4 := Span(Percentage(counts.pending, counts.total));
    assert TotalSpan(segs[3..]) == s4 + TotalSpan(segs[4..]);
    assert TotalSpan(segs[2..]) == s3 + TotalSpan(segs[3..]);
    assert TotalSpan(segs[1..]) == s2 + TotalSpan(segs[2..]);
    assert TotalSpan(segs) == s1 + s2 + s3 + s4;
    assert (s1 + s2 + s3 + s4) * t == s1 * t + s2 * t + s3 * t + s4 * t;
    assert s1 * t + s2 * t + s3 * t + s4 * t ==
           (counts.safe as real + counts.notHealthy as real + counts.fail as real + counts.pending as real) * 360.0;
    assert counts.safe as real + counts.notHealthy as real + counts.fail as real + counts.pending as real == t;
    assert (TotalSpan(segs) - 360.0) * t == 0.0;
    ZeroFactor(TotalSpan(segs) - 360.0, t);
  }

  /**
   * The chart of `updateStats` closes the circle: it has at least one slice, the
   * first starts at 0 and the last ends at 360.
   */
  lemma StatsChartCloses(counts: Counts)
    requires counts.total > 0
    requires counts.total == counts.safe + counts.fail + counts.notHealthy + counts.pending
    ensures var slices := Layout(ChartSegments(counts), 0.0);
            slices != [] && slices[0].startAngle == 0.0 && slices[|slices| - 1].endAngle == 360.0
  {
    ChartTotalSpan(counts);
    LayoutContiguous(ChartSegments(counts), 0.0);
  }

  /**
   * Every slice of the `updateStats` chart has a positive span, and it takes the
   * large arc exactly when its status holds a strict majority of the records.
   */
  lemma StatsChartLargeArc(counts: Counts)
    requires counts.total > 0
    ensures var slices := Layout(ChartSegments(counts), 0.0);
            forall k :: 0 <= k < |slices| ==>
              slices[k].startAngle < slices[k].endAngle &&
              (slices[k].largeArc == 1 <==> 2 * CountOf(counts, slices[k].status) > counts.total)
  {
    var segs := ChartSegments(counts);
    var slices := Layout(segs, 0.0);
    LayoutSlices(segs, 0.0);
    assert forall s :: s in segs ==> s.percentage == Percentage(CountOf(counts, s.status), counts.total);
    forall k | 0 <= k < |slices|
      ensures slices[k].startAngle < slices[k].endAngle
      ensures slices[k].largeArc == 1 <==> 2 * CountOf(counts, slices[k].status) > counts.total
    {
      var s := NonZero(segs)[k];
      assert s in NonZero(segs);
      SpanMajority(CountOf(counts, s.status), counts.total);
    }
  }

  /**
   * `updateStats`: count the records, and redraw the chart only when there is
   * at least one record (a chart that closes the circle, by `StatsChartCloses`).
   */
  method UpdateStats(records: seq<Record>) returns (counts: Counts, chart: Option<seq<Slice>>)
    ensures counts == ComputeCounts(records)
    ensures chart.Some? <==> records != []
    ensures chart.Some? ==> chart.value == Layout(ChartSegments(counts), 0.0)
    ensures chart.Some? ==> chart.value != [] && chart.value[0].startAngle == 0.0 &&
                            chart.value[|chart.value| - 1].endAngle == 360.0
  {
    counts := ComputeCounts(records);
    chart := None;
    if counts.total > 0 {
      var slices := DrawPieChart(ChartSegments(counts));
      StatsChartCloses(counts);
      chart := Some(slices);
    }
  }
}
