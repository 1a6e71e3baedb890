/**
 * The date-range slicer of both datamining downloads
 * (eanalytics_api_py/conn/_download_datamining.py and eanalytics_api_py/conn.py).
 *
 * Dates are day numbers. Starting at `date-from`, a slice ends
 * `n_days_slice` days later, clipped to `date-to`; the next slice starts
 * the day after. The loop stops once a slice ends at `date-to`.
 *
 * The loop itself is the same in both downloads; what one pass does
 * (name the file, skip it or fetch it) is a `Step` each download supplies.
 */
module Slicing {
  import opened Wrappers
  import opened Remote

  /** The largest number of days a `timedelta` holds; `timedelta(days=n)` above it is an OverflowError. */
  const MaxDeltaDays: nat := 999999999

  /** One slice: its first and last day, both included. */
  datatype Span = Span(start: int, end: int)
  {
    predicate Holds(day: int)
    {
      start <= day <= end
    }
  }

  /** The slices the download loop walks through, in order. */
  function Slices(first: int, last: int, n: nat): (r: seq<Span>)
    requires first <= last
    ensures 1 <= |r|
    decreases last - first
  {
    if first + n >= last then [Span(first, last)]
    else [Span(first, first + n)] + Slices(first + n + 1, last, n)
  }

  /** The first slice starts at `date-first` and the last one ends at `date-last`. */
  lemma {:induction false} SlicesEnds(first: int, last: int, n: nat)
    requires first <= last
    ensures Slices(first, last, n)[0].start == first
    ensures Slices(first, last, n)[|Slices(first, last, n)| - 1].end == last
    decreases last - first
  {
    if first + n < last {
      SlicesEnds(first + n + 1, last, n);
    }
  }

  /** Every slice is ordered, at most `n_days_slice` days past its start, and inside the range. */
  lemma {:induction false} SlicesBounds(first: int, last: int, n: nat)
    requires first <= last
    ensures forall k | 0 <= k < |Slices(first, last, n)| ::
      (first <= Slices(first, last, n)[k].start <= Slices(first, last, n)[k].end <= last
       && Slices(first, last, n)[k].end - Slices(first, last, n)[k].start <= n)
    decreases last - first
  {
    var r := Slices(first, last, n);
    if first + n < last {
      var tail := Slices(first + n + 1, last, n);
      SlicesBounds(first + n + 1, last, n);
      forall k | 1 <= k < |r|
        ensures first <= r[k].start <= r[k].end <= last && r[k].end - r[k].start <= n
      {
        assert r[k] == tail[k - 1];
      }
    }
  }

  /** Each slice starts the day after the previous one ends: no gap and no overlap. */
  lemma {:induction false} SlicesContiguous(first: int, last: int, n: nat)
    requires first <= last
    ensures forall k | 0 <= k < |Slices(first, last, n)| - 1 ::
      (Slices(first, last, n)[k + 1].start == Slices(first, last, n)[k].end + 1)
    decreases last - first
  {
    var r := Slices(first, last, n);
    if first + n < last {
      var tail := Slices(first + n + 1, last, n);
      SlicesContiguous(first + n + 1, last, n);
      SlicesEnds(first + n + 1, last, n);
      forall k | 0 <= k < |r| - 1 ensures r[k + 1].start == r[k].end + 1 {
        if k > 0 {
          assert r[k] == tail[k - 1] && r[k + 1] == tail[k];
        }
      }
    }
  }

  /** Only the last slice can be shorter: every other one spans exactly `n_days_slice + 1` days. */
  lemma {:induction false} InnerSlicesAreFull(first: int, last: int, n: nat)
    requires first <= last
    ensures forall k | 0 <= k < |Slices(first, last, n)| - 1 ::
      (Slices(first, last, n)[k].end == Slices(first, last, n)[k].start + n)
    decreases last - first
  {
    var r := Slices(first, last, n);
    if first + n < last {
      var tail := Slices(first + n + 1, last, n);
      InnerSlicesAreFull(first + n + 1, last, n);
      forall k | 1 <= k < |r| - 1 ensures r[k].end == r[k].start + n {
        assert r[k] == tail[k - 1];
      }
    }
  }

  lemma MulNonneg(x: int, y: int)
    requires 0 <= x && 0 <= y
    ensures 0 <= x * y
  {
  }

  /** The quotient is the q with q * m <= a < (q + 1) * m. */
  lemma DivUnique(a: int, m: int, q: int)
    requires 0 < m && q * m <= a < q * m + m
    ensures a / m == q
  {
    var quot, rem := a / m, a % m;
    assert a == quot * m + rem && 0 <= rem < m;
    if quot > q {
      MulNonneg(quot - q - 1, m);
      assert false;
    } else if quot < q {
      MulNonneg(q - quot - 1, m);
      assert false;
    }
  }

  /** Adding the divisor once adds one to the quotient. */
  lemma DivPlusDivisor(a: int, m: int)
    requires 0 <= a && 0 < m
    ensures (a + m) / m == a / m + 1
  {
    var q, r := a / m, a % m;
    assert a == q * m + r && 0 <= r < m;
    assert (q + 1) * m == q * m + m;
    DivUnique(a + m, m, q + 1);
  }

  /** The number of slices, and so of files, is `(date-to - date-from) / (n_days_slice + 1) + 1`. */
  lemma {:induction false} SliceCount(first: int, last: int, n: nat)
    requires first <= last
    ensures |Slices(first, last, n)| == (last - first) / (n + 1) + 1
    decreases last - first
  {
    if first + n < last {
      SliceCount(first + n + 1, last, n);
      DivPlusDivisor(last - (first + n + 1), n + 1);
    } else {
      assert 0 <= last - first < n + 1;
    }
  }

  /** Every day of the range lies in some slice. */
  lemma {:induction false} SlicesCover(first: int, last: int, n: nat, day: int)
    requires first <= day <= last
    ensures (exists k :: 0 <= k < |Slices(first, last, n)| && Slices(first, last, n)[k].Holds(day))
    decreases last - first
  {
    var r := Slices(first, last, n);
    if first + n < last && day > first + n {
      var tail := Slices(first + n + 1, last, n);
      SlicesCover(first + n + 1, last, n, day);
      var k :| 0 <= k < |tail| && tail[k].Holds(day);
      assert r[k + 1] == tail[k];
    } else {
      assert r[0].Holds(day);
    }
  }

  /** Slices are strictly ordered, so no day lies in two of them. */
  lemma SlicesDisjoint(first: int, last: int, n: nat, i: nat, j: nat)
    requires first <= last
    requires i < j < |Slices(first, last, n)|
    ensures Slices(first, last, n)[i].end < Slices(first, last, n)[j].start
  {
    var r := Slices(first, last, n);
    SlicesBounds(first, last, n);
    SlicesContiguous(first, last, n);
    var k := i;
    while k < j
      invariant i <= k <= j
      invariant r[i].end < r[k].start || k == i
      decreases j - k
    {
      assert r[k + 1].start == r[k].end + 1;
      k := k + 1;
    }
  }

  /** A three-day range sliced by two days gives two slices: days 0-2, then day 3. */
  lemma ThreeDaysByTwo()
    ensures Slices(0, 3, 2) == [Span(0, 2), Span(3, 3)]
  {
    assert Slices(3, 3, 2) == [Span(3, 3)];
  }

  // ---------------------------------------------------------------
  // The loop over the slices
  // ---------------------------------------------------------------

  /** One pass of the loop: given the slice, the disk and the server's replies, the path it lists. */
  type Step = (Span, Disk, seq<Reply>) -> Run<string>

  /** The slices run one after the other; the first failure ends the call. */
  function SlicesRun(step: Step, slices: seq<Span>, disk: Disk, replies: seq<Reply>): (r: Run<seq<string>>)
    decreases |slices|
  {
    if |slices| == 0 then Run(Ok([]), [], replies, disk)
    else
      var one := step(slices[0], disk, replies);
      match one.result
      case Fail(e) => Run(Fail(e), one.trace, one.rest, one.disk)
      case Ok(path) =>
        var more := SlicesRun(step, slices[1..], one.disk, one.rest);
        Run(if more.result.Ok? then Ok([path] + more.result.value) else Fail(more.result.error),
            one.trace + more.trace, more.rest, more.disk)
  }

  /** The paths listed so far and the events so far, put in front of what the remaining slices do. */
  function Then(paths: seq<string>, trace: seq<Event>, run: Run<seq<string>>): Run<seq<string>>
  {
    Run(if run.result.Ok? then Ok(paths + run.result.value) else Fail(run.result.error),
        trace + run.trace, run.rest, run.disk)
  }

  /** Nothing before the run: the run itself. */
  lemma ThenNothing(run: Run<seq<string>>, paths: seq<string>, trace: seq<Event>, rest: seq<Reply>, d: Disk)
    requires Then([], [], run) == Run(Ok(paths), trace, rest, d)
    ensures run == Run(Ok(paths), trace, rest, d)
  {
    assert [] + run.trace == run.trace;
    assert run.result.Ok? && [] + run.result.value == run.result.value;
  }

  /** A failing pass ends the loop with its error. */
  lemma ThenFail(step: Step, slices: seq<Span>, disk: Disk, replies: seq<Reply>,
                 paths: seq<string>, trace: seq<Event>, one: Run<string>)
    requires slices != [] && one == step(slices[0], disk, replies) && one.result.Fail?
    ensures Then(paths, trace, SlicesRun(step, slices, disk, replies))
         == Run(Fail(one.result.error), trace + one.trace, one.rest, one.disk)
  {
    assert trace + one.trace == trace + one.trace;
  }

  /** One more pass moves from the remaining run into the part already done. */
  lemma ThenStep(step: Step, slices: seq<Span>, disk: Disk, replies: seq<Reply>,
                 paths: seq<string>, trace: seq<Event>, one: Run<string>)
    requires slices != [] && one == step(slices[0], disk, replies) && one.result.Ok?
    ensures Then(paths + [one.result.value], trace + one.trace, SlicesRun(step, slices[1..], one.disk, one.rest))
         == Then(paths, trace, SlicesRun(step, slices, disk, replies))
  {
    var more := SlicesRun(step, slices[1..], one.disk, one.rest);
    assert trace + one.trace + more.trace == trace + (one.trace + more.trace);
    if more.result.Ok? {
      assert paths + [one.result.value] + more.result.value == paths + ([one.result.value] + more.result.value);
    }
  }

  /** A completed run lists the first pass's path, then what the remaining passes list, and ends on their disk. */
  lemma CompletedRunSplits(step: Step, slices: seq<Span>, disk: Disk, replies: seq<Reply>, one: Run<string>)
    requires slices != [] && one == step(slices[0], disk, replies)
    requires SlicesRun(step, slices, disk, replies).result.Ok?
    ensures one.result.Ok? && SlicesRun(step, slices[1..], one.disk, one.rest).result.Ok?
    ensures SlicesRun(step, slices, disk, replies).result.value
         == [one.result.value] + SlicesRun(step, slices[1..], one.disk, one.rest).result.value
    ensures SlicesRun(step, slices, disk, replies).disk == SlicesRun(step, slices[1..], one.disk, one.rest).disk
  {
  }

  /** The next slice of the loop is the first of the remaining ones. */
  lemma NextSlice(first: int, last: int, n: nat)
    requires first <= last
    ensures Slices(first, last, n)[0] == Span(first, if first + n >= last then last else first + n)
    ensures first + n < last ==> Slices(first, last, n)[1..] == Slices(first + n + 1, last, n)
    ensures first + n >= last ==> Slices(first, last, n)[1..] == []
  {
  }

  /**
   * The slicing loop: from `date-from`, each pass covers `n_days_slice + 1`
   * days clipped to `date-to`, and the loop breaks after the pass that
   * reaches `date-to`.
   */
  method SliceLoop(step: Step, first: int, last: int, n: nat, disk: Disk, replies: seq<Reply>)
    returns (r: Run<seq<string>>)
    requires first <= last
    ensures r == SlicesRun(step, Slices(first, last, n), disk, replies)
  {
    ghost var whole := Then([], [], SlicesRun(step, Slices(first, last, n), disk, replies));
    ghost var remaining := Slices(first, last, n);
    var from := first;
    var paths: seq<string> := [];
    var trace: seq<Event> := [];
    var rest := replies;
    var d := disk;
    var tmp := last;
    while tmp <= last
      invariant from <= last && tmp <= last
      invariant remaining == Slices(from, last, n)
      invariant Then(paths, trace, SlicesRun(step, remaining, d, rest)) == whole
      decreases last - from
    {
      tmp := from + n;
      if tmp >= last {
        tmp := last;
      }
      NextSlice(from, last, n);
      var one := step(Span(from, tmp), d, rest);
      if one.result.Fail? {
        ThenFail(step, remaining, d, rest, paths, trace, one);
        return Run(Fail(one.result.error), trace + one.trace, one.rest, one.disk);
      }
      ThenStep(step, remaining, d, rest, paths, trace, one);
      paths, trace, rest, d := paths + [one.result.value], trace + one.trace, one.rest, one.disk;
      remaining := remaining[1..];
      if tmp == last {
        break;
      }
      from := from + n + 1;
    }
    assert remaining == [];
    assert SlicesRun(step, remaining, d, rest) == Run(Ok([]), [], rest, d);
    assert paths + [] == paths && trace + [] == trace;
    ThenNothing(SlicesRun(step, Slices(first, last, n), disk, replies), paths, trace, rest, d);
    r := Run(Ok(paths), trace, rest, d);
  }
}
