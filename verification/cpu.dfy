/** The rolling CPU window: a trimmed deque that answers as the full history would. */
module CpuWindow {
  import opened Tables

  const WINDOW_SECONDS := 60.0
  const MAX_AGE_SECONDS := 15.0

  datatype Sample = Sample(at: real, total: nat, idle: nat)
  datatype Metrics = Metrics(used: real, window: real, age: real)

  /** A line of counters; None when it cannot be read. values holds the first eight. */
  function Counters(values: Option<seq<int>>): Option<(nat, nat)>
    ensures Counters(values).Some? ==> Counters(values).value.1 <= Counters(values).value.0
  {
    if values.None? || |values.value| < 4 || exists i :: 0 <= i < |values.value| && values.value[i] < 0 then None
    else
      var v := values.value;
      var idle := v[3] + if |v| > 4 then v[4] else 0;
      SumAtLeast(v);
      Some((Sum(v), idle))
  }

  function Sum(v: seq<int>): int { if v == [] then 0 else v[0] + Sum(v[1..]) }

  lemma {:induction false} SumNonNegative(v: seq<int>)
    requires forall i :: 0 <= i < |v| ==> v[i] >= 0
    ensures Sum(v) >= 0
  {
    if v != [] { SumNonNegative(v[1..]); }
  }

  lemma SumAtLeast(v: seq<int>)
    requires |v| >= 4 && forall i :: 0 <= i < |v| ==> v[i] >= 0
    ensures Sum(v) >= v[3] + if |v| > 4 then v[4] else 0
  {
    assert Sum(v) == v[0] + Sum(v[1..]) && Sum(v[1..]) == v[1] + Sum(v[1..][1..]);
    var w := v[1..][1..];
    assert w == v[2..];
    assert Sum(w) == v[2] + Sum(w[1..]) && w[1..] == v[3..];
    assert Sum(v[3..]) == v[3] + Sum(v[3..][1..]) && v[3..][1..] == v[4..];
    SumNonNegative(v[4..]);
    if |v| > 4 {
      assert Sum(v[4..]) == v[4] + Sum(v[4..][1..]) && v[4..][1..] == v[5..];
      SumNonNegative(v[5..]);
    }
  }

  /** The counters are user, nice, system, idle, iowait, irq, softirq and steal; idle and iowait are the idle time, and the
      total is the sum of all. */
  lemma CounterColumns(values: Option<seq<int>>)
    ensures Counters(values).None? <==> values.None? || |values.value| < 4 || exists x :: x in values.value && x < 0
    ensures Counters(values).Some? && |values.value| == 4 ==> var v := values.value;
      Counters(values).value == (v[0] + v[1] + v[2] + v[3], v[3])
    ensures Counters(values).Some? && |values.value| == 8 ==> var v := values.value;
      Counters(values).value == (v[0] + v[1] + v[2] + v[3] + v[4] + v[5] + v[6] + v[7], v[3] + v[4])
    ensures Counters(values).Some? && |values.value| > 4 ==> Counters(values).value.1 == values.value[3] + values.value[4]
  {
    if values.Some? {
      var v := values.value;
      if x :| x in v && x < 0 { var i :| 0 <= i < |v| && v[i] == x; }
      if i :| 0 <= i < |v| && v[i] < 0 { assert v[i] in v; }
      if |v| == 4 { SumOf(v); assert v[4..] == []; }
      if |v| == 8 { SumOf(v); SumOf(v[4..]); assert v[4..][4..] == []; }
    }
  }

  lemma SumOf(v: seq<int>)
    requires |v| >= 4
    ensures Sum(v) == v[0] + v[1] + v[2] + v[3] + Sum(v[4..])
  {
    assert v[1..][1..] == v[2..] && v[2..][1..] == v[3..] && v[3..][1..] == v[4..];
    assert Sum(v) == v[0] + Sum(v[1..]) && Sum(v[1..]) == v[1] + Sum(v[2..]);
    assert Sum(v[2..]) == v[2] + Sum(v[3..]) && Sum(v[3..]) == v[3] + Sum(v[4..]);
  }

  /** The run of samples is interrupted: too long a pause, or counters that went back. */
  predicate Breaks(last: Sample, x: Sample) {
    x.at - last.at > MAX_AGE_SECONDS || x.total < last.total || x.idle < last.idle
  }

  /** The uninterrupted history: everything since the last interruption. */
  function Extend(history: seq<Sample>, at: real, c: Option<(nat, nat)>): seq<Sample> {
    if c.None? then []
    else
      var x := Sample(at, c.value.0, c.value.1);
      if history == [] || Breaks(history[|history| - 1], x) then [x]
      else if at <= history[|history| - 1].at then history
      else history + [x]
  }

  /** Times strictly increase by at most the allowed pause, counters never go back. */
  ghost predicate Uninterrupted(h: seq<Sample>) {
    (forall i, j :: 0 <= i < j < |h| ==> Precedes(h, i, j)) && (forall i :: 0 < i < |h| ==> Close(h, i))
  }

  predicate Precedes(h: seq<Sample>, i: nat, j: nat)
    requires i < |h| && j < |h|
  {
    h[i].at < h[j].at && h[i].total <= h[j].total && h[i].idle <= h[j].idle
  }

  predicate Close(h: seq<Sample>, i: nat)
    requires 0 < i < |h|
  {
    h[i].at - h[i - 1].at <= 15.0
  }

  /** Sample k is the newest one at least a window older than the last, or the first. */
  ghost predicate WindowStart(h: seq<Sample>, k: nat) {
    k < |h| && (k == 0 || h[|h| - 1].at - h[k].at >= 60.0) &&
    forall i :: k < i < |h| ==> Within(h, i)
  }

  /** Sample i is less than a window older than the last. */
  predicate Within(h: seq<Sample>, i: nat)
    requires i < |h|
  {
    h[|h| - 1].at - h[i].at < 60.0
  }

  /** round(x, 1): to the nearest tenth, ties to even. */
  function RoundTenth(x: real): real {
    var n := (10.0 * x).Floor;
    var part := 10.0 * x - n as real;
    (if part < 0.5 || (part == 0.5 && n % 2 == 0) then n else n + 1) as real / 10.0
  }

  lemma RoundedWithin(x: real)
    requires 0.0 <= x <= 100.0
    ensures 0.0 <= RoundTenth(x) <= 100.0
  {
    var n := (10.0 * x).Floor;
    assert 0 <= n <= 1000;
    if n == 1000 { assert 10.0 * x == 1000.0; }
  }

  /** The metrics of a span from sample a to sample b, read at time t. */
  function Usage(a: Sample, b: Sample, t: real): Option<Metrics> {
    var window, age, delta, idle := b.at - a.at, t - b.at, b.total - a.total, b.idle - a.idle;
    if !(60.0 <= window <= 75.0) || !(0.0 <= age <= MAX_AGE_SECONDS) || delta <= 0 || !(0 <= idle <= delta) then None
    else Some(Metrics(RoundTenth(100.0 * (delta - idle) as real / delta as real), window, age))
  }

  /** What the full history says: usage over the newest span of at least a window. */
  ghost predicate FullUsage(h: seq<Sample>, t: real, r: Option<Metrics>) {
    if |h| < 2 then r.None? else exists k: nat :: WindowStart(h, k) && r == Usage(h[k], h[|h| - 1], t)
  }

  /** cpu_metrics accepts the result. */
  predicate Accepted(m: Metrics) { 0.0 <= m.used <= 100.0 && 60.0 <= m.window <= 75.0 && 0.0 <= m.age <= MAX_AGE_SECONDS }

  lemma UsageAccepted(a: Sample, b: Sample, t: real)
    requires Usage(a, b, t).Some?
    ensures Accepted(Usage(a, b, t).value)
  {
    var delta, idle := b.total - a.total, b.idle - a.idle;
    Share((delta - idle) as real, delta as real);
    RoundedWithin(100.0 * (delta - idle) as real / delta as real);
  }

  /** The span is long enough, the reading young enough and the counters moved and did not go back. */
  predicate Measurable(a: Sample, b: Sample, t: real) {
    60.0 <= b.at - a.at <= 75.0 && 0.0 <= t - b.at <= 15.0 && a.total < b.total && a.idle <= b.idle &&
    b.idle - a.idle <= b.total - a.total
  }

  /** used is busy / total in percent, to the nearest tenth and to the even one of two equally near. */
  ghost predicate IsShare(used: real, busy: real, total: real)
    requires total > 0.0
  {
    var exact := 100.0 * busy / total;
    Tenths(used) && -0.05 <= used - exact <= 0.05 &&
    (used - exact == 0.05 || used - exact == -0.05 ==> (10.0 * used).Floor % 2 == 0) &&
    (busy == total ==> used == 100.0) && (busy == 0.0 ==> used == 0.0)
  }

  /** The answer for the span: busy is what was not idle. */
  ghost predicate Measures(a: Sample, b: Sample, t: real, m: Metrics)
    requires a.total < b.total
  {
    m.window == b.at - a.at && m.age == t - b.at &&
    IsShare(m.used, ((b.total - a.total) - (b.idle - a.idle)) as real, (b.total - a.total) as real)
  }

  ghost predicate Answers(a: Sample, b: Sample, t: real, r: Option<Metrics>) {
    (r.Some? <==> Measurable(a, b, t)) && (r.Some? ==> Measures(a, b, t, r.value))
  }

  predicate Tenths(x: real) { 10.0 * x == (10.0 * x).Floor as real }

  /** Rounding moves by at most half a tenth, and by exactly that only to an even tenth. */
  lemma RoundedTenth(x: real)
    ensures Tenths(RoundTenth(x)) && -0.05 <= RoundTenth(x) - x <= 0.05
    ensures RoundTenth(x) - x == 0.05 || RoundTenth(x) - x == -0.05 ==> (10.0 * RoundTenth(x)).Floor % 2 == 0
    ensures Tenths(x) ==> RoundTenth(x) == x
  {
    var n := (10.0 * x).Floor;
    var up := 10.0 * x - n as real >= 0.5 && !(10.0 * x - n as real == 0.5 && n % 2 == 0);
    assert 10.0 * RoundTenth(x) == (if up then n + 1 else n) as real;
  }

  lemma Whole(d: real)
    requires d > 0.0
    ensures (100.0 * d) / d == 100.0 && (100.0 * 0.0) / d == 0.0
  {
  }

  lemma NoRounding(n: int)
    ensures RoundTenth(n as real) == n as real
  {
    assert 10.0 * n as real == (10 * n) as real;
    RoundedTenth(n as real);
  }

  lemma RoundsToShare(busy: real, total: real)
    requires total > 0.0
    ensures IsShare(RoundTenth(100.0 * busy / total), busy, total)
  {
    Whole(total);
    RoundedTenth(100.0 * busy / total);
    NoRounding(100);
    NoRounding(0);
  }

  /** Exactly when there is an answer, and which. */
  lemma UsageExactly(a: Sample, b: Sample, t: real)
    ensures Usage(a, b, t).Some? <==> Measurable(a, b, t)
    ensures Measurable(a, b, t) ==> Measures(a, b, t, Usage(a, b, t).value)
  {
    if Measurable(a, b, t) { RoundsToShare(((b.total - a.total) - (b.idle - a.idle)) as real, (b.total - a.total) as real); }
  }

  lemma Share(x: real, y: real)
    requires 0.0 <= x <= y && y > 0.0
    ensures 0.0 <= 100.0 * x / y <= 100.0
  {
  }

  lemma OneWindowStart(h: seq<Sample>, j: nat, k: nat)
    requires Uninterrupted(h) && WindowStart(h, j) && WindowStart(h, k)
    ensures j == k
  {
    assert j < k ==> Within(h, k);
    assert k < j ==> Within(h, j);
  }

  /** The history determines the answer. */
  lemma FullUsageUnique(h: seq<Sample>, t: real, q: Option<Metrics>, r: Option<Metrics>)
    requires Uninterrupted(h) && FullUsage(h, t, q) && FullUsage(h, t, r)
    ensures q == r
  {
    if |h| >= 2 {
      var j: nat :| WindowStart(h, j) && q == Usage(h[j], h[|h| - 1], t);
      var k: nat :| WindowStart(h, k) && r == Usage(h[k], h[|h| - 1], t);
      OneWindowStart(h, j, k);
    }
  }

  /** The window is always shorter than 75 seconds. */
  lemma WindowBelow75(h: seq<Sample>, k: nat)
    requires Uninterrupted(h) && WindowStart(h, k)
    ensures h[|h| - 1].at - h[k].at < 75.0
  {
    if k + 1 < |h| { assert Close(h, k + 1) && Within(h, k + 1); }
  }

  lemma ExtendKeeps(h: seq<Sample>, at: real, c: Option<(nat, nat)>)
    requires Uninterrupted(h)
    ensures Uninterrupted(Extend(h, at, c))
  {
    var e := Extend(h, at, c);
    if |e| > |h| > 0 {
      forall i, j | 0 <= i < j < |e|
        ensures Precedes(e, i, j)
      {
        if i < |h| - 1 { assert Precedes(h, i, |h| - 1); }
        if j < |h| { assert Precedes(h, i, j); }
      }
      forall i | 0 < i < |e|
        ensures Close(e, i)
      {
        if i < |h| { assert Close(h, i); }
      }
    }
  }

  /** A reading continues the history exactly when it leaves it uninterrupted; a late one is dropped, and any other starts a
      new history. */
  lemma ExtendExactly(h: seq<Sample>, at: real, total: nat, idle: nat)
    requires Uninterrupted(h)
    ensures var x, e := Sample(at, total, idle), Extend(h, at, Some((total, idle)));
      (Uninterrupted(h + [x]) ==> e == h + [x]) &&
      (h == [] ==> Uninterrupted([x])) &&
      (!Uninterrupted(h + [x]) && h != [] ==>
        e == if at <= h[|h| - 1].at && total >= h[|h| - 1].total && idle >= h[|h| - 1].idle then h else [x])
  {
    var x := Sample(at, total, idle);
    ExtendKeeps(h, at, Some((total, idle)));
    if h == [] {
      assert Uninterrupted([x]) && h + [x] == [x];
    } else if Uninterrupted(h + [x]) {
      assert Precedes(h + [x], |h| - 1, |h|) && Close(h + [x], |h|);
    }
  }

  /** Looking at the second kept sample is enough. */
  lemma StartsHere(h: seq<Sample>, k: nat)
    requires Uninterrupted(h) && k < |h| && (k == 0 || h[|h| - 1].at - h[k].at >= WINDOW_SECONDS)
    requires k + 2 >= |h| || h[|h| - 1].at - h[k + 1].at < WINDOW_SECONDS
    ensures WindowStart(h, k)
  {
    forall i | k < i < |h|
      ensures Within(h, i)
    {
      if k + 1 < i { assert Precedes(h, k + 1, i); }
    }
  }

  /** A later last sample leaves the start of the window old enough. */
  lemma StillOldEnough(h: seq<Sample>, k: nat, x: Sample)
    requires WindowStart(h, k) && h[|h| - 1].at < x.at
    ensures k == 0 || x.at - h[k].at >= WINDOW_SECONDS
  {
  }

  class CpuSampler {
    var samples: seq<Sample>
    ghost var history: seq<Sample>
    ghost var start: nat

    /** The kept samples are the history from the start of the window on. */
    ghost predicate Valid()
      reads this
    {
      Uninterrupted(history) && start <= |history| && samples == history[start..] &&
      (history == [] || WindowStart(history, start))
    }

    constructor ()
      ensures Valid() && history == []
    {
      samples, history, start := [], [], 0;
    }

    /** observe: whatever is fed, the deque stays the window of the uninterrupted history. */
    method Observe(values: Option<seq<int>>, at: real)
      requires Valid()
      modifies this
      ensures Valid() && history == Extend(old(history), at, Counters(values))
    {
      var c := Counters(values);
      if c.None? {
        Clear();
        return;
      }
      var x := Sample(at, c.value.0, c.value.1);
      if samples != [] && Breaks(samples[|samples| - 1], x) { Clear(); }
      if samples != [] && at <= samples[|samples| - 1].at { return; }
      Push(x);
    }

    method Clear()
      modifies this
      ensures Valid() && history == [] && samples == []
    {
      samples, history, start := [], [], 0;
    }

    /** A sample that continues the history. */
    method Push(x: Sample)
      requires Valid() && (history != [] ==> !Breaks(history[|history| - 1], x) && history[|history| - 1].at < x.at)
      modifies this
      ensures Valid() && history == old(history) + [x]
    {
      ExtendKeeps(history, x.at, Some((x.total, x.idle)));
      if history != [] { StillOldEnough(history, start, x); }
      samples := samples + [x];
      history := history + [x];
      Trim(x.at);
    }

    /** The popleft loop. */
    method Trim(at: real)
      requires Uninterrupted(history) && start < |history| && samples == history[start..]
      requires history[|history| - 1].at == at && (start == 0 || at - history[start].at >= WINDOW_SECONDS)
      modifies this`samples, this`start
      ensures Valid()
    {
      while |samples| > 2 && at - samples[1].at >= WINDOW_SECONDS
        invariant start < |history| && samples == history[start..]
        invariant start == 0 || at - history[start].at >= WINDOW_SECONDS
        decreases |samples|
      {
        samples, start := samples[1..], start + 1;
      }
      StartsHere(history, start);
    }

    /** metrics: what the full history says, and always something cpu_metrics accepts. */
    method Usages(t: real) returns (r: Option<Metrics>)
      requires Valid()
      ensures FullUsage(history, t, r) && (r.Some? ==> Accepted(r.value))
      ensures |history| < 2 ==> r.None?
      ensures |history| >= 2 ==> exists k: nat :: WindowStart(history, k) && Answers(history[k], history[|history| - 1], t, r)
    {
      if |samples| < 2 { return None; }
      r := Usage(samples[0], samples[|samples| - 1], t);
      UsageExactly(samples[0], samples[|samples| - 1], t);
      if r.Some? { UsageAccepted(samples[0], samples[|samples| - 1], t); }
      assert WindowStart(history, start) && r == Usage(history[start], history[|history| - 1], t);
      assert Answers(history[start], history[|history| - 1], t, r);
    }
  }
}
