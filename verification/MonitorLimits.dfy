/** What keeps a chatty monitor in bounds, and how its dropped lines are accounted for:
    extension/src/monitor-batching.ts and the batches, stops and exits of
    extension/src/monitor.ts. */
module MonitorLimits {
  import opened Options

  // ---- one monitor ----

  /** `events` and `notices` carry the dropped lines each reported; `stopping` waits for the
      manager to answer a stop; `removed` is no longer in the registry. */
  datatype Monitor = Monitor(
    capacity: nat,
    refillAmount: nat,
    tokens: int,
    droppedPending: nat,
    stopRequested: bool,
    stopped: bool,
    stopping: bool,
    removed: bool,
    events: seq<nat>,
    notices: seq<nat>)

  function New(capacity: nat, refillAmount: nat): Monitor {
    Monitor(capacity, refillAmount, capacity, 0, false, false, false, false, [], [])
  }

  datatype Batch = Batch(lines: nat, saturated: bool)

  datatype Step =
    | Tick
    | Flushes(batch: Batch)
    | StopAsked(asked: bool)
    | TimesOut
    | StopAnswered
    | Exits(last: Option<Batch>)

  /** `onBatch`, with `autoStop` up to its first await. */
  function OnBatch(m: Monitor, b: Batch): Monitor {
    if m.stopped then m
    else if m.tokens >= 1 then
      m.(tokens := m.tokens - 1, droppedPending := 0, events := m.events + [m.droppedPending])
    else
      var m' := m.(droppedPending := m.droppedPending + b.lines);
      if b.saturated && !m.stopRequested then m'.(stopped := true, stopping := true) else m'
  }

  function Do(m: Monitor, step: Step): Monitor {
    match step
    case Tick =>
      if m.removed then m
      else m.(tokens := if m.tokens + m.refillAmount < m.capacity then m.tokens + m.refillAmount else m.capacity)
    case Flushes(b) => if m.removed then m else OnBatch(m, b)
    case StopAsked(asked) => if m.removed then m else m.(stopRequested := asked)
    case TimesOut => if m.stopped then m else m.(stopped := true, stopping := true)
    case StopAnswered =>
      if !m.stopping then m
      else m.(stopping := false, stopped := true, removed := true, notices := m.notices + [m.droppedPending])
    case Exits(last) =>
      if m.removed then m
      else
        var m' := if last.Some? then OnBatch(m, last.value) else m;
        m'.(stopped := true, removed := true,
            notices := if m'.stopped then m'.notices else m'.notices + [m'.droppedPending])
  }

  /** Lines of a batch that is refused while the monitor runs. */
  function Refused(m: Monitor, step: Step): nat {
    match step
    case Flushes(b) => if m.removed || m.stopped || m.tokens >= 1 then 0 else b.lines
    case Exits(Some(b)) => if m.removed || m.stopped || m.tokens >= 1 then 0 else b.lines
    case _ => 0
  }

  ghost predicate Run(ms: seq<Monitor>, steps: seq<Step>) {
    && |ms| == |steps| + 1 && ms[0] == New(ms[0].capacity, ms[0].refillAmount)
    && forall i | 0 <= i < |steps| :: ms[i + 1] == Do(ms[i], steps[i])
  }

  // ---- admission ----

  ghost function Ticks(steps: seq<Step>, i: nat, j: nat): nat
    requires i <= j <= |steps|
    decreases j - i
  {
    if i == j then 0 else Ticks(steps, i, j - 1) + if steps[j - 1].Tick? then 1 else 0
  }

  /** In every stretch of every run a monitor is admitted at most its capacity and what the
      refills in between allow; its tokens stay between none and its capacity. */
  lemma {:induction false} AdmissionBound(ms: seq<Monitor>, steps: seq<Step>, i: nat, j: nat)
    requires Run(ms, steps) && i <= j <= |steps|
    ensures 0 <= ms[j].tokens <= ms[j].capacity == ms[0].capacity && ms[j].refillAmount == ms[0].refillAmount
    ensures |ms[i].events| <= |ms[j].events|
    ensures |ms[j].events| - |ms[i].events| + ms[j].tokens <= ms[i].tokens + Ticks(steps, i, j) * ms[0].refillAmount
    ensures |ms[j].events| - |ms[i].events| <= ms[0].capacity + Ticks(steps, i, j) * ms[0].refillAmount
    decreases j, i
  {
    hide Do;
    if i == j {
      if j > 0 { AdmissionBound(ms, steps, j - 1, j - 1); StepTokens(ms, steps, j - 1); }
    } else {
      AdmissionBound(ms, steps, i, j - 1);
      AdmissionBound(ms, steps, i, i);
      StepTokens(ms, steps, j - 1);
      TicksOneMore(steps, i, j, ms[0].refillAmount);
    }
  }

  lemma TicksOneMore(steps: seq<Step>, i: nat, j: nat, r: nat)
    requires i < j <= |steps|
    ensures Ticks(steps, i, j) * r == Ticks(steps, i, j - 1) * r + if steps[j - 1].Tick? then r else 0
  {
    if steps[j - 1].Tick? { assert (Ticks(steps, i, j - 1) + 1) * r == Ticks(steps, i, j - 1) * r + r; }
  }

  lemma StepTokens(ms: seq<Monitor>, steps: seq<Step>, k: nat)
    requires Run(ms, steps) && k < |steps| && 0 <= ms[k].tokens <= ms[k].capacity
    ensures var m, m' := ms[k], ms[k + 1];
      && 0 <= m'.tokens <= m'.capacity == m.capacity && m'.refillAmount == m.refillAmount
      && |m.events| <= |m'.events|
      && |m'.events| - |m.events| + m'.tokens <= m.tokens + if steps[k].Tick? then m.refillAmount else 0
  {
    assert ms[k + 1] == Do(ms[k], steps[k]);
  }

  // ---- dropped lines ----

  function Sum(ns: seq<nat>): nat {
    if ns == [] then 0 else Sum(ns[..|ns| - 1]) + ns[|ns| - 1]
  }

  lemma SumMore(ns: seq<nat>, n: nat)
    ensures Sum(ns + [n]) == Sum(ns) + n
  {
    assert (ns + [n])[..|ns|] == ns;
  }

  ghost function AllRefused(ms: seq<Monitor>, steps: seq<Step>, i: nat): nat
    requires i <= |steps| < |ms|
  {
    if i == 0 then 0 else AllRefused(ms, steps, i - 1) + Refused(ms[i - 1], steps[i - 1])
  }

  /** Dropped lines are in an event or in the closing notice, or still pending; there is at most
      one closing notice, and exactly one once the monitor is gone and no stop is awaited. */
  ghost predicate Accounted(m: Monitor, refused: nat) {
    && Sum(m.events) + (if m.notices == [] then m.droppedPending else m.notices[0]) == refused
    && |m.notices| <= 1
    && (m.notices != [] ==> m.removed)
    && (m.stopping ==> m.stopped && m.notices == [])
    && (m.removed ==> m.stopped && (m.stopping || m.notices != []))
    && (m.stopped && !m.removed ==> m.stopping)
  }

  lemma StepAccounts(m: Monitor, step: Step, refused: nat)
    requires Accounted(m, refused)
    ensures Accounted(Do(m, step), refused + Refused(m, step))
  {
    hide Sum;
    SumMore(m.events, m.droppedPending);
  }

  /** Over every run, whatever stops the monitor and in whatever order the answers come: each
      line of a refused batch is reported exactly once or still pending. */
  lemma {:induction false} DropsAccounted(ms: seq<Monitor>, steps: seq<Step>, i: nat)
    requires Run(ms, steps) && i <= |steps|
    ensures Accounted(ms[i], AllRefused(ms, steps, i))
  {
    hide Do, Accounted, Refused;
    if i == 0 {
      NewAccounted(ms[0]);
    } else {
      DropsAccounted(ms, steps, i - 1);
      StepAccounts(ms[i - 1], steps[i - 1], AllRefused(ms, steps, i - 1));
      assert ms[i - 1 + 1] == Do(ms[i - 1], steps[i - 1]);
    }
  }

  lemma NewAccounted(m: Monitor)
    requires m == New(m.capacity, m.refillAmount)
    ensures Accounted(m, 0)
  {}

  // ---- what gets through, and what stops the monitor ----

  function BatchOf(step: Step): Option<Batch> {
    match step
    case Flushes(b) => Some(b)
    case Exits(last) => last
    case _ => None
  }

  /** A batch is reported, with the lines dropped before it, if and only if the monitor runs and
      has a token, which it takes; nothing else takes one. */
  lemma ReportedIff(ms: seq<Monitor>, steps: seq<Step>, i: nat)
    requires Run(ms, steps) && i < |steps|
    ensures var m, m' := ms[i], ms[i + 1];
      var reported := BatchOf(steps[i]).Some? && !m.stopped && m.tokens >= 1;
      && m'.events == (if reported then m.events + [m.droppedPending] else m.events)
      && (reported ==> m'.tokens == m.tokens - 1)
      && (!reported ==> m'.tokens >= m.tokens)
  {
    DropsAccounted(ms, steps, i);
    AdmissionBound(ms, steps, i, i);
    assert ms[i + 1] == Do(ms[i], steps[i]);
  }

  ghost function Batches(steps: seq<Step>, i: nat): nat
    requires i <= |steps|
  {
    if i == 0 then 0 else Batches(steps, i - 1) + if BatchOf(steps[i - 1]).Some? then 1 else 0
  }

  /** As many batches as the limiter holds tokens get through at any pace. */
  lemma {:induction false} FirstBatchesPass(ms: seq<Monitor>, steps: seq<Step>, i: nat)
    requires Run(ms, steps) && i <= |steps| && Batches(steps, i) <= ms[0].capacity
    ensures AllRefused(ms, steps, i) == 0 && ms[i].tokens >= ms[0].capacity - Batches(steps, i)
  {
    hide Do, BatchOf;
    if i > 0 {
      FirstBatchesPass(ms, steps, i - 1);
      ReportedIff(ms, steps, i - 1);
      RefusedWithout(ms[i - 1], steps[i - 1]);
    }
  }

  lemma RefusedWithout(m: Monitor, step: Step)
    ensures BatchOf(step).None? || m.tokens >= 1 ==> Refused(m, step) == 0
  {}

  /** A running monitor is stopped by a batch that is refused in a saturated window, unless its stop
      was already requested; by its timeout; and by its exit. */
  predicate Stops(m: Monitor, step: Step) {
    match step
    case Flushes(b) => m.tokens < 1 && b.saturated && !m.stopRequested
    case TimesOut => true
    case Exits(_) => true
    case _ => false
  }

  /** Over every run: a monitor is stopped if and only if some step stopped it, and from then on it
      waits for the stop to be answered or is gone. */
  lemma {:induction false} StoppedIff(ms: seq<Monitor>, steps: seq<Step>, i: nat)
    requires Run(ms, steps) && i <= |steps|
    ensures ms[i].stopped <==> exists j :: 0 <= j < i && Stops(ms[j], steps[j])
    ensures ms[i].stopped <==> ms[i].stopping || ms[i].removed
  {
    hide Do, Stops;
    DropsAccounted(ms, steps, i);
    if i > 0 {
      StoppedIff(ms, steps, i - 1);
      DropsAccounted(ms, steps, i - 1);
      StopStep(ms[i - 1], steps[i - 1]);
      assert ms[i - 1 + 1] == Do(ms[i - 1], steps[i - 1]);
    }
  }

  lemma StopStep(m: Monitor, step: Step)
    requires m.removed || m.stopping ==> m.stopped
    ensures Do(m, step).stopped <==> m.stopped || Stops(m, step)
  {}

  // ---- saturation ----

  datatype Sample = Sample(at: int, dropped: bool)

  ghost predicate InTimeOrder(samples: seq<Sample>) {
    forall i, j | 0 <= i < j < |samples| :: samples[i].at <= samples[j].at
  }

  function DroppedCount(samples: seq<Sample>): nat {
    if samples == [] then 0
    else DroppedCount(samples[..|samples| - 1]) + if samples[|samples| - 1].dropped then 1 else 0
  }

  /** The samples not older than the window. */
  function Retained(samples: seq<Sample>, cutoff: int): seq<Sample> {
    if samples != [] && samples[0].at < cutoff then Retained(samples[1..], cutoff) else samples
  }

  lemma {:induction false} RetainedIs(samples: seq<Sample>, cutoff: int)
    requires InTimeOrder(samples)
    ensures InTimeOrder(Retained(samples, cutoff))
    ensures forall s :: s in Retained(samples, cutoff) <==> s in samples && s.at >= cutoff
  {
    if samples != [] && samples[0].at < cutoff {
      RetainedIs(samples[1..], cutoff);
      assert samples == [samples[0]] + samples[1..];
    }
  }

  class SaturationWindow {
    const windowMs: nat
    const dropRatio: real
    const minimumBatches: nat
    var samples: seq<Sample>

    constructor (windowMs: nat, dropRatio: real, minimumBatches: nat)
      ensures this.windowMs == windowMs && this.dropRatio == dropRatio && this.minimumBatches == minimumBatches
      ensures samples == []
    {
      this.windowMs, this.dropRatio, this.minimumBatches := windowMs, dropRatio, minimumBatches;
      samples := [];
    }

    method Prune(now: int)
      modifies this
      ensures samples == Retained(old(samples), now - windowMs)
    {
      var cutoff := now - windowMs;
      var firstLive := 0;
      while firstLive < |samples| && samples[firstLive].at < cutoff
        invariant firstLive <= |samples|
        invariant Retained(samples[firstLive..], cutoff) == Retained(old(samples), cutoff)
      {
        assert samples[firstLive..][1..] == samples[firstLive + 1..];
        firstLive := firstLive + 1;
      }
      if firstLive > 0 { samples := samples[firstLive..]; } else { assert samples[0..] == samples; }
    }

    method Record(dropped: bool, at: int)
      modifies this
      ensures samples == Recorded(old(samples), windowMs, dropped, at)
    {
      Prune(at);
      samples := samples + [Sample(at, dropped)];
    }

    method IsSaturated(now: int) returns (saturated: bool)
      modifies this
      ensures samples == Retained(old(samples), now - windowMs)
      ensures saturated == Saturated(samples, windowMs, minimumBatches, dropRatio, now)
    {
      Prune(now);
      if |samples| < minimumBatches { return false; }
      if samples == [] || now - samples[0].at < windowMs { return false; }
      var dropped := CountDropped(samples);
      return dropped as real / |samples| as real >= dropRatio;
    }
  }

  /** The window after a batch was recorded. */
  function Recorded(samples: seq<Sample>, windowMs: nat, dropped: bool, at: int): seq<Sample> {
    Retained(samples, at - windowMs) + [Sample(at, dropped)]
  }

  method CountDropped(samples: seq<Sample>) returns (dropped: nat)
    ensures dropped == DroppedCount(samples)
  {
    dropped := 0;
    var k := 0;
    while k < |samples|
      invariant k <= |samples| && dropped == DroppedCount(samples[..k])
    {
      assert samples[..k + 1][..k] == samples[..k];
      dropped := dropped + if samples[k].dropped then 1 else 0;
      k := k + 1;
    }
    assert samples[..k] == samples;
  }

  /** What `isSaturated` answers about the samples it retained. */
  predicate Saturated(kept: seq<Sample>, windowMs: nat, minimumBatches: nat, dropRatio: real, now: int) {
    && |kept| >= minimumBatches && kept != [] && now - kept[0].at >= windowMs
    && DroppedCount(kept) as real / |kept| as real >= dropRatio
  }

  /** The window is meant to span the retained samples. But whatever is older than the window
      has been dropped by then, so they span it only if one of them is exactly as old: output
      that loses every batch for minutes is not saturated at a moment with no sample of that
      very millisecond. */
  lemma SaturatedOnlyOnTheDot(samples: seq<Sample>, windowMs: nat, minimumBatches: nat, dropRatio: real, now: int)
    requires InTimeOrder(samples)
    ensures var kept := Retained(samples, now - windowMs);
      Saturated(kept, windowMs, minimumBatches, dropRatio, now) <==>
        && |kept| >= minimumBatches
        && (exists s :: s in samples && s.at == now - windowMs)
        && DroppedCount(kept) as real >= dropRatio * |kept| as real
  {
    hide DroppedCount, Retained;
    var kept := Retained(samples, now - windowMs);
    RetainedIs(samples, now - windowMs);
    if kept == [] || now - kept[0].at < windowMs {
      NoSpan(samples, kept, now - windowMs);
    } else {
      assert kept[0] in kept && kept[0].at == now - windowMs;
      RatioIs(DroppedCount(kept) as real, |kept| as real, dropRatio);
    }
  }

  lemma NoSpan(samples: seq<Sample>, kept: seq<Sample>, cutoff: int)
    requires InTimeOrder(samples) && kept == Retained(samples, cutoff) && (kept == [] || kept[0].at > cutoff)
    ensures !exists s :: s in samples && s.at == cutoff
  {
    RetainedIs(samples, cutoff);
    FirstIsOldest(kept);
  }

  lemma FirstIsOldest(samples: seq<Sample>)
    requires InTimeOrder(samples)
    ensures forall s | s in samples :: samples[0].at <= s.at
  {}

  lemma RatioIs(a: real, b: real, r: real)
    requires b > 0.0
    ensures a / b >= r <==> a >= r * b
  {
    var q := a / b;
    assert q * b == a;
    if q >= r { assert (q - r) * b >= 0.0; } else { assert (r - q) * b > 0.0; }
  }

  // ---- a pace at which it is missed ----

  /** Two batches out of five get through: at 800 ms a batch, as the registry's limiter adds a
      token every 2 seconds. */
  predicate Admitted(i: nat) {
    i % 5 == 0 || i % 5 == 3
  }

  /** `n` batches 800 ms apart. */
  function Paced(n: nat): seq<Sample> {
    seq(n, i requires 0 <= i < n => Sample(800 * i, !Admitted(i)))
  }

  /** That is what the limiter does once its first tokens are gone, four seconds at a time: ticks
      come just before the first and the fourth of five batches. */
  lemma PaceIsTheLimiters(m: Monitor, b: Batch)
    requires m.tokens == 0 && m.capacity > 0 && m.refillAmount == 1 && !m.stopped && !m.removed && !b.saturated
    ensures var m1 := Do(Do(m, Tick), Flushes(b));
      var m3 := Do(Do(m1, Flushes(b)), Flushes(b));
      var m4 := Do(Do(m3, Tick), Flushes(b));
      var m5 := Do(m4, Flushes(b));
      && m1.events == m.events + [m.droppedPending] && m3.events == m1.events && m3.droppedPending == 2 * b.lines
      && m4.events == m3.events + [2 * b.lines] && m5.events == m4.events
      && m5 == m.(droppedPending := b.lines, events := m.events + [m.droppedPending, 2 * b.lines])
  {
    assert m.events + [m.droppedPending] + [2 * b.lines] == m.events + [m.droppedPending, 2 * b.lines];
  }

  /** The window misses it: with the registry's window of 30 seconds a monitor that goes on like
      this is never found saturated, however long it does and whatever the ratio, although 38
      batches are retained and more than half of them were dropped. */
  lemma SteadyLossIsMissed(n: nat, minimumBatches: nat, dropRatio: real)
    requires n > 0
    ensures var now := 800 * (n - 1);
      var kept := Retained(Paced(n), now - 30000);
      && !Saturated(kept, 30000, minimumBatches, dropRatio, now)
      && (n >= 38 ==> |kept| == 38 && 2 * DroppedCount(kept) > 38)
  {
    hide DroppedCount, Retained, Saturated, Admitted;
    var now := 800 * (n - 1);
    var k := if n >= 38 then n - 38 else 0;
    SaturatedOnlyOnTheDot(Paced(n), 30000, minimumBatches, dropRatio, now);
    forall i | 0 <= i < n ensures Paced(n)[i].at != now - 30000 {
      assert 800 * (n - 1 - i) != 30000;
    }
    RetainedFrom(Paced(n), k, now - 30000);
    if n >= 38 { ThreeInFive(n, k); }
  }

  function Drop(i: nat): nat {
    if Admitted(i) then 0 else 1
  }

  lemma FiveDrops(i: nat)
    ensures Drop(i) + Drop(i + 1) + Drop(i + 2) + Drop(i + 3) + Drop(i + 4) == 3
  {
    var q, r := i / 5, i % 5;
    SameDrop(q, r);
    SameDrop(q, r + 1);
    SameDrop(q, r + 2);
    SameDrop(q, r + 3);
    SameDrop(q, r + 4);
    hide Drop;
    FirstDrops();
  }

  lemma SameDrop(q: nat, r: nat)
    ensures Drop(5 * q + r) == Drop(r)
  {
    assert (5 * q + r) % 5 == r % 5;
  }

  lemma FirstDrops()
    ensures Drop(0) == 0 && Drop(1) == 1 && Drop(2) == 1 && Drop(3) == 0 && Drop(4) == 1
    ensures Drop(5) == 0 && Drop(6) == 1 && Drop(7) == 1 && Drop(8) == 0
  {}

  lemma OneBatch(n: nat, k: nat)
    requires k < n
    ensures DroppedCount(Paced(n)[k..]) == DroppedCount(Paced(n - 1)[k..]) + Drop(n - 1)
  {
    var tail := Paced(n)[k..];
    assert tail[..|tail| - 1] == Paced(n - 1)[k..];
  }

  /** Of any five batches in a row three are dropped. */
  lemma {:induction false} ThreeInFive(n: nat, k: nat)
    requires k <= n
    ensures DroppedCount(Paced(n)[k..]) >= 3 * ((n - k) / 5)
    decreases n
  {
    hide Drop, DroppedCount, Paced;
    if n - k >= 5 {
      ThreeInFive(n - 5, k);
      OneBatch(n, k);
      OneBatch(n - 1, k);
      OneBatch(n - 2, k);
      OneBatch(n - 3, k);
      OneBatch(n - 4, k);
      FiveDrops(n - 5);
    }
  }

  lemma {:induction false} RetainedFrom(samples: seq<Sample>, k: nat, cutoff: int)
    requires k < |samples| && samples[k].at >= cutoff && forall i | 0 <= i < k :: samples[i].at < cutoff
    ensures Retained(samples, cutoff) == samples[k..]
    decreases k
  {
    if k > 0 {
      RetainedFrom(samples[1..], k - 1, cutoff);
      assert samples[1..][k - 1..] == samples[k..];
    }
  }
}
