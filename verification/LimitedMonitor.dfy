/** A monitor's limiter and its drop accounting as the registry updates them in place, proved
    against MonitorLimits. */
module LimitedMonitor {
  import opened Options
  import opened MonitorLimits

  class RateLimiter {
    const capacity: nat
    const refillAmount: nat
    var tokens: int
    var disposed: bool

    constructor (capacity: nat, refillAmount: nat)
      ensures this.capacity == capacity && this.refillAmount == refillAmount && tokens == capacity && !disposed
    {
      this.capacity, this.refillAmount := capacity, refillAmount;
      tokens, disposed := capacity, false;
    }

    method Refill()
      modifies this`tokens
      ensures tokens == if old(tokens) + refillAmount < capacity then old(tokens) + refillAmount else capacity
    {
      tokens := if tokens + refillAmount < capacity then tokens + refillAmount else capacity;
    }

    method TryConsume(n: int) returns (ok: bool)
      modifies this`tokens
      ensures ok <==> !disposed && old(tokens) >= n
      ensures tokens == old(tokens) - if ok then n else 0
    {
      if disposed { return false; }
      if tokens < n { return false; }
      tokens := tokens - n;
      return true;
    }
  }

  class Entry {
    const limiter: RateLimiter
    const saturation: SaturationWindow
    var droppedLinesPending: nat
    var stopRequested: bool
    var stopped: bool
    var stopping: bool
    var removed: bool
    var events: seq<nat>
    var notices: seq<nat>

    constructor (capacity: nat, refillAmount: nat, windowMs: nat, dropRatio: real, minimumBatches: nat)
      ensures View() == New(capacity, refillAmount) && Valid() && fresh(limiter) && fresh(saturation)
      ensures saturation.samples == [] && saturation.windowMs == windowMs
      ensures saturation.dropRatio == dropRatio && saturation.minimumBatches == minimumBatches
    {
      limiter := new RateLimiter(capacity, refillAmount);
      saturation := new SaturationWindow(windowMs, dropRatio, minimumBatches);
      droppedLinesPending, stopRequested, stopped, stopping, removed := 0, false, false, false, false;
      events, notices := [], [];
    }

    function View(): Monitor
      reads this, limiter
    {
      Monitor(limiter.capacity, limiter.refillAmount, limiter.tokens, droppedLinesPending, stopRequested, stopped,
              stopping, removed, events, notices)
    }

    /** The limiter goes with the entry. */
    ghost predicate Valid()
      reads this, limiter
    {
      (limiter.disposed <==> removed) && (removed ==> stopped)
    }

    /** The batch as the window judges it once it has recorded it. */
    function Judged(lines: nat, now: int): Batch
      reads this, limiter, saturation
    {
      var w := saturation.windowMs;
      var kept := Retained(Recorded(saturation.samples, w, limiter.tokens < 1, now), now - w);
      Batch(lines, Saturated(kept, w, saturation.minimumBatches, saturation.dropRatio, now))
    }

    method OnBatch(lines: nat, now: int)
      requires Valid() && !removed
      modifies this, limiter, saturation
      ensures View() == MonitorLimits.OnBatch(old(View()), old(Judged(lines, now))) && Valid() && !removed
      ensures !old(stopped) ==>
                var w, refused := saturation.windowMs, old(limiter.tokens) < 1;
                var recorded := Recorded(old(saturation.samples), w, refused, now);
                saturation.samples == if refused then Retained(recorded, now - w) else recorded
    {
      if stopped { return; }
      var accepted := limiter.TryConsume(1);
      saturation.Record(!accepted, now);
      if !accepted {
        droppedLinesPending := droppedLinesPending + lines;
        var saturated := saturation.IsSaturated(now);
        if saturated && !stopRequested { Stop(); }
        return;
      }
      var droppedLines := droppedLinesPending;
      droppedLinesPending := 0;
      events := events + [droppedLines];
    }

    /** `timeout` and `autoStop`, up to the stop request. */
    method Stop()
      requires Valid()
      modifies this
      ensures View() == Do(old(View()), TimesOut) && Valid()
    {
      if stopped { return; }
      stopped := true;
      stopping := true;
    }

    /** The rest of `timeout` and `autoStop`: the notice, then the clean-up. */
    method StopAnswered()
      requires Valid() && stopping
      modifies this, limiter
      ensures View() == Do(old(View()), Step.StopAnswered) && Valid()
    {
      notices := notices + [droppedLinesPending];
      stopping := false;
      Cleanup();
    }

    method Cleanup()
      modifies this, limiter
      ensures View() == old(View()).(stopped := true, removed := true) && Valid()
    {
      stopped := true;
      limiter.disposed := true;
      removed := true;
    }

    /** `handleExit`: the buffered lines first, then the notice unless a stop sends its own. */
    method HandleExit(lastLines: Option<nat>, now: int)
      requires Valid() && !removed
      modifies this, limiter, saturation
      ensures Valid()
      ensures View() ==
              Do(old(View()), Exits(if lastLines.Some? then Some(old(Judged(lastLines.value, now))) else None))
    {
      if lastLines.Some? { OnBatch(lastLines.value, now); }
      var alreadyStopped := stopped;
      Cleanup();
      if alreadyStopped { return; }
      notices := notices + [droppedLinesPending];
    }
  }
}
