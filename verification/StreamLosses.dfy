/** What does not lose output in StreamModel, and two short runs that do, each in a way its exact
    condition names: a subscription made again too late, and one dropped with a task that is
    over. */
module StreamLosses {
  import opened Limits
  import opened Options
  import opened Utf8
  import opened ChunkCut
  import opened StreamModel
  import opened StreamProof
  import opened StreamRuns

  /** While the connection's queue has room, the fanout queues what it takes as an event, unless that
      is nothing, and no part of it counts as lost. */
  lemma RoomLosesNothing(w: World, n: nat)
    requires w.m.link.Watching?
    ensures !Loses(w, FanoutReceives(n, true)) && !Loses(w, FanoutFlushes(true))
    ensures w.m.chan != [] && 0 < n <= |w.m.carry| + |w.m.chan[0]| ==>
              var m, sent := FanoutRecv(w.m, n, true), (w.m.carry + w.m.chan[0])[..n];
              m.link == Watching(w.m.link.queue + [EventOf(sent, m.delivered)], w.m.link.written)
    ensures w.m.carry != [] && !w.m.parked ==>
              FanoutEnd(w.m, true).link == Watching(w.m.link.queue + [EventOf(w.m.carry, w.m.last)], w.m.link.written)
  {
    hide First, ScalarOf;
    if w.m.chan != [] && 0 < n <= |w.m.carry| + |w.m.chan[0]| {
      var sent := (w.m.carry + w.m.chan[0])[..n];
      assert sent != [];
    }
  }

  /** It happens: a connection is lost, the fanout goes on, and the session subscribes again. */
  lemma LostConnectionLosesOutput() returns (output: seq<Byte>, worlds: seq<World>, steps: seq<Step>)
    ensures Valid(output) && Run(output, worlds, steps) && Lossless(worlds, steps)
    ensures var w := worlds[|steps|];
      w.c.cursor == w.m.delivered == |output| && Pending(w) == [] && w.c.accepted != Lossy(output)
  {
    output := [0x61, 0x62];
    var w5 := World(Manager([0x61], [], [], 1, 1, false, false, false, false, Watching([], 1)), [],
                    Monitor(true, 0, [], false, [], []), [], 0, Some(0));
    var w6 := w5.(m := w5.m.(file := output, chan := [[0x62]]));
    var e := Event([0x62], 2);
    var w7 := w6.(m := w6.m.(chan := [], last := 2, delivered := 2, link := Watching([e], 1)));
    var w8 := w7.(m := w7.m.(link := Watching([], 2)), wire := [e]);
    var w9 := w8.(wire := [], c := w8.c.(cursor := 2, accepted := [0x62]), log := [(1, 2)]);
    hide Valid, Lossy, Did, Lossless, Run, StaysConnected;
    TwoBytes();
    worlds, steps := WatchedTooLate(output, w5);
    AfterTheLoss(output, e, w5, w6, w7);
    OnlyTheRestArrives(output, e, w7, w8, w9);
    worlds, steps := RunOne(output, worlds, steps, PumpReads(1), w6);
    worlds, steps := RunOne(output, worlds, steps, FanoutReceives(1, true), w7);
    worlds, steps := RunOne(output, worlds, steps, WriterWrites, w8);
    worlds, steps := RunOne(output, worlds, steps, Arrives, w9);
    OneRunCounts(output, worlds, steps, w9);
  }

  /** The connection is lost, a byte printed, and the session subscribes again. */
  lemma WatchedTooLate(output: seq<Byte>, w5: World) returns (worlds: seq<World>, steps: seq<Step>)
    requires output == [0x61, 0x62]
    requires w5 == World(Manager([0x61], [], [], 1, 1, false, false, false, false, Watching([], 1)), [],
                         Monitor(true, 0, [], false, [], []), [], 0, Some(0))
    ensures Run(output, worlds, steps) && worlds[|steps|] == w5
  {
    var w0 := Spawned();
    var w1 := w0.(c := w0.c.(known := true));
    var w2 := w1.(m := w1.m.(link := Unwatched));
    var w3 := w2.(m := w2.m.(file := [0x61], chan := [[0x61]]));
    var w4 := w3.(m := w3.m.(chan := [], last := 1, delivered := 1));
    hide Did, Run, StaysConnected;
    BeforeTheLoss(output, w1, w2, w3, w4, w5);
    worlds, steps := RunStarts(output);
    worlds, steps := RunOne(output, worlds, steps, StartAnswered, w1);
    worlds, steps := RunOne(output, worlds, steps, ConnectionLost, w2);
    worlds, steps := RunOne(output, worlds, steps, PumpReads(1), w3);
    worlds, steps := RunOne(output, worlds, steps, FanoutReceives(1, true), w4);
    worlds, steps := RunOne(output, worlds, steps, SessionRewatches, w5);
  }

  lemma OneRunCounts(output: seq<Byte>, worlds: seq<World>, steps: seq<Step>, w: World)
    requires Run(output, worlds, steps) && worlds[|steps|] == w && w.faults == 0
    ensures Lossless(worlds, steps)
  {
    hide Enabled, Do;
    RunCounts(output, worlds, steps);
  }

  /** It happens to a task that is over, too: its writer is stopped before it sent the only
      event, and the image that comes after knows nothing of the subscription. */
  lemma ExecLosesOutput() returns (output: seq<Byte>, worlds: seq<World>, steps: seq<Step>)
    ensures Valid(output) && Run(output, worlds, steps) && Lossless(worlds, steps) && StaysConnected(steps)
    ensures var w := worlds[|steps|];
      w.m.link.Watching? && Pending(w) == [] && w.c.accepted == [] && output != []
  {
    output := [0x61];
    var e := Event([0x61], 1);
    var w5 := World(Manager(output, [], [], 1, 1, true, true, true, false, Watching([e], 0)), [],
                    Monitor(false, 0, [], false, [], []), [], 0, None);
    var w6, w7 := w5.(m := w5.m.(link := Flushing([e], 0))), w5.(m := w5.m.(link := Flushing([], 0)));
    var w8 := w5.(m := w5.m.(link := Carried(0)));
    var w9 := w8.(m := w8.m.(delivered := 0, parked := false, reloaded := true, link := Unwatched), missed := Some(0));
    var w10 := w9.(m := w9.m.(link := Watching([], 0)));
    hide Valid, Lossy, Did, Lossless, Run, StaysConnected;
    TwoBytes();
    worlds, steps := OverWithOneQueued(output, e, w5);
    NothingGoesOut(output, e, w5, w6, w7, w8);
    TheExec(output, w8, w9, w10);
    worlds, steps := RunOne(output, worlds, steps, ClosesAll, w6);
    worlds, steps := RunOne(output, worlds, steps, WriterAborts(false), w7);
    worlds, steps := RunOne(output, worlds, steps, CarriesWatches, w8);
    worlds, steps := RunOne(output, worlds, steps, Execs, w9);
    worlds, steps := RunOne(output, worlds, steps, SessionRewatches, w10);
    OneRunCounts(output, worlds, steps, w10);
  }

  predicate StaysConnected(steps: seq<Step>) {
    forall step | step in steps :: !step.ConnectionLost?
  }

  /** A task prints a byte, ends and is parked; its only event is still queued. */
  lemma OverWithOneQueued(output: seq<Byte>, e: Event, w5: World) returns (worlds: seq<World>, steps: seq<Step>)
    requires output == [0x61] && e == Event([0x61], 1)
    requires w5 == World(Manager(output, [], [], 1, 1, true, true, true, false, Watching([e], 0)), [],
                         Monitor(false, 0, [], false, [], []), [], 0, None)
    ensures Run(output, worlds, steps) && worlds[|steps|] == w5 && StaysConnected(steps)
  {
    var w0 := Spawned();
    var w1 := w0.(m := w0.m.(file := output, chan := [output]));
    var w2 := w1.(m := w1.m.(chan := [], last := 1, delivered := 1, link := Watching([e], 0)));
    var w3 := w2.(m := w2.m.(pumpsDone := true));
    var w4 := w3.(m := w3.m.(reaped := true));
    hide Did, Run, StaysConnected;
    OnePrinted(output, e, w1, w2);
    ThenItEnds(output, w2, w3, w4, w5);
    worlds, steps := RunStarts(output);
    worlds, steps := RunOne(output, worlds, steps, PumpReads(1), w1);
    worlds, steps := RunOne(output, worlds, steps, FanoutReceives(1, true), w2);
    worlds, steps := RunOne(output, worlds, steps, PumpsEnd, w3);
    worlds, steps := RunOne(output, worlds, steps, TaskReaped, w4);
    worlds, steps := RunOne(output, worlds, steps, Parks, w5);
  }

  lemma RunStarts(output: seq<Byte>) returns (worlds: seq<World>, steps: seq<Step>)
    ensures Run(output, worlds, steps) && worlds[|steps|] == Spawned() && StaysConnected(steps)
  {
    worlds, steps := [Spawned()], [];
  }

  lemma OnePrinted(output: seq<Byte>, e: Event, w1: World, w2: World)
    requires output == [0x61] && e == Event([0x61], 1)
    requires w1 == Spawned().(m := Spawned().m.(file := output, chan := [output]))
    requires w2 == w1.(m := w1.m.(chan := [], last := 1, delivered := 1, link := Watching([e], 0)))
    ensures Did(output, Spawned(), PumpReads(1), w1) && Did(output, w1, FanoutReceives(1, true), w2)
  {
    hide First, Lossy, Encode, Valid, Boundary, Cut, FanoutRecv, Drops, HandleOutput, SentUpTo;
    assert output[0..1] == output && [] + [e] == [e];
    FanoutOne(output, w1, 0x61);
  }

  lemma ThenItEnds(output: seq<Byte>, w2: World, w3: World, w4: World, w5: World)
    requires !w2.m.parked && w2.m.file == output && w2.m.chan == []
    requires w3 == w2.(m := w2.m.(pumpsDone := true)) && w4 == w3.(m := w3.m.(reaped := true))
    requires w5 == w4.(m := w4.m.(parked := true))
    ensures Did(output, w2, PumpsEnd, w3) && Did(output, w3, TaskReaped, w4) && Did(output, w4, Parks, w5)
  {
    hide Covered, SentUpTo;
  }

  lemma NothingGoesOut(output: seq<Byte>, e: Event, w5: World, w6: World, w7: World, w8: World)
    requires w5.m.parked && w5.m.link == Watching([e], 0)
    requires w6 == w5.(m := w5.m.(link := Flushing([e], 0))) && w7 == w5.(m := w5.m.(link := Flushing([], 0)))
    requires w8 == w5.(m := w5.m.(link := Carried(0)))
    ensures Did(output, w5, ClosesAll, w6) && Did(output, w6, WriterAborts(false), w7)
    ensures Did(output, w7, CarriesWatches, w8)
  {
    hide Covered, SentUpTo;
  }

  lemma TheExec(output: seq<Byte>, w8: World, w9: World, w10: World)
    requires output == [0x61]
    requires w8 == World(Manager(output, [], [], 1, 1, true, true, true, false, Carried(0)), [],
                         Monitor(false, 0, [], false, [], []), [], 0, None)
    requires w9 == w8.(m := w8.m.(delivered := 0, parked := false, reloaded := true, link := Unwatched),
                       missed := Some(0))
    requires w10 == w9.(m := w9.m.(link := Watching([], 0)))
    ensures Did(output, w8, Execs, w9) && Did(output, w9, SessionRewatches, w10)
  {
    hide First, Lossy, Encode, Valid, Boundary, Cut, FanoutRecv, Drops, HandleOutput, Restart;
    assert Written(w8) == [] && Written(w9) == [];
  }

  /** A run goes on with one more step. */
  lemma RunOne(output: seq<Byte>, worlds: seq<World>, steps: seq<Step>, step: Step, w: World)
      returns (worlds': seq<World>, steps': seq<Step>)
    requires Run(output, worlds, steps) && Did(output, worlds[|steps|], step, w)
    ensures Run(output, worlds', steps') && worlds'[|steps'|] == w
    ensures StaysConnected(steps) && !step.ConnectionLost? ==> StaysConnected(steps')
  {
    hide Do, Enabled;
    worlds', steps' := worlds + [w], steps + [step];
  }

  lemma BeforeTheLoss(output: seq<Byte>, w1: World, w2: World, w3: World, w4: World, w5: World)
    requires output == [0x61, 0x62] && w1 == Spawned().(c := Spawned().c.(known := true))
    requires w2 == w1.(m := w1.m.(link := Unwatched))
    requires w3 == w2.(m := w2.m.(file := [0x61], chan := [[0x61]]))
    requires w4 == w3.(m := w3.m.(chan := [], last := 1, delivered := 1))
    requires w5 == w4.(m := w4.m.(link := Watching([], 1)), missed := Some(0))
    ensures Did(output, Spawned(), StartAnswered, w1) && Did(output, w1, ConnectionLost, w2)
    ensures Did(output, w2, PumpReads(1), w3) && Did(output, w3, FanoutReceives(1, true), w4)
    ensures Did(output, w4, SessionRewatches, w5)
  {
    hide First, Lossy, Encode, Valid, Boundary, Cut, FanoutRecv, Drops, HandleOutput;
    assert output[0..1] == [0x61];
    FanoutOne(output, w3, 0x61);
  }

  lemma AfterTheLoss(output: seq<Byte>, e: Event, w5: World, w6: World, w7: World)
    requires output == [0x61, 0x62] && e == Event([0x62], 2)
    requires w5 == World(Manager([0x61], [], [], 1, 1, false, false, false, false, Watching([], 1)), [],
                         Monitor(true, 0, [], false, [], []), [], 0, Some(0))
    requires w6 == w5.(m := w5.m.(file := output, chan := [[0x62]]))
    requires w7 == w6.(m := w6.m.(chan := [], last := 2, delivered := 2, link := Watching([e], 1)))
    ensures Did(output, w5, PumpReads(1), w6) && Did(output, w6, FanoutReceives(1, true), w7)
  {
    hide First, Lossy, Encode, Valid, Boundary, Cut, FanoutRecv, Drops, HandleOutput, Ranges;
    assert output[1..2] == [0x62] && [0x61] + [0x62] == output;
    FanoutOne(output, w6, 0x62);
    assert [] + [e] == [e];
  }

  lemma OnlyTheRestArrives(output: seq<Byte>, e: Event, w7: World, w8: World, w9: World)
    requires output == [0x61, 0x62] && e == Event([0x62], 2)
    requires w7 == World(Manager(output, [], [], 2, 2, false, false, false, false, Watching([e], 1)), [],
                         Monitor(true, 0, [], false, [], []), [], 0, Some(0))
    requires w8 == w7.(m := w7.m.(link := Watching([], 2)), wire := [e])
    requires w9 == w8.(wire := [], c := w8.c.(cursor := 2, accepted := [0x62]), log := [(1, 2)])
    ensures Did(output, w7, WriterWrites, w8) && Did(output, w8, Arrives, w9)
  {
    hide First, Lossy, Encode, Valid, Boundary, Cut, FanoutRecv, Drops, HandleOutput, Ranges;
    assert [e][1..] == [] && [] + [e] == [e];
    ArrivesOne(w8, e);
  }

  ghost predicate Did(output: seq<Byte>, w: World, step: Step, w': World) {
    Enabled(output, w, step) && w' == Do(output, w, step)
  }

  lemma ArrivesOne(w: World, e: Event)
    requires w.wire == [e] && w.c == Monitor(true, 0, [], false, [], []) && w.log == []
    requires e == Event([0x62], 2)
    ensures Do([0x61, 0x62], w, Arrives) == w.(wire := [], c := w.c.(cursor := 2, accepted := [0x62]), log := [(1, 2)])
  {
    hide First, Lossy, Encode, Ranges, Cut;
    OneByte(0x62);
    RangesOne(0, e);
    assert e.text == [0x62] && Start(e) == 1;
    assert Accept(w.c, e) == w.c.(cursor := 2, accepted := [] + Lossy([0x62]));
    assert w.wire[1..] == [];
  }

  /** One byte through an empty fanout. */
  lemma FanoutOne(output: seq<Byte>, w: World, b: Byte)
    requires 0x20 <= b < 0x7F && b != 0x22 && b != 0x5C && w.m.carry == [] && w.m.chan == [[b]]
    ensures Did(output, w, FanoutReceives(1, true),
      w.(m := w.m.(chan := [], carry := [], last := w.m.last + 1, delivered := w.m.last + 1,
                   link := Enqueue(w.m.link, Event([b], w.m.last + 1), true))))
  {
    hide First, Lossy, Encode, Valid, Boundary, Cut, Enqueue;
    OneByte(b);
    assert ([] + [b])[..1] == [b] && ([] + [b])[1..] == [] && [[b]][1..] == [];
  }

  lemma TwoBytes()
    ensures Valid([0x61, 0x62]) && Lossy([0x61, 0x62]) == [0x61, 0x62]
  {
    var s: seq<Byte> := [0x61, 0x62];
    assert s[1..] == [0x62] && [0x62][1..] == [];
    assert First(s) == Char(1, 0x61) && First([0x62]) == Char(1, 0x62);
  }

  /** A single ASCII byte, as the fanout cuts it. */
  lemma OneByte(b: Byte)
    requires 0x20 <= b < 0x7F && b != 0x22 && b != 0x5C
    ensures Lossy([b]) == [b] && Encode([b]) == [b] && Valid([b])
    ensures [] + [b] == [b] && Cut([b], USIZE_MAX, CHUNK_JSON_BUDGET, true, 1)
  {
    assert [b][1..] == [] && [b][..1] == [b] && [b][..0] == [];
    assert First([b]) == Char(1, b);
    assert Boundary([b], 1);
    assert forall k: nat | k < 1 && Boundary([b], k) :: !Truncated([b][k..]) by { assert [b][0..] == [b]; }
  }
}
