/** The extension's side of StreamModel as it runs: one entry of the monitor registry. */
module StreamMonitor {
  import opened Options
  import opened Utf8
  import opened StreamModel

  class MonitorEntry {
    var known: bool
    var cursor: nat
    var accepted: seq<Scalar>
    var recovering: bool
    var queued: seq<Event>
    var early: seq<Event>

    function View(): Monitor
      reads this
    {
      Monitor(known, cursor, accepted, recovering, queued, early)
    }

    constructor ()
      ensures View() == Spawned().c
    {
      known, cursor, accepted, recovering, queued, early := false, 0, [], false, [], [];
    }

    /** `acceptOutput`; older managers send no cursor, and everything they send is new. */
    method AcceptOutput(text: seq<Scalar>, nextCursor: Option<nat>)
      modifies this`cursor, this`accepted
      ensures nextCursor.Some? ==> View() == Accept(old(View()), Event(text, nextCursor.value))
      ensures nextCursor.None? ==>
                View() == old(View()).(cursor := old(cursor) + |Encode(text)|, accepted := old(accepted) + text)
    {
      var deliver := Encode(text);
      if nextCursor.Some? {
        if nextCursor.value <= cursor {
          return;
        }
        var startCursor := nextCursor.value - |deliver|;
        if startCursor < cursor {
          deliver := deliver[cursor - startCursor..];
        }
        cursor := nextCursor.value;
      } else {
        DecodeOfEncode(text);
        cursor := cursor + |deliver|;
      }
      if |deliver| > 0 {
        accepted := accepted + Lossy(deliver);
      }
    }

    method AcceptEvents(events: seq<Event>)
      modifies this`cursor, this`accepted
      ensures View() == AcceptAll(old(View()), events)
    {
      ghost var before := View();
      var i := 0;
      while i < |events|
        invariant i <= |events|
        invariant AcceptAll(before, events) == AcceptAll(View(), events[i..])
        invariant known == old(known) && recovering == old(recovering) && queued == old(queued) && early == old(early)
      {
        ghost var rest := events[i..];
        AcceptOutput(events[i].text, Some(events[i].next));
        assert rest[1..] == events[i + 1..];
        i := i + 1;
      }
    }

    /** `handleOutput`: to the entry, to its queue while it recovers, or aside until the id
        is known. */
    method HandleOutputEvent(e: Event)
      modifies this
      ensures View() == HandleOutput(old(View()), e)
    {
      if known {
        if recovering {
          queued := queued + [e];
        } else {
          AcceptOutput(e.text, Some(e.next));
        }
        return;
      }
      if EarlyChars(early) + CharsOf(e.text) > EARLY_MAX_CHARS {
        return;
      }
      early := early + [e];
    }

    /** The tail of `start()`. */
    method ReplayEarly()
      modifies this
      ensures View() == StartReturns(old(View()))
    {
      var events := early;
      known := true;
      early := [];
      AcceptEvents(events);
    }

    /** The tail of `rewatchAll` for one entry. */
    method DrainQueued()
      modifies this
      ensures View() == RewatchDone(old(View()))
    {
      recovering := false;
      var events := Sorted(queued);
      queued := [];
      AcceptEvents(events);
    }
  }
}
