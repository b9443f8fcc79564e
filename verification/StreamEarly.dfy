/** Output that arrives before the extension knows the task's id, measured in the UTF-16 units
    its text takes. */
module StreamEarly {
  import opened Utf8
  import opened StreamModel
  import TailCut

  /** The text of all of the events, one after the other. */
  function TextOf(events: seq<Event>): seq<Scalar> {
    if events == [] then [] else TextOf(events[..|events| - 1]) + events[|events| - 1].text
  }

  lemma {:induction false} CharsAddUp(a: seq<Scalar>, b: seq<Scalar>)
    ensures CharsOf(a + b) == CharsOf(a) + CharsOf(b)
  {
    if a == [] {
      assert a + b == b;
    } else {
      CharsAddUp(a[1..], b);
      assert (a + b)[1..] == a[1..] + b;
    }
  }

  lemma {:induction false} UnitsAreChars(text: seq<Scalar>)
    ensures |TailCut.Encode16(text)| == CharsOf(text)
  {
    if text != [] { UnitsAreChars(text[1..]); }
  }

  lemma {:induction false} UnitsAreEarlyChars(events: seq<Event>)
    ensures |TailCut.Encode16(TextOf(events))| == EarlyChars(events)
  {
    UnitsAreChars(TextOf(events));
    if events != [] {
      var last := |events| - 1;
      UnitsAreEarlyChars(events[..last]);
      UnitsAreChars(TextOf(events[..last]));
      CharsAddUp(TextOf(events[..last]), events[last].text);
    }
  }

  /** Early output is put aside if and only if, with all that was put aside before, it takes at
      most 65536 UTF-16 units; otherwise it counts as lost. */
  lemma KeptIffItFits(w: World)
    requires w.wire != [] && !w.c.known
    ensures var fits := |TailCut.Encode16(TextOf(w.c.early + [w.wire[0]]))| <= 65536;
      && HandleOutput(w.c, w.wire[0]).early == (if fits then w.c.early + [w.wire[0]] else w.c.early)
      && (Loses(w, Arrives) <==> !fits)
  {
    var more := w.c.early + [w.wire[0]];
    UnitsAreEarlyChars(more);
    assert more[..|more| - 1] == w.c.early;
  }

  function HandleAll(c: Monitor, events: seq<Event>): Monitor {
    if events == [] then c else HandleOutput(HandleAll(c, events[..|events| - 1]), events[|events| - 1])
  }

  /** Everything that arrives before the id is known is accepted, in order, once it is, as long
      as it takes at most 65536 units. */
  lemma EarlyIsReplayed(c: Monitor, events: seq<Event>)
    requires !c.known && c.early == [] && |TailCut.Encode16(TextOf(events))| <= 65536
    ensures StartReturns(HandleAll(c, events)) == AcceptAll(c.(known := true), events)
  {
    UnitsAreEarlyChars(events);
    AllPutAside(c, events);
  }

  lemma {:induction false} AllPutAside(c: Monitor, events: seq<Event>)
    requires !c.known && c.early == [] && EarlyChars(events) <= 65536
    ensures HandleAll(c, events) == c.(early := events)
  {
    if events != [] {
      var last := |events| - 1;
      AllPutAside(c, events[..last]);
      assert events == events[..last] + [events[last]];
    }
  }
}
