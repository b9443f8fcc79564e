/** The distance behind "did you mean": `edit_distance` of manager/src/client.rs keeps two rows
    of the table and swaps them. */
module EditDistance {
  import opened Numbers

  function Front(s: string): string
    requires s != ""
  {
    s[..|s| - 1]
  }

  function Last(s: string): char
    requires s != ""
  {
    s[|s| - 1]
  }

  function Mismatch(a: string, b: string): nat
    requires a != "" && b != ""
  {
    if Last(a) == Last(b) then 0 else 1
  }

  /** Levenshtein's recurrence. */
  function Distance(a: string, b: string): nat
    decreases |a| + |b|
  {
    if a == "" then |b|
    else if b == "" then |a|
    else Min(Min(Distance(Front(a), b) + 1, Distance(a, Front(b)) + 1), Distance(Front(a), Front(b)) + Mismatch(a, b))
  }

  // ---- what it measures ----

  /** One step of turning a text into another, from its end. */
  datatype Edit = Keep | Substitute(c: char) | Insert(c: char) | Delete

  /** The text that the edits make of `a`, the last edit making its end; none if they do not fit. */
  ghost predicate Makes(edits: seq<Edit>, a: string, b: string)
    decreases |edits|
  {
    if edits == [] then a == b == ""
    else
      var rest := edits[..|edits| - 1];
      match edits[|edits| - 1]
      case Keep => a != "" && b != "" && Last(a) == Last(b) && Makes(rest, Front(a), Front(b))
      case Substitute(c) => a != "" && b != "" && Last(b) == c && Makes(rest, Front(a), Front(b))
      case Insert(c) => b != "" && Last(b) == c && Makes(rest, a, Front(b))
      case Delete => a != "" && Makes(rest, Front(a), b)
  }

  function Cost(edits: seq<Edit>): nat {
    if edits == [] then 0 else Cost(edits[..|edits| - 1]) + if edits[|edits| - 1].Keep? then 0 else 1
  }

  /** No edits turn one text into the other more cheaply. */
  lemma {:induction false} NoCheaperEdits(edits: seq<Edit>, a: string, b: string)
    requires Makes(edits, a, b)
    ensures Distance(a, b) <= Cost(edits)
    decreases |edits|
  {
    if edits != [] {
      var rest := edits[..|edits| - 1];
      match edits[|edits| - 1]
      case Keep => NoCheaperEdits(rest, Front(a), Front(b));
      case Substitute(_) => NoCheaperEdits(rest, Front(a), Front(b));
      case Insert(_) => NoCheaperEdits(rest, a, Front(b)); InsertOne(a, b);
      case Delete => NoCheaperEdits(rest, Front(a), b); DeleteOne(a, b);
    }
  }

  lemma InsertOne(a: string, b: string)
    requires b != ""
    ensures Distance(a, b) <= Distance(a, Front(b)) + 1
  {}

  lemma DeleteOne(a: string, b: string)
    requires a != ""
    ensures Distance(a, b) <= Distance(Front(a), b) + 1
  {}

  /** The distance is reached. */
  lemma {:induction false} CheapestEdits(a: string, b: string) returns (edits: seq<Edit>)
    ensures Makes(edits, a, b) && Cost(edits) == Distance(a, b)
    decreases |a| + |b|
  {
    if a == "" && b == "" {
      edits := [];
    } else if a == "" || (b != "" && Distance(a, b) == Distance(a, Front(b)) + 1) {
      var rest := CheapestEdits(a, Front(b));
      edits := rest + [Insert(Last(b))];
      assert edits[..|rest|] == rest;
    } else if b == "" || Distance(a, b) == Distance(Front(a), b) + 1 {
      var rest := CheapestEdits(Front(a), b);
      edits := rest + [Delete];
      assert edits[..|rest|] == rest;
    } else {
      var rest := CheapestEdits(Front(a), Front(b));
      edits := rest + [if Last(a) == Last(b) then Keep else Substitute(Last(b))];
      assert edits[..|rest|] == rest;
    }
  }

  /** The distance is the least cost of edits that turn one text into the other. */
  lemma DistanceIsLeastCost(a: string, b: string, n: nat)
    ensures Distance(a, b) <= n <==> exists edits :: Makes(edits, a, b) && Cost(edits) <= n
  {
    var best := CheapestEdits(a, b);
    if Distance(a, b) <= n { assert Makes(best, a, b) && Cost(best) <= n; }
    forall edits | Makes(edits, a, b) ensures Distance(a, b) <= Cost(edits) { NoCheaperEdits(edits, a, b); }
  }

  // ---- it is a metric ----

  lemma {:induction false} Symmetric(a: string, b: string)
    ensures Distance(a, b) == Distance(b, a)
    decreases |a| + |b|
  {
    if a != "" && b != "" {
      Symmetric(Front(a), b);
      Symmetric(a, Front(b));
      Symmetric(Front(a), Front(b));
    }
  }

  lemma {:induction false} ZeroIffEqual(a: string, b: string)
    ensures Distance(a, b) == 0 <==> a == b
    decreases |a| + |b|
  {
    if a != "" && b != "" {
      ZeroIffEqual(Front(a), Front(b));
      assert a == Front(a) + [Last(a)] && b == Front(b) + [Last(b)];
    }
  }

  lemma {:induction false} LengthsBound(a: string, b: string)
    ensures |b| <= |a| + Distance(a, b) && |a| <= |b| + Distance(a, b) && Distance(a, b) <= |a| + |b|
    decreases |a| + |b|
  {
    if a != "" && b != "" {
      LengthsBound(Front(a), b);
      LengthsBound(a, Front(b));
      LengthsBound(Front(a), Front(b));
    }
  }

  lemma {:induction false} Triangle(a: string, b: string, c: string)
    ensures Distance(a, c) <= Distance(a, b) + Distance(b, c)
    decreases |a| + |b| + |c|
  {
    if a == "" || b == "" || c == "" {
      LengthsBound(a, b);
      LengthsBound(b, c);
      LengthsBound(a, c);
    } else {
      Triangle(Front(a), b, c);
      Triangle(a, b, Front(c));
      Triangle(a, Front(b), c);
      Triangle(a, Front(b), Front(c));
      Triangle(Front(a), Front(b), c);
      Triangle(Front(a), Front(b), Front(c));
      ThroughB(a, b, c);
    }
  }

  /** Every way the two distances can be reached gives a way from a to c. */
  lemma ThroughB(a: string, b: string, c: string)
    requires a != "" && b != "" && c != ""
    requires Distance(Front(a), c) <= Distance(Front(a), b) + Distance(b, c)
    requires Distance(a, Front(c)) <= Distance(a, b) + Distance(b, Front(c))
    requires Distance(a, c) <= Distance(a, Front(b)) + Distance(Front(b), c)
    requires Distance(a, Front(c)) <= Distance(a, Front(b)) + Distance(Front(b), Front(c))
    requires Distance(Front(a), c) <= Distance(Front(a), Front(b)) + Distance(Front(b), c)
    requires Distance(Front(a), Front(c)) <= Distance(Front(a), Front(b)) + Distance(Front(b), Front(c))
    ensures Distance(a, c) <= Distance(a, b) + Distance(b, c)
  {
    hide Distance, Front, Mismatch;
    DistanceCases(a, b);
    DistanceCases(b, c);
    DistanceCases(a, c);
    MismatchThrough(a, b, c);
    if Distance(a, b) == Distance(Front(a), b) + 1 {
    } else if Distance(b, c) == Distance(b, Front(c)) + 1 {
    } else if Distance(a, b) == Distance(a, Front(b)) + 1 {
      if Distance(b, c) == Distance(Front(b), c) + 1 {
      } else {
        assert Distance(b, c) == Distance(Front(b), Front(c)) + Mismatch(b, c);
      }
    } else {
      assert Distance(a, b) == Distance(Front(a), Front(b)) + Mismatch(a, b);
      if Distance(b, c) == Distance(Front(b), c) + 1 {
      } else {
        assert Distance(b, c) == Distance(Front(b), Front(c)) + Mismatch(b, c);
      }
    }
  }

  lemma MismatchThrough(a: string, b: string, c: string)
    requires a != "" && b != "" && c != ""
    ensures Mismatch(a, c) <= Mismatch(a, b) + Mismatch(b, c)
  {}

  lemma DistanceCases(a: string, b: string)
    requires a != "" && b != ""
    ensures Distance(a, b) <= Distance(Front(a), b) + 1 && Distance(a, b) <= Distance(a, Front(b)) + 1
    ensures Distance(a, b) <= Distance(Front(a), Front(b)) + Mismatch(a, b)
    ensures Distance(a, b) == Distance(Front(a), b) + 1 || Distance(a, b) == Distance(a, Front(b)) + 1
            || Distance(a, b) == Distance(Front(a), Front(b)) + Mismatch(a, b)
  {}

  // ---- the two rows ----

  /** A row of the table: the distances from a prefix of `a` to the prefixes of `b`. */
  ghost predicate Row(row: seq<nat>, a: string, b: string, upTo: nat)
    requires upTo < |row|
  {
    forall j | 0 <= j <= upTo && j <= |b| :: row[j] == Distance(a, b[..j])
  }

  method EditDistance(a: string, b: string) returns (d: nat)
    ensures d == Distance(a, b)
  {
    hide Distance;
    var n, m := |a|, |b|;
    var prev := new nat[m + 1](j => j);
    var cur := new nat[m + 1](_ => 0);
    forall j | 0 <= j <= m ensures prev[j] == Distance(a[..0], b[..j]) { FromNothing(b[..j]); }
    var i := 1;
    while i <= n
      invariant 1 <= i <= n + 1 && prev.Length == cur.Length == m + 1 && prev != cur
      invariant fresh(prev) && fresh(cur)
      invariant Row(prev[..], a[..i - 1], b, m)
      modifies prev, cur
      decreases n - i
    {
      FillRow(prev, cur, a, b, i);
      prev, cur := cur, prev;
      i := i + 1;
    }
    assert a[..n] == a && b[..m] == b && prev[..][m] == prev[m];
    d := prev[m];
  }

  /** The inner loop. */
  method FillRow(prev: array<nat>, cur: array<nat>, a: string, b: string, i: nat)
    requires 1 <= i <= |a| && prev.Length == cur.Length == |b| + 1 && prev != cur
    requires Row(prev[..], a[..i - 1], b, |b|)
    modifies cur
    ensures Row(cur[..], a[..i], b, |b|)
  {
    hide Distance;
    cur[0] := i;
    ToNothing(a[..i]);
    assert b[..0] == "";
    var j := 1;
    while j <= |b|
      invariant 1 <= j <= |b| + 1 && Row(cur[..], a[..i], b, j - 1)
    {
      var cost := if a[i - 1] == b[j - 1] then 0 else 1;
      Cell(prev[..], cur[..], a, b, i, j);
      cur[j] := Min(Min(prev[j] + 1, cur[j - 1] + 1), prev[j - 1] + cost);
      j := j + 1;
    }
  }

  lemma FromNothing(b: string)
    ensures Distance("", b) == |b|
  {}

  lemma ToNothing(a: string)
    ensures Distance(a, "") == |a|
  {}

  /** A cell from its three neighbours. */
  lemma Cell(prev: seq<nat>, cur: seq<nat>, a: string, b: string, i: nat, j: nat)
    requires 1 <= i <= |a| && 1 <= j <= |b| && |prev| == |cur| == |b| + 1
    requires Row(prev, a[..i - 1], b, |b|) && Row(cur, a[..i], b, j - 1)
    ensures Distance(a[..i], b[..j]) ==
            Min(Min(prev[j] + 1, cur[j - 1] + 1), prev[j - 1] + if a[i - 1] == b[j - 1] then 0 else 1)
  {
    assert Front(a[..i]) == a[..i - 1] && Front(b[..j]) == b[..j - 1];
    assert prev[j] == Distance(a[..i - 1], b[..j]) && prev[j - 1] == Distance(a[..i - 1], b[..j - 1]);
    assert cur[j - 1] == Distance(a[..i], b[..j - 1]);
  }
}
