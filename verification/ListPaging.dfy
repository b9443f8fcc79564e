/** The paged task list: `handle_list` of manager/src/daemon.rs, asked page by page by
    `list_tasks` of manager/src/client.rs while the registry may change. */
module ListPaging {
  import opened Limits
  import opened Options
  import opened Decimals
  import opened Utf8

  type Text = seq<Scalar>

  /** Where a record stands in the list. */
  datatype Key = Key(startedAt: nat, id: Text)

  /** A record, as far as listing goes: `json` is the length of its serialization. */
  datatype Record = Record(key: Key, session: Text, json: nat)

  datatype Access = Extension(session: Text) | Cli(filter: Option<Text>)

  datatype Reply = Page(tasks: seq<Record>, next: Option<Text>) | BadCursor

  const SLASH: Scalar := 0x2F

  predicate Visible(r: Record, access: Access) {
    match access
    case Extension(session) => r.session == session
    case Cli(Some(session)) => r.session == session
    case Cli(None) => true
  }

  // ---- the order of the list ----

  predicate TextLess(a: Text, b: Text) {
    if b == [] then false
    else if a == [] then true
    else if a[0] == b[0] then TextLess(a[1..], b[1..])
    else a[0] < b[0]
  }

  predicate Less(a: Key, b: Key) {
    a.startedAt < b.startedAt || (a.startedAt == b.startedAt && TextLess(a.id, b.id))
  }

  lemma {:induction false} TextTotal(a: Text, b: Text)
    ensures a == b || TextLess(a, b) || TextLess(b, a)
    ensures !(TextLess(a, b) && TextLess(b, a)) && !TextLess(a, a)
  {
    if a != [] && b != [] {
      TextTotal(a[1..], b[1..]);
      assert a == [a[0]] + a[1..] && b == [b[0]] + b[1..];
    }
    if a != [] { TextTotal(a[1..], a[1..]); }
  }

  lemma {:induction false} TextTransitive(a: Text, b: Text, c: Text)
    requires TextLess(a, b) && TextLess(b, c)
    ensures TextLess(a, c)
  {
    if a != [] && a[0] == b[0] == c[0] { TextTransitive(a[1..], b[1..], c[1..]); }
  }

  lemma Total(a: Key, b: Key)
    ensures a == b || Less(a, b) || Less(b, a)
    ensures !(Less(a, b) && Less(b, a)) && !Less(a, a)
  {
    TextTotal(a.id, b.id);
    TextTotal(a.id, a.id);
  }

  lemma Transitive(a: Key, b: Key, c: Key)
    requires Less(a, b) && Less(b, c)
    ensures Less(a, c)
  {
    if a.startedAt == b.startedAt == c.startedAt { TextTransitive(a.id, b.id, c.id); }
  }

  ghost predicate AscendingKeys(rs: seq<Record>) {
    forall i, j | 0 <= i < j < |rs| :: Less(rs[i].key, rs[j].key)
  }

  // ---- one page ----

  function InsertRecord(r: Record, rs: seq<Record>): seq<Record> {
    if rs == [] || Less(r.key, rs[0].key) then [r] + rs else [rs[0]] + InsertRecord(r, rs[1..])
  }

  /** The visible records, sorted. */
  function Listed(registry: seq<Record>, access: Access): seq<Record> {
    if registry == [] then []
    else
      var rest := Listed(registry[1..], access);
      if Visible(registry[0], access) then InsertRecord(registry[0], rest) else rest
  }

  function Beyond(rs: seq<Record>, after: Option<Key>): seq<Record> {
    if rs == [] then []
    else if after.None? || Less(after.value, rs[0].key) then [rs[0]] + Beyond(rs[1..], after)
    else Beyond(rs[1..], after)
  }

  /** How many records a page takes, having taken `take` of `size` bytes. */
  function Fill(rs: seq<Record>, take: nat, size: nat): nat
    requires take <= |rs|
    decreases |rs| - take
  {
    if take == |rs| || (take > 0 && size + rs[take].json + 1 > CHUNK_JSON_BUDGET) then take
    else Fill(rs, take + 1, size + rs[take].json + 1)
  }

  function CursorText(k: Key): Text {
    Digits(k.startedAt) + [SLASH] + k.id
  }

  function IndexOf(s: Text, c: Scalar): (n: nat)
    ensures n <= |s|
  {
    if s == [] || s[0] == c then 0 else 1 + IndexOf(s[1..], c)
  }

  /** `str::parse::<u64>`. */
  function ParseU64(s: Text): Option<nat> {
    match ParseDigits(if s != [] && s[0] == 0x2B then s[1..] else s)
    case Some(n) => if n < 0x1_0000_0000_0000_0000 then Some(n) else None
    case None => None
  }

  function ParseCursor(s: Text): Option<Key> {
    var n := IndexOf(s, SLASH);
    if n == |s| then None
    else
      match ParseU64(s[..n])
      case Some(at) => Some(Key(at, s[n + 1..]))
      case None => None
  }

  function HandleList(registry: seq<Record>, access: Access, paged: bool, after: Option<Text>): Reply {
    if after.Some? && ParseCursor(after.value).None? then BadCursor
    else
      var all := Listed(registry, access);
      if !paged && after.None? then Page(all, None)
      else
        var rs := Beyond(all, if after.Some? then ParseCursor(after.value) else None);
        var take := Fill(rs, 0, 0);
        FillBounds(rs, 0, 0);
        Page(rs[..take], if take < |rs| then Some(CursorText(rs[take - 1].key)) else None)
  }

  lemma {:induction false} FillBounds(rs: seq<Record>, take: nat, size: nat)
    requires take <= |rs|
    ensures take <= Fill(rs, take, size) <= |rs| && (rs != [] ==> Fill(rs, take, size) > 0)
    decreases |rs| - take
  {
    if take < |rs| && !(take > 0 && size + rs[take].json + 1 > CHUNK_JSON_BUDGET) {
      FillBounds(rs, take + 1, size + rs[take].json + 1);
    }
  }

  function Bytes(rs: seq<Record>): nat {
    if rs == [] then 0 else Bytes(rs[..|rs| - 1]) + rs[|rs| - 1].json + 1
  }

  lemma {:induction false} FillFits(rs: seq<Record>, take: nat)
    requires take <= |rs| && (take <= 1 || Bytes(rs[..take]) <= CHUNK_JSON_BUDGET)
    ensures var n := Fill(rs, take, Bytes(rs[..take])); n <= |rs| && (n <= 1 || Bytes(rs[..n]) <= CHUNK_JSON_BUDGET)
    decreases |rs| - take
  {
    var size := Bytes(rs[..take]);
    if take < |rs| && !(take > 0 && size + rs[take].json + 1 > CHUNK_JSON_BUDGET) {
      assert rs[..take + 1][..take] == rs[..take];
      FillFits(rs, take + 1);
    }
  }

  lemma {:induction false} FillStops(rs: seq<Record>, take: nat)
    requires take <= |rs|
    ensures var n := Fill(rs, take, Bytes(rs[..take]));
      n <= |rs| && (n < |rs| ==> Bytes(rs[..n + 1]) > CHUNK_JSON_BUDGET)
    decreases |rs| - take
  {
    var size := Bytes(rs[..take]);
    if take < |rs| {
      assert rs[..take + 1][..take] == rs[..take];
      if !(take > 0 && size + rs[take].json + 1 > CHUNK_JSON_BUDGET) { FillStops(rs, take + 1); }
    }
  }

  // ---- the cursor text ----

  lemma {:induction false} IndexAfter(a: Text, c: Scalar, b: Text)
    requires c !in a
    ensures IndexOf(a + [c] + b, c) == |a|
  {
    var s := a + [c] + b;
    if a != [] {
      assert s[1..] == a[1..] + [c] + b;
      IndexAfter(a[1..], c, b);
    }
  }

  /** A cursor is read back as the key it was written for, even if the id has a slash. */
  lemma CursorRoundTrip(k: Key)
    requires k.startedAt < 0x1_0000_0000_0000_0000
    ensures ParseCursor(CursorText(k)) == Some(k)
  {
    hide Digits, Value;
    var ds := Digits(k.startedAt);
    DigitsRoundTrip(k.startedAt);
    assert SLASH !in ds && ds[0] != 0x2B;
    IndexAfter(ds, SLASH, k.id);
    assert CursorText(k)[..|ds|] == ds && CursorText(k)[|ds| + 1..] == k.id;
  }

  // ---- sorting ----

  /** Every id is in the registry once; start times are the source's 64 bit numbers. */
  ghost predicate Registry(rs: seq<Record>) {
    && (forall i, j | 0 <= i < j < |rs| :: rs[i].key.id != rs[j].key.id)
    && (forall r | r in rs :: r.key.startedAt < 0x1_0000_0000_0000_0000)
  }

  lemma {:induction false} InsertSorts(r: Record, rs: seq<Record>)
    requires AscendingKeys(rs) && forall q | q in rs :: q.key != r.key
    ensures AscendingKeys(InsertRecord(r, rs))
    ensures forall q :: q in InsertRecord(r, rs) <==> q == r || q in rs
  {
    if rs == [] {
    } else if Less(r.key, rs[0].key) {
      forall q | q in rs ensures Less(r.key, q.key) {
        if q != rs[0] { Transitive(r.key, rs[0].key, q.key); }
      }
    } else {
      InsertSorts(r, rs[1..]);
      Total(r.key, rs[0].key);
      assert rs == [rs[0]] + rs[1..];
      forall q | q in InsertRecord(r, rs[1..]) ensures Less(rs[0].key, q.key) {}
    }
  }

  lemma {:induction false} ListedSorts(registry: seq<Record>, access: Access)
    requires Registry(registry)
    ensures AscendingKeys(Listed(registry, access))
    ensures forall r :: r in Listed(registry, access) <==> r in registry && Visible(r, access)
  {
    if registry != [] {
      ListedSorts(registry[1..], access);
      assert registry == [registry[0]] + registry[1..];
      if Visible(registry[0], access) { InsertSorts(registry[0], Listed(registry[1..], access)); }
    }
  }

  lemma {:induction false} BeyondKeeps(rs: seq<Record>, after: Option<Key>)
    requires AscendingKeys(rs)
    ensures AscendingKeys(Beyond(rs, after))
    ensures forall r :: r in Beyond(rs, after) <==> r in rs && (after.None? || Less(after.value, r.key))
  {
    if rs != [] {
      BeyondKeeps(rs[1..], after);
      assert rs == [rs[0]] + rs[1..];
    }
  }

  lemma {:induction false} SortedOnce(a: seq<Record>, b: seq<Record>)
    requires AscendingKeys(a) && AscendingKeys(b) && forall r :: r in a <==> r in b
    ensures a == b
  {
    if a == [] {
      NoMembers(b);
    } else {
      assert a[0] in b && b != [];
      FirstIsLeast(a, b);
      forall r ensures r in a[1..] <==> r in b[1..] {
        TailMembers(a, r);
        TailMembers(b, r);
      }
      SortedOnce(a[1..], b[1..]);
      assert a == [a[0]] + a[1..] && b == [b[0]] + b[1..];
    }
  }

  lemma NoMembers(rs: seq<Record>)
    ensures rs != [] ==> exists r :: r in rs
  {
    assert rs != [] ==> rs[0] in rs;
  }

  lemma FirstIsLeast(a: seq<Record>, b: seq<Record>)
    requires a != [] && b != [] && AscendingKeys(a) && AscendingKeys(b) && a[0] in b && b[0] in a
    ensures a[0] == b[0]
  {
    if a[0] != b[0] {
      assert Less(a[0].key, b[0].key);
      assert Less(b[0].key, a[0].key);
      Total(a[0].key, b[0].key);
    }
  }

  lemma TailMembers(a: seq<Record>, r: Record)
    requires a != [] && AscendingKeys(a)
    ensures r in a[1..] <==> r in a && r != a[0]
  {
    assert a == [a[0]] + a[1..];
    Total(a[0].key, a[0].key);
  }

  // ---- what a page promises ----

  function Key0(after: Option<Text>): Option<Key> {
    match after case Some(t) => ParseCursor(t) case None => None
  }

  predicate Past(after: Option<Key>, k: Key) {
    after.None? || Less(after.value, k)
  }

  /** A page holds, in order, exactly the visible records past the cursor and up to the next
      one; it fits the budget of 4 MiB less 64 KiB unless it is a single record; and it is empty
      only at the end. */
  lemma PageIs(registry: seq<Record>, access: Access, after: Option<Text>)
    requires Registry(registry) && (after.Some? ==> ParseCursor(after.value).Some?)
    ensures var p, k := HandleList(registry, access, true, after), Key0(after);
      && p.Page? && AscendingKeys(p.tasks)
      && (|p.tasks| <= 1 || Bytes(p.tasks) <= 4128768)
      && (p.next.None? ==> forall r :: r in p.tasks <==> r in registry && Visible(r, access) && Past(k, r.key))
      && (p.next.Some? ==>
            && p.tasks != [] && Key0(p.next) == Some(p.tasks[|p.tasks| - 1].key) && Past(k, Key0(p.next).value)
            && forall r :: r in p.tasks <==>
                 r in registry && Visible(r, access) && Past(k, r.key) && !Less(Key0(p.next).value, r.key))
  {
    hide ParseCursor, Listed, Beyond, Fill, Bytes, CursorText;
    var all := Listed(registry, access);
    ListedSorts(registry, access);
    var rs := Beyond(all, Key0(after));
    BeyondKeeps(all, Key0(after));
    FillBounds(rs, 0, 0);
    NoBytes(rs);
    FillFits(rs, 0);
    var take := Fill(rs, 0, 0);
    if take < |rs| {
      var last := rs[take - 1];
      assert last in rs && last in registry;
      CursorRoundTrip(last.key);
      forall r ensures r in rs[..take] <==> r in rs && !Less(last.key, r.key) { PrefixMembers(rs, take, r); }
    } else {
      assert rs[..take] == rs;
    }
  }

  /** `r` is the first visible record past `last`. */
  ghost predicate NextVisible(registry: seq<Record>, access: Access, last: Key, r: Record) {
    && r in registry && Visible(r, access) && Less(last, r.key)
    && forall q | q in registry && Visible(q, access) && Less(last, q.key) :: !Less(q.key, r.key)
  }

  /** No page ends early: with the record that comes next it would exceed the budget. */
  lemma PageIsFull(registry: seq<Record>, access: Access, after: Option<Text>)
    requires Registry(registry) && (after.Some? ==> ParseCursor(after.value).Some?)
    ensures var p := HandleList(registry, access, true, after);
      p.Page? && (p.next.Some? ==>
        && p.tasks != []
        && exists r :: NextVisible(registry, access, p.tasks[|p.tasks| - 1].key, r) && Bytes(p.tasks + [r]) > 4128768)
  {
    hide ParseCursor, Listed, Beyond, Fill, Bytes, CursorText, Visible;
    var all := Listed(registry, access);
    ListedSorts(registry, access);
    var rs := Beyond(all, Key0(after));
    BeyondKeeps(all, Key0(after));
    FillBounds(rs, 0, 0);
    NoBytes(rs);
    FillStops(rs, 0);
    var take := Fill(rs, 0, 0);
    if take < |rs| {
      var last, r := rs[take - 1].key, rs[take];
      assert r in rs && rs[..take] + [r] == rs[..take + 1];
      forall q | q in registry && Visible(q, access) && Less(last, q.key) ensures !Less(q.key, r.key) {
        NothingBetween(rs, take, q);
        if Key0(after).Some? {
          assert rs[take - 1] in rs;
          Transitive(Key0(after).value, last, q.key);
        }
      }
      assert NextVisible(registry, access, last, r);
    }
  }

  lemma NothingBetween(rs: seq<Record>, take: nat, q: Record)
    requires 0 < take < |rs| && AscendingKeys(rs)
    ensures q in rs && Less(rs[take - 1].key, q.key) ==> !Less(q.key, rs[take].key)
  {
    if q in rs {
      var i :| 0 <= i < |rs| && rs[i] == q;
      if i < take { Total(q.key, rs[take - 1].key); } else { Total(q.key, rs[take].key); }
    }
  }

  lemma NoBytes(rs: seq<Record>)
    ensures Bytes(rs[..0]) == 0
  {}

  lemma PrefixMembers(rs: seq<Record>, take: nat, r: Record)
    requires 0 < take <= |rs| && AscendingKeys(rs)
    ensures r in rs[..take] <==> r in rs && !Less(rs[take - 1].key, r.key)
  {
    if r in rs[..take] {
      var i :| 0 <= i < take && rs[i] == r;
      Total(r.key, rs[take - 1].key);
    } else if r in rs {
      var i :| 0 <= i < |rs| && rs[i] == r;
      assert i >= take;
    }
  }

  // ---- the client's loop, over a registry that may change between pages ----

  /** All the pages' records; `registries` is what each request found. */
  function Collected(registries: seq<seq<Record>>, access: Access, after: Option<Text>): seq<Record> {
    if registries == [] then []
    else
      match HandleList(registries[0], access, true, after)
      case BadCursor => []
      case Page(tasks, next) => tasks + if next.None? then [] else Collected(registries[1..], access, next)
  }

  /** The last of these requests had no `next`. */
  predicate Finished(registries: seq<seq<Record>>, access: Access, after: Option<Text>) {
    && registries != []
    && match HandleList(registries[0], access, true, after)
       case BadCursor => true
       case Page(_, next) => next.None? || Finished(registries[1..], access, next)
  }

  ghost predicate Throughout(registries: seq<seq<Record>>, access: Access, k: Key) {
    forall i | 0 <= i < |registries| :: Holds(registries[i], access, k)
  }

  ghost predicate Holds(registry: seq<Record>, access: Access, k: Key) {
    exists r :: r in registry && r.key == k && Visible(r, access)
  }

  ghost predicate Registries(registries: seq<seq<Record>>) {
    forall i | 0 <= i < |registries| :: Registry(registries[i])
  }

  ghost predicate Seen(registries: seq<seq<Record>>, access: Access, r: Record) {
    exists i :: 0 <= i < |registries| && r in registries[i] && Visible(r, access)
  }

  ghost predicate HasKey(rs: seq<Record>, k: Key) {
    exists r :: r in rs && r.key == k
  }

  /** Strictly ascending; only records that were there when asked for; and, once the last page
      came, every record past the cursor that was there all along. */
  ghost predicate Robust(all: seq<Record>, registries: seq<seq<Record>>, access: Access, after: Option<Text>) {
    && AscendingKeys(all)
    && (forall r | r in all :: Past(Key0(after), r.key) && Seen(registries, access, r))
    && (Finished(registries, access, after) ==>
          forall k | Throughout(registries, access, k) && Past(Key0(after), k) :: HasKey(all, k))
  }

  /** Whatever is inserted or removed between pages, what is collected is robust. */
  lemma {:induction false} PagesAreRobust(registries: seq<seq<Record>>, access: Access, after: Option<Text>)
    requires Registries(registries) && (after.Some? ==> ParseCursor(after.value).Some?)
    ensures Robust(Collected(registries, access, after), registries, access, after)
  {
    hide HandleList, ParseCursor, Past;
    if registries != [] {
      var p := HandleList(registries[0], access, true, after);
      PageIs(registries[0], access, after);
      if p.next.Some? {
        PagesAreRobust(registries[1..], access, p.next);
        PageThenRest(registries, access, after);
      } else {
        assert p.tasks + [] == p.tasks;
        forall k | Throughout(registries, access, k) && Past(Key0(after), k) ensures HasKey(p.tasks, k) {
          assert Holds(registries[0], access, k);
          var r :| r in registries[0] && r.key == k && Visible(r, access);
          assert r in p.tasks;
        }
        forall r | r in p.tasks ensures Seen(registries, access, r) { assert r in registries[0]; }
      }
    }
  }

  /** The first page before the rest. */
  lemma PageThenRest(registries: seq<seq<Record>>, access: Access, after: Option<Text>)
    requires registries != [] && Registries(registries) && (after.Some? ==> ParseCursor(after.value).Some?)
    requires var p := HandleList(registries[0], access, true, after);
      && p.Page? && p.next.Some?
      && Robust(Collected(registries[1..], access, p.next), registries[1..], access, p.next)
    ensures Robust(Collected(registries, access, after), registries, access, after)
  {
    hide HandleList, ParseCursor;
    var p := HandleList(registries[0], access, true, after);
    var rest := Collected(registries[1..], access, p.next);
    var all := p.tasks + rest;
    PageIs(registries[0], access, after);
    var last := Key0(p.next).value;
    forall i, j | 0 <= i < j < |all| ensures Less(all[i].key, all[j].key) {
      if i < |p.tasks| && j >= |p.tasks| {
        assert all[i] in p.tasks && all[j] in rest;
        AtMostThenLess(all[i].key, last, all[j].key);
      }
    }
    forall r | r in all ensures Past(Key0(after), r.key) && Seen(registries, access, r) {
      if r in p.tasks {
        assert r in registries[0];
      } else {
        assert r in rest;
        var i :| 0 <= i < |registries[1..]| && r in registries[1..][i] && Visible(r, access);
        assert r in registries[i + 1];
        if Key0(after).Some? { Transitive(Key0(after).value, last, r.key); }
      }
    }
    if Finished(registries, access, after) {
      forall k | Throughout(registries, access, k) && Past(Key0(after), k) ensures HasKey(all, k) {
        if Less(last, k) {
          ThroughoutRest(registries, access, k);
          assert HasKey(rest, k);
          var r :| r in rest && r.key == k;
          assert r in all;
        } else {
          assert Holds(registries[0], access, k);
          var r :| r in registries[0] && r.key == k && Visible(r, access);
          assert r in all;
        }
      }
    }
  }

  lemma AtMostThenLess(a: Key, b: Key, c: Key)
    requires !Less(b, a) && Less(b, c)
    ensures Less(a, c)
  {
    Total(a, b);
    if a != b { Transitive(a, b, c); }
  }

  lemma ThroughoutRest(registries: seq<seq<Record>>, access: Access, k: Key)
    requires registries != [] && Throughout(registries, access, k)
    ensures Throughout(registries[1..], access, k)
  {
    forall i | 0 <= i < |registries[1..]| ensures Holds(registries[1..][i], access, k) {
      assert registries[1..][i] == registries[i + 1];
    }
  }

  // ---- a registry that does not change ----

  function Same(registry: seq<Record>, n: nat): seq<seq<Record>> {
    seq(n, i requires 0 <= i < n => registry)
  }

  /** Every page but the last takes at least one record, so the loop ends. */
  lemma {:induction false} PagesEnd(registry: seq<Record>, access: Access, after: Option<Text>, n: nat)
    requires Registry(registry) && (after.Some? ==> ParseCursor(after.value).Some?)
    requires n > |Beyond(Listed(registry, access), Key0(after))|
    ensures Finished(Same(registry, n), access, after)
    decreases n
  {
    hide HandleList, ParseCursor, Beyond, Listed;
    var p := HandleList(registry, access, true, after);
    PageIs(registry, access, after);
    assert Same(registry, n)[1..] == Same(registry, n - 1);
    if p.next.Some? {
      var all := Listed(registry, access);
      ListedSorts(registry, access);
      BeyondKeeps(all, Key0(after));
      BeyondKeeps(all, Key0(p.next));
      var last := p.tasks[|p.tasks| - 1];
      assert last in p.tasks;
      Total(last.key, last.key);
      forall r | r in all && Past(Key0(p.next), r.key) ensures Past(Key0(after), r.key) {
        if after.Some? { Transitive(Key0(after).value, last.key, r.key); }
      }
      BeyondShrinks(all, Key0(after), Key0(p.next), last);
      PagesEnd(registry, access, p.next, n - 1);
    }
  }

  /** A later cursor leaves less to come. */
  lemma {:induction false} BeyondShrinks(rs: seq<Record>, a: Option<Key>, b: Option<Key>, last: Record)
    requires forall r | r in rs && Past(b, r.key) :: Past(a, r.key)
    ensures |Beyond(rs, b)| <= |Beyond(rs, a)|
    ensures last in rs && Past(a, last.key) && !Past(b, last.key) ==> |Beyond(rs, b)| < |Beyond(rs, a)|
  {
    hide Less;
    if rs != [] {
      BeyondShrinks(rs[1..], a, b, last);
      assert rs == [rs[0]] + rs[1..];
    }
  }

  predicate Sees(access: Access, session: Text) {
    access == Extension(session) || access == Cli(Some(session)) || access == Cli(None)
  }

  /** The list holds the records of an extension's own session, or of the session asked for, or
      all, oldest first. */
  lemma ListedIs(registry: seq<Record>, access: Access)
    requires Registry(registry)
    ensures forall r :: r in Listed(registry, access) <==> r in registry && Sees(access, r.session)
    ensures var list := Listed(registry, access);
      forall i, j | 0 <= i < j < |list| :: list[i].key.startedAt <= list[j].key.startedAt
  {
    hide Listed, TextLess;
    ListedSorts(registry, access);
    forall r ensures r in Listed(registry, access) <==> r in registry && Sees(access, r.session) {}
  }

  /** With a registry that stays as it is, the pages are exactly the sorted list. */
  lemma PagesAreOneList(registry: seq<Record>, access: Access, n: nat)
    requires Registry(registry) && n > |Listed(registry, access)|
    ensures Finished(Same(registry, n), access, None)
    ensures Collected(Same(registry, n), access, None) == Listed(registry, access)
  {
    hide HandleList, Listed;
    var all := Collected(Same(registry, n), access, None);
    ListedSorts(registry, access);
    BeyondNothing(Listed(registry, access));
    PagesEnd(registry, access, None, n);
    PagesAreRobust(Same(registry, n), access, None);
    forall r ensures r in all <==> r in Listed(registry, access) {
      if r in registry && Visible(r, access) {
        assert Throughout(Same(registry, n), access, r.key);
        assert HasKey(all, r.key);
        var q :| q in all && q.key == r.key;
        SameKeySame(registry, q, r);
      }
    }
    SortedOnce(all, Listed(registry, access));
  }

  lemma SameKeySame(registry: seq<Record>, a: Record, b: Record)
    requires Registry(registry) && a in registry && b in registry && a.key == b.key
    ensures a == b
  {
    var i :| 0 <= i < |registry| && registry[i] == a;
    var j :| 0 <= j < |registry| && registry[j] == b;
  }

  lemma {:induction false} BeyondNothing(rs: seq<Record>)
    ensures Beyond(rs, None) == rs
  {
    if rs != [] { BeyondNothing(rs[1..]); }
  }

  // ---- the loops ----

  /** The page loop of `handle_list`. */
  method FillPage(tasks: seq<Record>) returns (take: nat)
    ensures take == Fill(tasks, 0, 0)
  {
    var size: nat := 0;
    take := 0;
    while take < |tasks|
      invariant take <= |tasks| && Fill(tasks, take, size) == Fill(tasks, 0, 0)
    {
      var n := tasks[take].json + 1;
      if take > 0 && size + n > CHUNK_JSON_BUDGET {
        break;
      }
      size := size + n;
      take := take + 1;
    }
  }

  /** `list_tasks`, up to as many requests as there are registries to answer them. */
  method ListTasks(registries: seq<seq<Record>>, access: Access) returns (tasks: seq<Record>, done: bool)
    ensures tasks == Collected(registries, access, None)
    ensures done == Finished(registries, access, None)
  {
    hide HandleList, Collected, Finished;
    tasks := [];
    done := false;
    var after: Option<Text> := None;
    var k := 0;
    assert registries[0..] == registries;
    while k < |registries|
      invariant 0 <= k <= |registries| && !done
      invariant tasks + Collected(registries[k..], access, after) == Collected(registries, access, None)
      invariant Finished(registries[k..], access, after) == Finished(registries, access, None)
    {
      assert registries[k..][1..] == registries[k + 1..];
      CollectedIs(registries[k..], access, after);
      match HandleList(registries[k], access, true, after) {
        case BadCursor => return tasks, true;
        case Page(page, next) =>
          tasks := tasks + page;
          if next.None? {
            done := true;
            return;
          }
          after := next;
      }
      k := k + 1;
    }
    NothingCollected(registries[k..], access, after);
  }

  lemma CollectedIs(registries: seq<seq<Record>>, access: Access, after: Option<Text>)
    requires registries != []
    ensures var p := HandleList(registries[0], access, true, after);
      if p.BadCursor? then Collected(registries, access, after) == [] && Finished(registries, access, after)
      else if p.next.None? then Collected(registries, access, after) == p.tasks && Finished(registries, access, after)
      else
        && Collected(registries, access, after) == p.tasks + Collected(registries[1..], access, p.next)
        && Finished(registries, access, after) == Finished(registries[1..], access, p.next)
  {
    hide HandleList;
    var p := HandleList(registries[0], access, true, after);
    if p.Page? { assert p.tasks + [] == p.tasks; }
  }

  lemma NothingCollected(registries: seq<seq<Record>>, access: Access, after: Option<Text>)
    requires registries == []
    ensures Collected(registries, access, after) == [] && !Finished(registries, access, after)
  {}
}
