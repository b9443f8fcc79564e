/** Start keys: what makes a start that a client sends again after a lost connection find the
    task it already started. `handle_start` of manager/src/daemon.rs, taken as one step. */
module StartKeys {
  import opened Options

  const START_KEYS_MAX := 512

  /** The session and the client's key, joined by a NUL. */
  function Want(session: string, key: string): string {
    session + "\U{0}" + key
  }

  /** `tasks` maps a task to its pid; `startKeys` lists what keyed starts started, newest last. */
  datatype Keys = Keys(tasks: map<string, nat>, startKeys: seq<(string, string)>)

  datatype Answer = Started(task: string, pid: nat) | Refused

  /** What became of spawning the command, were it tried: `task` is a fresh id. */
  datatype Spawn = Spawned(task: string, pid: nat) | Failed

  datatype Step =
    | Start(want: Option<string>, spawn: Spawn)
    | Remove(task: string)

  /** The newest task started with this key. */
  function Find(keys: seq<(string, string)>, want: string): Option<string>
    decreases |keys|
  {
    if keys == [] then None
    else if keys[|keys| - 1].0 == want then Some(keys[|keys| - 1].1)
    else Find(keys[..|keys| - 1], want)
  }

  function Remember(keys: seq<(string, string)>, want: string, task: string): seq<(string, string)> {
    var longer := keys + [(want, task)];
    if |longer| > START_KEYS_MAX then longer[|longer| - START_KEYS_MAX..] else longer
  }

  function Prior(d: Keys, want: Option<string>): Option<string> {
    if want.None? then None
    else
      match Find(d.startKeys, want.value)
      case Some(t) => if t in d.tasks then Some(t) else None
      case None => None
  }

  function Respond(d: Keys, want: Option<string>, spawn: Spawn): Answer {
    match Prior(d, want)
    case Some(t) => if t in d.tasks then Started(t, d.tasks[t]) else Refused
    case None => match spawn case Spawned(t, pid) => Started(t, pid) case Failed => Refused
  }

  /** Whether the step makes a task under a key. */
  predicate KeyedCreation(d: Keys, step: Step) {
    step.Start? && step.want.Some? && Prior(d, step.want).None? && step.spawn.Spawned?
  }

  function Do(d: Keys, step: Step): Keys {
    match step
    case Start(want, spawn) =>
      if Prior(d, want).Some? || spawn.Failed? then d
      else Keys(d.tasks[spawn.task := spawn.pid],
                if want.Some? then Remember(d.startKeys, want.value, spawn.task) else d.startKeys)
    case Remove(task) => d.(tasks := d.tasks - {task})
  }

  ghost predicate Run(ds: seq<Keys>, steps: seq<Step>) {
    && |ds| == |steps| + 1 && |ds[0].startKeys| <= 512
    && forall i | 0 <= i < |steps| ::
         && ds[i + 1] == Do(ds[i], steps[i])
         && (steps[i].Start? && steps[i].spawn.Spawned? ==> steps[i].spawn.task !in ds[i].tasks)
  }

  /** Tasks made under a key by steps i to j. */
  ghost function Created(ds: seq<Keys>, steps: seq<Step>, i: nat, j: nat): nat
    requires i <= j <= |steps| < |ds|
    decreases j - i
  {
    if i == j then 0 else Created(ds, steps, i, j - 1) + if KeyedCreation(ds[j - 1], steps[j - 1]) then 1 else 0
  }

  /** How many entries are newer than the newest one with this key; the length if there is none. */
  function Age(keys: seq<(string, string)>, want: string): (n: nat)
    ensures n <= |keys|
    ensures n < |keys| ==> keys[|keys| - 1 - n].0 == want && Find(keys, want) == Some(keys[|keys| - 1 - n].1)
    ensures n == |keys| <==> Find(keys, want) == None
    decreases |keys|
  {
    if keys == [] || keys[|keys| - 1].0 == want then 0 else 1 + Age(keys[..|keys| - 1], want)
  }

  /** A slice keeps the newest entry if it reaches back that far. */
  lemma {:induction false} AgeOfSuffix(keys: seq<(string, string)>, want: string, k: nat)
    requires k <= |keys|
    ensures Age(keys[k..], want) == if Age(keys, want) <= |keys| - k then Age(keys, want) else |keys| - k
    decreases |keys|
  {
    if k < |keys| && keys[|keys| - 1].0 != want {
      AgeOfSuffix(keys[..|keys| - 1], want, k);
      assert keys[k..][..|keys| - 1 - k] == keys[..|keys| - 1][k..];
    }
  }

  /** Remembering a key makes it the newest, ages every other, and forgets what is 512 old. */
  lemma RememberAges(keys: seq<(string, string)>, want: string, task: string, other: string)
    requires |keys| <= 512
    ensures var r := Remember(keys, want, task);
      && |r| <= 512 && Find(r, want) == Some(task) && Age(r, want) == 0
      && (other != want ==> Find(r, other) == if Age(keys, other) + 1 < 512 then Find(keys, other) else None)
      && (other != want && Find(r, other).Some? ==> Age(r, other) == Age(keys, other) + 1)
  {
    var longer := keys + [(want, task)];
    assert longer[..|keys|] == keys;
    if |longer| > START_KEYS_MAX {
      AgeOfSuffix(longer, want, 1);
      AgeOfSuffix(longer, other, 1);
    }
  }

  lemma {:induction false} Bounded(ds: seq<Keys>, steps: seq<Step>, i: nat)
    requires Run(ds, steps) && i <= |steps|
    ensures |ds[i].startKeys| <= 512
  {
    if i > 0 {
      Bounded(ds, steps, i - 1);
      assert ds[i - 1 + 1] == Do(ds[i - 1], steps[i - 1]);
    }
  }

  ghost predicate StartOf(step: Step, want: string) {
    step.Start? && step.want == Some(want)
  }

  ghost predicate Retained(ds: seq<Keys>, i: nat, j: nat, task: string) {
    forall m | i <= m <= j && m < |ds| :: task in ds[m].tasks
  }

  /** A key is known for exactly the next 511 tasks made under other keys. */
  lemma {:induction false} KeyLifetime(ds: seq<Keys>, steps: seq<Step>, i: nat, j: nat, want: string)
    requires Run(ds, steps) && i < j <= |steps|
    requires StartOf(steps[i], want) && KeyedCreation(ds[i], steps[i])
    requires forall m | i < m < j :: !StartOf(steps[m], want)
    ensures Find(ds[j].startKeys, want) ==
            if Created(ds, steps, i + 1, j) < 512 then Some(steps[i].spawn.task) else None
    ensures Find(ds[j].startKeys, want).Some? ==> Age(ds[j].startKeys, want) == Created(ds, steps, i + 1, j)
    decreases j - i
  {
    hide Age, Find, Remember;
    var d, step := ds[j - 1], steps[j - 1];
    assert ds[j - 1 + 1] == Do(d, step);
    Bounded(ds, steps, j - 1);
    if j == i + 1 {
      RememberAges(d.startKeys, want, step.spawn.task, want);
    } else {
      KeyLifetime(ds, steps, i, j - 1, want);
      if KeyedCreation(d, step) {
        RememberAges(d.startKeys, step.want.value, step.spawn.task, want);
        NotFoundAge(d.startKeys, want);
      }
    }
  }

  lemma NotFoundAge(keys: seq<(string, string)>, want: string)
    ensures Find(keys, want) == None ==> Age(keys, want) == |keys|
    ensures Find(keys, want).Some? ==> Age(keys, want) < |keys|
  {}

  /** A start sent again with its key, any number of times, starts nothing more and is answered
      with the task it started, while that task is kept and fewer than 512 tasks were made
      under keys since. */
  lemma {:induction false} StartsAtMostOnce(ds: seq<Keys>, steps: seq<Step>, i: nat, j: nat, want: string)
    requires Run(ds, steps) && i < j < |steps|
    requires StartOf(steps[i], want) && KeyedCreation(ds[i], steps[i]) && StartOf(steps[j], want)
    requires Retained(ds, i + 1, j, steps[i].spawn.task) && Created(ds, steps, i + 1, j) < 512
    ensures ds[j + 1] == ds[j] && !KeyedCreation(ds[j], steps[j])
    ensures var task := steps[i].spawn.task;
      Respond(ds[j], steps[j].want, steps[j].spawn) == Started(task, ds[j].tasks[task])
  {
    StillKnown(ds, steps, i, j, want);
  }

  lemma {:induction false} StillKnown(ds: seq<Keys>, steps: seq<Step>, i: nat, j: nat, want: string)
    requires Run(ds, steps) && i < j <= |steps|
    requires StartOf(steps[i], want) && KeyedCreation(ds[i], steps[i])
    requires Retained(ds, i + 1, j, steps[i].spawn.task) && Created(ds, steps, i + 1, j) < 512
    ensures Find(ds[j].startKeys, want) == Some(steps[i].spawn.task)
    ensures Age(ds[j].startKeys, want) == Created(ds, steps, i + 1, j)
    decreases j - i
  {
    hide Age, Find, Remember;
    var d, step := ds[j - 1], steps[j - 1];
    assert ds[j - 1 + 1] == Do(d, step);
    Bounded(ds, steps, j - 1);
    if j == i + 1 {
      RememberAges(d.startKeys, want, step.spawn.task, want);
    } else {
      StillKnown(ds, steps, i, j - 1, want);
      if KeyedCreation(d, step) {
        RememberAges(d.startKeys, step.want.value, step.spawn.task, want);
      }
    }
  }

  /** A start under a key starts its command if and only if the key is not known, or its task is no
      longer kept; it then knows the key for the new task. */
  lemma StartsAnewIff(d: Keys, want: string, task: string, pid: nat)
    requires |d.startKeys| <= 512 && task !in d.tasks
    ensures var step, known := Start(Some(want), Spawned(task, pid)), Find(d.startKeys, want);
      if known.Some? && known.value in d.tasks then
        Do(d, step) == d && Respond(d, step.want, step.spawn) == Started(known.value, d.tasks[known.value])
      else
        && Do(d, step).tasks == d.tasks[task := pid] && Find(Do(d, step).startKeys, want) == Some(task)
        && Respond(d, step.want, step.spawn) == Started(task, pid)
  {
    hide Find, Remember, Age;
    RememberAges(d.startKeys, want, task, want);
  }

  /** Two sessions never share a key, as no session id holds a NUL. */
  lemma WantsAreApart(session: string, key: string, session': string, key': string)
    requires '\U{0}' !in session && '\U{0}' !in session'
    ensures Want(session, key) == Want(session', key') <==> session == session' && key == key'
  {
    var w, w' := Want(session, key), Want(session', key');
    if w == w' {
      FirstNul(session, key);
      FirstNul(session', key');
      assert |session| == |session'|;
      assert session == w[..|session|] && session' == w'[..|session|];
      assert key == w[|session| + 1..] && key' == w'[|session| + 1..];
    }
  }

  lemma FirstNul(session: string, key: string)
    requires '\U{0}' !in session
    ensures var w := Want(session, key);
      w[|session|] == '\U{0}' && forall i | 0 <= i < |session| :: w[i] != '\U{0}'
  {}

  class StartTable {
    var tasks: map<string, nat>
    var startKeys: seq<(string, string)>

    function View(): Keys
      reads this
    {
      Keys(tasks, startKeys)
    }

    /** `handle_start`, from the key check to the reply. */
    method HandleStart(want: Option<string>, spawn: Spawn) returns (answer: Answer)
      requires |startKeys| <= 512
      modifies this
      ensures View() == Do(old(View()), Start(want, spawn))
      ensures answer == Respond(old(View()), want, spawn)
      ensures |startKeys| <= 512
    {
      if want.Some? {
        var prior := FindNewest(startKeys, want.value);
        if prior.Some? && prior.value in tasks {
          return Started(prior.value, tasks[prior.value]);
        }
      }
      if spawn.Failed? {
        return Refused;
      }
      tasks := tasks[spawn.task := spawn.pid];
      if want.Some? {
        startKeys := Evicted(startKeys + [(want.value, spawn.task)]);
      }
      return Started(spawn.task, spawn.pid);
    }
  }

  /** The oldest are dropped until 512 are left. */
  method Evicted(keys: seq<(string, string)>) returns (kept: seq<(string, string)>)
    ensures kept == if |keys| > START_KEYS_MAX then keys[|keys| - START_KEYS_MAX..] else keys
  {
    kept := keys;
    ghost var gone := 0;
    while |kept| > START_KEYS_MAX
      invariant gone <= |keys| && kept == keys[gone..] && (gone == 0 || |kept| >= START_KEYS_MAX)
      decreases |kept|
    {
      kept := kept[1..];
      gone := gone + 1;
    }
  }

  /** Newest first. */
  method FindNewest(keys: seq<(string, string)>, want: string) returns (task: Option<string>)
    ensures task == Find(keys, want)
  {
    var k := |keys|;
    assert keys[..k] == keys;
    while k > 0
      invariant 0 <= k <= |keys| && Find(keys[..k], want) == Find(keys, want)
    {
      assert keys[..k][..k - 1] == keys[..k - 1];
      if keys[k - 1].0 == want { return Some(keys[k - 1].1); }
      k := k - 1;
    }
    assert keys[..0] == [];
    return None;
  }
}
