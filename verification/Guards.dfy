/** Per-filter locks of the subscription protocol, acquired in sorted order by concurrent tasks. */
module Guards {
  import opened Util

  type TaskId = nat

  // String order: code points, lexicographically.

  function Codes(s: string): seq<int> { seq(|s|, i requires 0 <= i < |s| => s[i] as int) }

  predicate Less(a: string, b: string) { LexLess(Codes(a), Codes(b)) }

  lemma CodesDetermine(a: string, b: string)
    requires Codes(a) == Codes(b)
    ensures a == b
  {
    assert |a| == |Codes(a)| == |Codes(b)| == |b|;
    forall i | 0 <= i < |a|
      ensures a[i] == b[i]
    {
      assert Codes(a)[i] == Codes(b)[i];
    }
  }

  lemma Trichotomy(a: string, b: string)
    ensures a == b || Less(a, b) || Less(b, a)
    ensures !(Less(a, b) && Less(b, a)) && !Less(a, a)
  {
    LexTrichotomy(Codes(a), Codes(b));
    LexTrichotomy(Codes(a), Codes(a));
    if Codes(a) == Codes(b) {
      CodesDetermine(a, b);
    }
  }

  lemma Transitive(a: string, b: string, c: string)
    requires Less(a, b) && Less(b, c)
    ensures Less(a, c)
  {
    LexTransitive(Codes(a), Codes(b), Codes(c));
  }

  // `sorted(set(filters))`.

  ghost predicate Ascending(s: seq<string>) {
    forall i, j :: 0 <= i < j < |s| ==> Less(s[i], s[j])
  }

  function Insert(x: string, s: seq<string>): seq<string> {
    if s == [] then [x]
    else if x == s[0] then s
    else if Less(x, s[0]) then [x] + s
    else [s[0]] + Insert(x, s[1..])
  }

  function SortedDistinct(filters: seq<string>): seq<string> {
    if filters == [] then [] else Insert(filters[0], SortedDistinct(filters[1..]))
  }

  lemma {:induction false} InsertSorts(x: string, s: seq<string>)
    requires Ascending(s)
    ensures Ascending(Insert(x, s))
    ensures forall y :: y in Insert(x, s) <==> y == x || y in s
  {
    if s != [] {
      Trichotomy(x, s[0]);
      assert s == [s[0]] + s[1..];
      if Less(x, s[0]) {
        forall j | 0 <= j < |s|
          ensures Less(x, s[j])
        {
          if j > 0 {
            Transitive(x, s[0], s[j]);
          }
        }
      } else if x != s[0] {
        InsertSorts(x, s[1..]);
        var t := Insert(x, s[1..]);
        forall j | 0 <= j < |t|
          ensures Less(s[0], t[j])
        {
          assert t[j] in t;
          if t[j] != x {
            var k :| 0 <= k < |s[1..]| && s[1..][k] == t[j];
            assert s[k + 1] == t[j];
          }
        }
      }
    }
  }

  lemma {:induction false} SortedDistinctIsRight(filters: seq<string>)
    ensures Ascending(SortedDistinct(filters))
    ensures forall y :: y in SortedDistinct(filters) <==> y in filters
  {
    if filters != [] {
      SortedDistinctIsRight(filters[1..]);
      InsertSorts(filters[0], SortedDistinct(filters[1..]));
      assert filters == [filters[0]] + filters[1..];
    }
  }

  // The state as a value: what each guard says, and how far each task inside `hold` has come.

  datatype Lock = Lock(users: int, holder: Option<TaskId>)

  /** A task inside `hold`: its filters in acquisition order, and how many of their locks it has. */
  datatype Hold = Hold(filters: seq<string>, acquired: nat)

  datatype View = View(locks: map<string, Lock>, holds: map<TaskId, Hold>)

  ghost predicate WellFormed(h: Hold) {
    Ascending(h.filters) && h.acquired <= |h.filters|
  }

  predicate Waiting(h: Hold) { h.acquired < |h.filters| }

  ghost predicate Holds(h: Hold, f: string)
    requires h.acquired <= |h.filters|
  {
    f in h.filters[..h.acquired]
  }

  function Referrers(holds: map<TaskId, Hold>, f: string): set<TaskId> {
    set t | t in holds && f in holds[t].filters
  }

  ghost predicate FramesOk(v: View) {
    && (forall t :: t in v.holds ==> WellFormed(v.holds[t]))
    && (forall t, f :: t in v.holds && f in v.holds[t].filters ==> f in v.locks)
  }

  /** `users` counts the tasks that refer to the guard. */
  ghost predicate UsersCounted(v: View) {
    forall f :: f in v.locks ==> v.locks[f].users == |Referrers(v.holds, f)| && v.locks[f].users > 0
  }

  ghost predicate HoldersKnown(v: View)
    requires FramesOk(v)
  {
    forall f, t :: f in v.locks ==> (v.locks[f].holder == Some(t) <==> t in v.holds && Holds(v.holds[t], f))
  }

  ghost predicate Sound(v: View) {
    FramesOk(v) && UsersCounted(v) && HoldersKnown(v)
  }

  /** Two tasks never hold the same filter at once. */
  lemma MutualExclusion(v: View, t: TaskId, u: TaskId, f: string)
    requires Sound(v) && t in v.holds && u in v.holds && Holds(v.holds[t], f) && Holds(v.holds[u], f)
    ensures t == u
  {
    assert f in v.holds[t].filters;
    assert v.locks[f].holder == Some(t) && v.locks[f].holder == Some(u);
  }

  /** Nothing is left behind once no task is inside. */
  lemma EmptyWhenUnused(v: View)
    requires Sound(v) && v.holds == map[]
    ensures v.locks == map[]
  {
    forall f: string
      ensures Referrers(v.holds, f) == {}
    {
    }
  }

  function Next(h: Hold): string
    requires Waiting(h)
  {
    h.filters[h.acquired]
  }

  /** Among tasks that all wait, one waits for a greatest filter. */
  lemma {:induction false} GreatestNext(holds: map<TaskId, Hold>, tasks: set<TaskId>) returns (g: TaskId)
    requires tasks != {} && forall t :: t in tasks ==> t in holds && Waiting(holds[t])
    ensures g in tasks
    ensures forall t :: t in tasks ==> !Less(Next(holds[g]), Next(holds[t]))
    decreases |tasks|
  {
    var t :| t in tasks;
    Trichotomy(Next(holds[t]), Next(holds[t]));
    if tasks == {t} {
      g := t;
    } else {
      var rest := tasks - {t};
      var r := GreatestNext(holds, rest);
      g := if Less(Next(holds[r]), Next(holds[t])) then t else r;
      forall u | u in tasks
        ensures !Less(Next(holds[g]), Next(holds[u]))
      {
        Trichotomy(Next(holds[r]), Next(holds[t]));
        if u != t && g == t && Less(Next(holds[t]), Next(holds[u])) {
          Transitive(Next(holds[r]), Next(holds[t]), Next(holds[u]));
        }
      }
    }
  }

  /** Sorted acquisition: what a task holds comes before what it waits for. */
  lemma HeldBelowNext(h: Hold, f: string)
    requires WellFormed(h) && Waiting(h) && Holds(h, f)
    ensures Less(f, Next(h))
  {
    var i :| 0 <= i < h.acquired && h.filters[..h.acquired][i] == f;
    assert Less(h.filters[i], h.filters[h.acquired]);
  }

  /** What stands in the way of task `t`: nothing, or a task that has all its locks. */
  ghost predicate CanProceed(v: View, t: TaskId)
    requires t in v.holds && Waiting(v.holds[t])
  {
    var f := Next(v.holds[t]);
    f in v.locks &&
    match v.locks[f].holder
    case None => true
    case Some(u) => u in v.holds && !Waiting(v.holds[u])
  }

  /** No deadlock: whenever tasks wait, the next lock of one of them is free or held by a task in its body. */
  lemma NoDeadlock(v: View)
    requires Sound(v) && exists t :: t in v.holds && Waiting(v.holds[t])
    ensures exists t :: t in v.holds && Waiting(v.holds[t]) && CanProceed(v, t)
  {
    var some :| some in v.holds && Waiting(v.holds[some]);
    var waiting := set t | t in v.holds && Waiting(v.holds[t]);
    assert some in waiting;
    var g := GreatestNext(v.holds, waiting);
    var f := Next(v.holds[g]);
    assert f in v.holds[g].filters;
    if v.locks[f].holder.Some? {
      var u := v.locks[f].holder.value;
      assert u in v.holds && Holds(v.holds[u], f);
      if Waiting(v.holds[u]) {
        assert u in waiting;
        HeldBelowNext(v.holds[u], f);
      }
    }
    assert CanProceed(v, g);
  }

  // One step each.

  function Enlisted(locks: map<string, Lock>, filters: seq<string>): map<string, Lock> {
    map f | f in locks.Keys + (set g | g in filters) ::
      if f !in filters then locks[f]
      else if f in locks then locks[f].(users := locks[f].users + 1)
      else Lock(1, None)
  }

  lemma ReferrersGrow(holds: map<TaskId, Hold>, t: TaskId, h: Hold, f: string)
    requires t !in holds
    ensures |Referrers(holds[t := h], f)| == |Referrers(holds, f)| + if f in h.filters then 1 else 0
  {
    assert Referrers(holds[t := h], f) == Referrers(holds, f) + if f in h.filters then {t} else {};
  }

  lemma Entered(v: View, t: TaskId, filters: seq<string>)
    requires Sound(v) && t !in v.holds && Ascending(filters)
    ensures Sound(View(Enlisted(v.locks, filters), v.holds[t := Hold(filters, 0)]))
  {
    var h := Hold(filters, 0);
    var w := View(Enlisted(v.locks, filters), v.holds[t := h]);
    forall f | f in w.locks
      ensures w.locks[f].users == |Referrers(w.holds, f)| && w.locks[f].users > 0
    {
      ReferrersGrow(v.holds, t, h, f);
      if f !in v.locks {
        assert Referrers(v.holds, f) == {};
      }
    }
    forall f, u | f in w.locks
      ensures w.locks[f].holder == Some(u) <==> u in w.holds && Holds(w.holds[u], f)
    {
      if f !in v.locks && u in v.holds {
        assert f !in v.holds[u].filters;
      }
    }
  }

  lemma SameReferrers(holds: map<TaskId, Hold>, t: TaskId, h: Hold, f: string)
    requires t in holds && holds[t].filters == h.filters
    ensures Referrers(holds[t := h], f) == Referrers(holds, f)
  {
  }

  lemma Acquired(v: View, t: TaskId)
    requires Sound(v) && t in v.holds && Waiting(v.holds[t])
    requires v.locks[Next(v.holds[t])].holder == None
    ensures var h := v.holds[t]; var f := Next(h);
            Sound(View(v.locks[f := v.locks[f].(holder := Some(t))], v.holds[t := h.(acquired := h.acquired + 1)]))
  {
    var h := v.holds[t];
    var next := Next(h);
    assert next in h.filters;
    var after := h.(acquired := h.acquired + 1);
    assert h.filters[..h.acquired + 1] == h.filters[..h.acquired] + [next];
    var w := View(v.locks[next := v.locks[next].(holder := Some(t))], v.holds[t := after]);
    forall f | f in w.locks
      ensures w.locks[f].users == |Referrers(w.holds, f)| && w.locks[f].users > 0
    {
      SameReferrers(v.holds, t, after, f);
    }
    forall f, u | f in w.locks
      ensures w.locks[f].holder == Some(u) <==> u in w.holds && Holds(w.holds[u], f)
    {
      assert v.locks[f].holder == Some(u) <==> u in v.holds && Holds(v.holds[u], f);
    }
  }

  /** The locks after a task with hold `h` has released what it holds and dropped its references. */
  function Released(locks: map<string, Lock>, h: Hold): map<string, Lock>
    requires h.acquired <= |h.filters|
  {
    map f | f in locks && !(f in h.filters && locks[f].users == 1) ::
      if f !in h.filters then locks[f]
      else Lock(locks[f].users - 1, if f in h.filters[..h.acquired] then None else locks[f].holder)
  }

  lemma ReferrersShrink(holds: map<TaskId, Hold>, t: TaskId, f: string)
    requires t in holds
    ensures |Referrers(holds - {t}, f)| == |Referrers(holds, f)| - if f in holds[t].filters then 1 else 0
  {
    assert Referrers(holds - {t}, f) == Referrers(holds, f) - {t};
  }

  /** Guards still referred to survive with the right count, the others are gone. */
  lemma LeftUsers(v: View, t: TaskId, f: string)
    requires Sound(v) && t in v.holds && f in v.locks
    ensures var locks := Released(v.locks, v.holds[t]);
            && (f in locks <==> |Referrers(v.holds - {t}, f)| > 0)
            && (f in locks ==> locks[f].users == |Referrers(v.holds - {t}, f)|)
  {
    ReferrersShrink(v.holds, t, f);
    hide Referrers, Ascending;
  }

  lemma LeftHolder(v: View, t: TaskId, f: string, u: TaskId)
    requires Sound(v) && t in v.holds && f in Released(v.locks, v.holds[t])
    ensures Released(v.locks, v.holds[t])[f].holder == Some(u) <==> u in v.holds && u != t && Holds(v.holds[u], f)
  {
    assert v.locks[f].holder == Some(u) <==> u in v.holds && Holds(v.holds[u], f);
    assert v.locks[f].holder == Some(t) <==> Holds(v.holds[t], f);
    hide Referrers, Ascending, Sound;
  }

  lemma StillReferred(holds: map<TaskId, Hold>, u: TaskId, f: string)
    requires u in holds && f in holds[u].filters
    ensures |Referrers(holds, f)| > 0
  {
    assert u in Referrers(holds, f);
  }

  lemma LeftFrames(v: View, t: TaskId)
    requires Sound(v) && t in v.holds
    ensures FramesOk(View(Released(v.locks, v.holds[t]), v.holds - {t}))
  {
    var w := View(Released(v.locks, v.holds[t]), v.holds - {t});
    forall u, f | u in w.holds && f in w.holds[u].filters
      ensures f in w.locks
    {
      LeftUsers(v, t, f);
      StillReferred(w.holds, u, f);
    }
  }

  lemma ReleasedKeys(locks: map<string, Lock>, h: Hold)
    requires h.acquired <= |h.filters|
    ensures Released(locks, h).Keys <= locks.Keys
  {
  }

  lemma Left(v: View, t: TaskId)
    requires Sound(v) && t in v.holds
    ensures Sound(View(Released(v.locks, v.holds[t]), v.holds - {t}))
  {
    var w := View(Released(v.locks, v.holds[t]), v.holds - {t});
    LeftFrames(v, t);
    ReleasedKeys(v.locks, v.holds[t]);
    hide FramesOk, Released, Referrers, Holds;
    forall f | f in w.locks
      ensures w.locks[f].users == |Referrers(w.holds, f)| && w.locks[f].users > 0
    {
      LeftUsers(v, t, f);
    }
    forall f, u | f in w.locks
      ensures w.locks[f].holder == Some(u) <==> u in w.holds && Holds(w.holds[u], f)
    {
      LeftHolder(v, t, f, u);
    }
  }

  // Whole runs, over any number of tasks.

  datatype Step = Enter(task: TaskId, filters: seq<string>) | Acquire(task: TaskId) | Exit(task: TaskId)

  /** A task enters once, takes its next lock while it is free, and may leave at any point. */
  predicate Enabled(v: View, s: Step) {
    match s
    case Enter(t, _) => t !in v.holds
    case Acquire(t) =>
      t in v.holds && Waiting(v.holds[t]) && Next(v.holds[t]) in v.locks && v.locks[Next(v.holds[t])].holder == None
    case Exit(t) => t in v.holds && v.holds[t].acquired <= |v.holds[t].filters|
  }

  function Apply(v: View, s: Step): View
    requires Enabled(v, s)
  {
    match s
    case Enter(t, filters) =>
      View(Enlisted(v.locks, SortedDistinct(filters)), v.holds[t := Hold(SortedDistinct(filters), 0)])
    case Acquire(t) =>
      var h := v.holds[t];
      View(v.locks[Next(h) := v.locks[Next(h)].(holder := Some(t))], v.holds[t := h.(acquired := h.acquired + 1)])
    case Exit(t) => View(Released(v.locks, v.holds[t]), v.holds - {t})
  }

  ghost predicate Runs(v: View, steps: seq<Step>, end: View)
    decreases |steps|
  {
    if steps == [] then v == end else Enabled(v, steps[0]) && Runs(Apply(v, steps[0]), steps[1..], end)
  }

  lemma StepKeepsSound(v: View, s: Step)
    requires Sound(v) && Enabled(v, s)
    ensures Sound(Apply(v, s))
  {
    hide Sound, Enlisted, Released;
    match s
    case Enter(t, filters) =>
      SortedDistinctIsRight(filters);
      Entered(v, t, SortedDistinct(filters));
    case Acquire(t) => Acquired(v, t);
    case Exit(t) => Left(v, t);
  }

  lemma {:induction false} RunsKeepSound(v: View, steps: seq<Step>, end: View)
    requires Sound(v) && Runs(v, steps, end)
    ensures Sound(end)
    decreases |steps|
  {
    hide Sound, Enabled, Apply;
    if steps != [] {
      StepKeepsSound(v, steps[0]);
      RunsKeepSound(Apply(v, steps[0]), steps[1..], end);
    }
  }

  /**
   * In every state any interleaving reaches: a lock has one holder, the counters are right, nothing is left when
   * nobody is inside, and if tasks wait one of them can go on as soon as the tasks in their bodies have left.
   */
  lemma EveryRun(steps: seq<Step>, end: View)
    requires Runs(View(map[], map[]), steps, end)
    ensures Sound(end)
    ensures end.holds == map[] ==> end.locks == map[]
    ensures (exists t :: t in end.holds && Waiting(end.holds[t])) ==>
              exists t :: t in end.holds && Waiting(end.holds[t]) && CanProceed(end, t)
  {
    RunsKeepSound(View(map[], map[]), steps, end);
    if end.holds == map[] {
      EmptyWhenUnused(end);
    }
    if exists t :: t in end.holds && Waiting(end.holds[t]) {
      NoDeadlock(end);
    }
  }

  // The objects.

  class SubscriptionGuard {
    ghost const filter: string
    var users: int
    var holder: Option<TaskId>

    constructor (ghost filter: string)
      ensures this.filter == filter && users == 0 && holder == None
    {
      this.filter := filter;
      users, holder := 0, None;
    }
  }

  /** The local variables of a task inside `hold`. */
  datatype Frame = Frame(filters: seq<string>, entries: seq<SubscriptionGuard>, acquired: nat)

  class SubscriptionGuards {
    var guards: map<string, SubscriptionGuard>
    var frames: map<TaskId, Frame>

    ghost function Locks(): map<string, Lock>
      reads `guards, guards.Values
    {
      map f | f in guards :: Lock(guards[f].users, guards[f].holder)
    }

    ghost function Tasks(): map<TaskId, Hold>
      reads `frames
    {
      map t | t in frames :: Hold(frames[t].filters, frames[t].acquired)
    }

    ghost function Now(): View
      reads this, guards.Values
    {
      View(Locks(), Tasks())
    }

    /** The references a task keeps are the guards the dictionary has for its filters. */
    ghost predicate Linked()
      reads this
    {
      && (forall f :: f in guards ==> guards[f].filter == f)
      && (forall t :: t in frames ==> |frames[t].entries| == |frames[t].filters|)
      && (forall t, i :: t in frames && 0 <= i < |frames[t].filters| ==>
            frames[t].filters[i] in guards && guards[frames[t].filters[i]] == frames[t].entries[i])
    }

    ghost predicate Valid()
      reads this, guards.Values
    {
      Linked() && Sound(Now())
    }

    constructor ()
      ensures Valid() && guards == map[] && frames == map[]
    {
      guards, frames := map[], map[];
    }

    /** `setdefault` and one more user. */
    method Enlist(f: string) returns (guard: SubscriptionGuard)
      requires Linked()
      modifies `guards, guards.Values
      ensures Linked() && f in guards && guards[f] == guard
      ensures forall g :: g in old(guards) ==> g in guards && guards[g] == old(guards)[g]
      ensures forall g :: g in guards && g !in old(guards) ==> fresh(guards[g])
      ensures Locks() == Enlisted(old(Locks()), [f])
    {
      if f !in guards {
        var created := new SubscriptionGuard(f);
        guards := guards[f := created];
      }
      guard := guards[f];
      guard.users := guard.users + 1;
    }

    method EnlistAll(sorted: seq<string>) returns (entries: seq<SubscriptionGuard>)
      requires Linked() && forall i, j :: 0 <= i < j < |sorted| ==> sorted[i] != sorted[j]
      modifies `guards, guards.Values
      ensures Linked() && |entries| == |sorted|
      ensures forall j :: 0 <= j < |sorted| ==> sorted[j] in guards && guards[sorted[j]] == entries[j]
      ensures Locks() == Enlisted(old(Locks()), sorted)
    {
      hide Enlisted;
      entries := [];
      EnlistNone(Locks());
      for i := 0 to |sorted|
        invariant |entries| == i && Linked()
        invariant forall f :: f in old(guards) ==> f in guards && guards[f] == old(guards)[f]
        invariant forall f :: f in guards && f !in old(guards) ==> fresh(guards[f])
        invariant forall j :: 0 <= j < i ==> sorted[j] in guards && guards[sorted[j]] == entries[j]
        invariant Locks() == Enlisted(old(Locks()), sorted[..i])
      {
        EnlistOne(old(Locks()), sorted, i);
        var guard := Enlist(sorted[i]);
        entries := entries + [guard];
      }
      assert sorted[..|sorted|] == sorted;
    }

    /** Up to the first await: register the task with every guard, creating those that are missing. */
    method Enter(t: TaskId, filters: seq<string>)
      requires Valid() && t !in frames
      modifies this, guards.Values
      ensures Valid()
      ensures Now() == View(Enlisted(old(Locks()), SortedDistinct(filters)), old(Tasks())[t := Hold(SortedDistinct(filters), 0)])
    {
      hide Sound, Ascending, SortedDistinct, Enlisted, Less;
      var sorted := SortedDistinct(filters);
      SortedDistinctIsRight(filters);
      Distinct(sorted);
      Entered(Now(), t, sorted);
      var entries := EnlistAll(sorted);
      frames := frames[t := Frame(sorted, entries, 0)];
      assert Tasks() == old(Tasks())[t := Hold(sorted, 0)];
    }

    /** The next lock of a waiting task becomes its own; asyncio grants it only while it is free. */
    method Acquire(t: TaskId)
      requires Valid() && t in frames && frames[t].acquired < |frames[t].entries|
      requires frames[t].entries[frames[t].acquired].holder == None
      modifies `frames, guards.Values`holder
      ensures Valid()
      ensures var h := old(Tasks())[t]; var f := Next(h);
              Now() == View(old(Locks())[f := old(Locks())[f].(holder := Some(t))],
                            old(Tasks())[t := h.(acquired := h.acquired + 1)])
    {
      hide Sound, Ascending, Less;
      Acquired(Now(), t);
      var frame := frames[t];
      assert Next(Tasks()[t]) == frame.filters[frame.acquired];
      frame.entries[frame.acquired].holder := Some(t);
      frames := frames[t := frame.(acquired := frame.acquired + 1)];
      ghost var f := frame.filters[frame.acquired];
      assert Locks() == old(Locks())[f := old(Locks())[f].(holder := Some(t))];
      assert Tasks() == old(Tasks())[t := old(Tasks())[t].(acquired := frame.acquired + 1)];
    }

    /** `lock.release()` for the guards acquired, last one first. */
    method Unlock(t: TaskId)
      requires Linked() && t in frames && frames[t].acquired <= |frames[t].entries|
      modifies guards.Values`holder
      ensures forall f :: f in guards ==>
                guards[f].holder == if f in frames[t].filters[..frames[t].acquired] then None else old(guards[f].holder)
    {
      var frame := frames[t];
      for k := frame.acquired downto 0
        invariant forall f :: f in guards ==>
                    guards[f].holder == if f in frame.filters[k..frame.acquired] then None else old(guards[f].holder)
      {
        frame.entries[k].holder := None;
        assert frame.filters[k..frame.acquired] == [frame.filters[k]] + frame.filters[k + 1..frame.acquired];
      }
    }

    /** Drop the task's references, forgetting the guards nobody refers to any more. */
    method Delist(t: TaskId)
      requires Linked() && t in frames
      requires forall i, j :: 0 <= i < j < |frames[t].filters| ==> frames[t].filters[i] != frames[t].filters[j]
      modifies `guards, guards.Values`users
      ensures forall f :: f in guards <==> f in old(guards) && !(f in frames[t].filters && old(guards[f].users) == 1)
      ensures forall f :: f in guards ==>
                guards[f] == old(guards)[f] && guards[f].users == old(guards[f].users) - if f in frames[t].filters then 1 else 0
    {
      hide Released, Enlisted, Referrers;
      var frame := frames[t];
      for i := 0 to |frame.filters|
        invariant forall f :: f in guards <==> f in old(guards) && !(f in frame.filters[..i] && old(guards[f].users) == 1)
        invariant forall f :: f in guards ==> guards[f] == old(guards)[f]
        invariant forall f :: f in old(guards) ==>
                    old(guards)[f].users == old(guards[f].users) - if f in frame.filters[..i] then 1 else 0
      {
        var filter, guard := frame.filters[i], frame.entries[i];
        PrefixGrows(frame.filters, i);
        guard.users := guard.users - 1;
        if guard.users == 0 {
          guards := guards - {filter};
        }
      }
      assert frame.filters[..|frame.filters|] == frame.filters;
    }

    /** The `finally` block: after the body, or when the task is cancelled or fails while it waits. */
    method Exit(t: TaskId)
      requires Valid() && t in frames
      modifies this, guards.Values
      ensures Valid()
      ensures Now() == View(Released(old(Locks()), old(Tasks())[t]), old(Tasks()) - {t})
    {
      hide Sound, Released;
      Left(Now(), t);
      NoneRefers(Now(), t);
      Withdraw(t);
      frames := frames - {t};
      assert Tasks() == old(Tasks()) - {t};
      forall u, i | u in frames && 0 <= i < |frames[u].filters|
        ensures frames[u].filters[i] in guards && guards[frames[u].filters[i]] == frames[u].entries[i]
      {
        assert u in old(Tasks()) && frames[u].filters[i] in old(Tasks())[u].filters;
        assert frames[u].filters[i] in Locks();
      }
    }

    /** What the `finally` block does to the guards. */
    method Withdraw(t: TaskId)
      requires Valid() && t in frames && Tasks()[t].acquired <= |Tasks()[t].filters|
      modifies `guards, guards.Values
      ensures forall f :: f in guards ==> f in old(guards) && guards[f] == old(guards)[f]
      ensures Locks() == Released(old(Locks()), Tasks()[t])
    {
      ghost var h := Tasks()[t];
      Distinct(h.filters);
      hide Sound, Ascending, Less, Released;
      Unlock(t);
      Delist(t);
      ReleasedIs(old(Locks()), h, Locks());
    }
  }

  lemma ReleasedIs(before: map<string, Lock>, h: Hold, after: map<string, Lock>)
    requires h.acquired <= |h.filters|
    requires forall f :: f in after <==> f in before && !(f in h.filters && before[f].users == 1)
    requires forall f :: f in after ==> after[f].users == before[f].users - if f in h.filters then 1 else 0
    requires forall f :: f in after ==> after[f].holder == if f in h.filters[..h.acquired] then None else before[f].holder
    ensures after == Released(before, h)
  {
    forall f | f in after
      ensures f in Released(before, h) && Released(before, h)[f] == after[f]
    {
    }
  }

  lemma PrefixGrows(s: seq<string>, i: nat)
    requires i < |s| && forall j, k :: 0 <= j < k < |s| ==> s[j] != s[k]
    ensures s[i] !in s[..i] && forall f :: f in s[..i + 1] <==> f in s[..i] || f == s[i]
  {
    assert s[..i + 1] == s[..i] + [s[i]];
  }

  lemma Distinct(s: seq<string>)
    requires Ascending(s)
    ensures forall i, j :: 0 <= i < j < |s| ==> s[i] != s[j]
  {
    forall i, j | 0 <= i < j < |s|
      ensures s[i] != s[j]
    {
      Trichotomy(s[i], s[j]);
    }
  }

  /** A guard that goes away is in no other task's list. */
  lemma NoneRefers(v: View, t: TaskId)
    requires Sound(v) && t in v.holds
    ensures v.holds[t].acquired <= |v.holds[t].filters|
    ensures forall u, f :: u in v.holds && u != t && f in v.holds[u].filters ==> f in Released(v.locks, v.holds[t])
  {
    LeftFrames(v, t);
    hide Released, Sound, WellFormed;
    forall u, f | u in v.holds && u != t && f in v.holds[u].filters
      ensures f in Released(v.locks, v.holds[t])
    {
      assert u in v.holds - {t};
    }
  }

  lemma EnlistNone(locks: map<string, Lock>)
    ensures Enlisted(locks, []) == locks
  {
  }

  lemma EnlistOne(locks: map<string, Lock>, s: seq<string>, i: nat)
    requires i < |s| && forall j, k :: 0 <= j < k < |s| ==> s[j] != s[k]
    ensures Enlisted(locks, s[..i + 1]) == Enlisted(Enlisted(locks, s[..i]), [s[i]])
  {
    assert s[..i + 1] == s[..i] + [s[i]];
  }
}
