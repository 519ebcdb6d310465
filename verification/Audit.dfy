/** Minute accounting over an export of CI runs and jobs. */
module CiAudit {
  import opened Options

  type Name(==, !new)

  datatype Event = Push | PullRequest | OtherEvent

  /** `created` is any ordered key: the audit only compares creation times. */
  datatype Run = Run(id: int, completed: bool, workflowId: int, sha: int, event: Event, created: int,
                     attempt: int, workflow: Name)

  datatype Os = Linux | Windows | Macos | SelfHosted | OtherOs(name: Name)

  datatype Conclusion = Success | Failure | TimedOut | StartupFailure | CancelledJob | OtherConclusion
  {
    predicate Failed() { Failure? || TimedOut? || StartupFailure? }
  }

  /** `duration` is in minutes, absent when a timestamp is missing or they are out of order. */
  datatype Job = Job(runId: int, duration: Option<real>, os: Os, attempt: int, conclusion: Conclusion)

  datatype GroupKey = GroupKey(workflowId: int, sha: int)

  function KeyOf(run: Run): GroupKey { GroupKey(run.workflowId, run.sha) }

  function Multiplier(os: Os): nat {
    match os
    case Linux => 1
    case Windows => 2
    case Macos => 10
    case SelfHosted => 0
    case OtherOs(_) => 1
  }

  /** Whole minutes, rounded up. */
  function RawMinutes(job: Job): (r: nat)
    ensures match job.duration {
      case Some(d) => if d > 0.0 then r as real - 1.0 < d <= r as real else r == 0
      case None => r == 0
    }
  {
    match job.duration
    case Some(d) => if d > 0.0 then -((-d).Floor) else 0
    case None => 0
  }

  function BilledMinutes(job: Job): nat { RawMinutes(job) * Multiplier(job.os) }

  /** What a minute costs on each system: nothing self-hosted, twice on Windows, ten times on macOS. */
  lemma BilledAtRate(job: Job)
    ensures job.os.SelfHosted? <==> Multiplier(job.os) == 0
    ensures job.os.Windows? ==> BilledMinutes(job) == RawMinutes(job) + RawMinutes(job)
    ensures job.os.Macos? ==> BilledMinutes(job) == 10 * RawMinutes(job)
    ensures job.os.Linux? || job.os.OtherOs? ==> BilledMinutes(job) == RawMinutes(job)
    ensures BilledMinutes(job) == 0 <==> job.os.SelfHosted? || RawMinutes(job) == 0
  {
  }

  // ----- Duplicate runs -----

  /** Run `j` was created before run `i`; the list order breaks ties. */
  predicate Earlier(runs: seq<Run>, j: int, i: int)
    requires 0 <= j < |runs| && 0 <= i < |runs|
  {
    runs[j].created < runs[i].created || (runs[j].created == runs[i].created && j < i)
  }

  ghost predicate Triggered(runs: seq<Run>, key: GroupKey, event: Event) {
    exists i :: 0 <= i < |runs| && KeyOf(runs[i]) == key && runs[i].event == event
  }

  /** A commit of this workflow ran for a push and for a pull request. */
  ghost predicate Mixed(runs: seq<Run>, key: GroupKey) {
    Triggered(runs, key, Push) && Triggered(runs, key, PullRequest)
  }

  ghost predicate HasEarlier(runs: seq<Run>, i: int)
    requires 0 <= i < |runs|
  {
    exists j :: 0 <= j < |runs| && KeyOf(runs[j]) == KeyOf(runs[i]) && Earlier(runs, j, i)
  }

  ghost predicate IsDuplicate(runs: seq<Run>, i: int)
    requires 0 <= i < |runs|
  {
    Mixed(runs, KeyOf(runs[i])) && HasEarlier(runs, i)
  }

  ghost predicate DuplicateId(runs: seq<Run>, id: int) {
    exists i :: 0 <= i < |runs| && runs[i].id == id && IsDuplicate(runs, i)
  }

  ghost predicate Members(runs: seq<Run>, group: seq<nat>, key: GroupKey, n: nat) {
    forall p :: p in group <==> 0 <= p < n && p < |runs| && KeyOf(runs[p]) == key
  }

  ghost predicate Increasing(group: seq<nat>) {
    forall a, b :: 0 <= a < b < |group| ==> group[a] < group[b]
  }

  /** The positions below `n` of the runs with key `key`, in order. */
  ghost predicate GroupUpTo(runs: seq<Run>, group: seq<nat>, key: GroupKey, n: nat) {
    Members(runs, group, key, n) && Increasing(group)
  }

  ghost predicate GroupedUpTo(runs: seq<Run>, groups: map<GroupKey, seq<nat>>, n: nat) {
    && (forall key :: key in groups ==> groups[key] != [] && GroupUpTo(runs, groups[key], key, n))
    && (forall p :: 0 <= p < n && p < |runs| ==> KeyOf(runs[p]) in groups)
  }

  lemma GroupExtends(runs: seq<Run>, group: seq<nat>, key: GroupKey, n: nat)
    requires GroupUpTo(runs, group, key, n) && n < |runs|
    ensures GroupUpTo(runs, if KeyOf(runs[n]) == key then group + [n] else group, key, n + 1)
  {
    if KeyOf(runs[n]) == key {
      IncreasingAppend(group, n);
      assert forall p :: p in group + [n] <==> p in group || p == n;
    }
  }

  lemma IncreasingAppend(group: seq<nat>, n: nat)
    requires Increasing(group) && forall p :: p in group ==> p < n
    ensures Increasing(group + [n])
  {
    assert forall a :: 0 <= a < |group| ==> group[a] in group;
  }

  method GroupRuns(runs: seq<Run>) returns (groups: map<GroupKey, seq<nat>>)
    ensures GroupedUpTo(runs, groups, |runs|)
  {
    groups := map[];
    for n := 0 to |runs|
      invariant GroupedUpTo(runs, groups, n)
    {
      var key := KeyOf(runs[n]);
      var group := if key in groups then groups[key] else [];
      assert GroupUpTo(runs, group, key, n);
      forall k | k in groups ensures GroupUpTo(runs, if key == k then groups[k] + [n] else groups[k], k, n + 1) {
        GroupExtends(runs, groups[k], k, n);
      }
      GroupExtends(runs, group, key, n);
      groups := groups[key := group + [n]];
    }
  }

  method ContainsEvent(runs: seq<Run>, group: seq<nat>, event: Event) returns (found: bool)
    requires forall p :: p in group ==> p < |runs|
    ensures found <==> exists p :: p in group && runs[p].event == event
  {
    found := false;
    for i := 0 to |group|
      invariant found <==> exists a :: 0 <= a < i && group[a] < |runs| && runs[group[a]].event == event
    {
      assert group[i] in group;
      found := found || runs[group[i]].event == event;
    }
    if found {
      var a :| 0 <= a < |group| && group[a] < |runs| && runs[group[a]].event == event;
      assert group[a] in group;
    }
  }

  /** The element that sorting the group by creation time puts first. */
  method FirstCreated(runs: seq<Run>, group: seq<nat>, key: GroupKey) returns (first: nat)
    requires GroupUpTo(runs, group, key, |runs|) && group != []
    ensures first in group && first < |runs| && forall p :: p in group && p != first ==> Earlier(runs, first, p)
  {
    first := group[0];
    assert group[0] in group;
    for i := 1 to |group|
      invariant first in group[..i] && first < |runs|
      invariant forall a :: 0 <= a < i && group[a] != first ==> group[a] < |runs| && Earlier(runs, first, group[a])
    {
      assert group[i] in group;
      if runs[group[i]].created < runs[first].created {
        first := group[i];
      }
    }
  }

  ghost predicate DuplicateInGroup(runs: seq<Run>, key: GroupKey, id: int) {
    exists i :: 0 <= i < |runs| && runs[i].id == id && KeyOf(runs[i]) == key && IsDuplicate(runs, i)
  }

  /** Marks all but the first run of a group that was triggered both ways. */
  method MarkGroup(runs: seq<Run>, group: seq<nat>, key: GroupKey, before: set<int>) returns (marked: set<int>)
    requires GroupUpTo(runs, group, key, |runs|) && group != []
    ensures forall id :: id in marked <==> id in before || DuplicateInGroup(runs, key, id)
  {
    marked := before;
    var push := ContainsEvent(runs, group, Push);
    var pull := ContainsEvent(runs, group, PullRequest);
    assert push <==> Triggered(runs, key, Push);
    assert pull <==> Triggered(runs, key, PullRequest);
    if push && pull {
      var first := FirstCreated(runs, group, key);
      marked := MarkRest(runs, group, first, before);
    }
  }

  method MarkRest(runs: seq<Run>, group: seq<nat>, first: nat, before: set<int>) returns (marked: set<int>)
    requires forall p :: p in group ==> p < |runs|
    ensures forall id :: id in marked <==> id in before || exists p :: p in group && p != first && runs[p].id == id
  {
    marked := before;
    for i := 0 to |group|
      invariant forall id :: id in marked <==>
        (id in before || exists a :: 0 <= a < i && group[a] != first && group[a] < |runs| && runs[group[a]].id == id)
    {
      assert group[i] in group;
      if group[i] != first {
        marked := marked + {runs[group[i]].id};
      }
    }
  }

  ghost predicate MarkedBy(runs: seq<Run>, keys: set<GroupKey>, id: int) {
    exists key :: key in keys && DuplicateInGroup(runs, key, id)
  }

  /** Exactly the ids of duplicate runs, for every list of runs. */
  method DuplicateRunIds(runs: seq<Run>) returns (marked: set<int>)
    ensures forall id :: id in marked <==> DuplicateId(runs, id)
  {
    var groups := GroupRuns(runs);
    marked := {};
    var todo := groups.Keys;
    while todo != {}
      invariant todo <= groups.Keys
      invariant forall id :: id in marked <==> MarkedBy(runs, groups.Keys - todo, id)
    {
      var key :| key in todo;
      assert groups.Keys - (todo - {key}) == groups.Keys - todo + {key};
      marked := MarkGroup(runs, groups[key], key, marked);
      todo := todo - {key};
    }
    assert groups.Keys - todo == groups.Keys;
    assert forall id :: MarkedBy(runs, groups.Keys, id) <==> DuplicateId(runs, id);
  }

  ghost predicate DistinctIds(runs: seq<Run>) {
    forall i, j :: 0 <= i < j < |runs| ==> runs[i].id != runs[j].id
  }

  /** With distinct run ids, every (workflow, commit) group keeps a run that is not marked. */
  lemma {:induction false} GroupKeepsARun(runs: seq<Run>, i: int)
    requires DistinctIds(runs) && 0 <= i < |runs|
    ensures exists j :: 0 <= j < |runs| && KeyOf(runs[j]) == KeyOf(runs[i]) && !DuplicateId(runs, runs[j].id)
  {
    var j := FirstOf(runs, i, |runs|);
    assert !HasEarlier(runs, j);
    assert forall k :: 0 <= k < |runs| && runs[k].id == runs[j].id ==> k == j;
  }

  /** The first created run below `n` of the group of run `i`. */
  ghost function FirstOf(runs: seq<Run>, i: int, n: nat): (j: int)
    requires 0 <= i < |runs| && n <= |runs|
    ensures 0 <= j < |runs| && KeyOf(runs[j]) == KeyOf(runs[i])
    ensures forall k :: 0 <= k < n && KeyOf(runs[k]) == KeyOf(runs[i]) ==> !Earlier(runs, k, j)
  {
    if n == 0 then i
    else
      var j := FirstOf(runs, i, n - 1);
      if KeyOf(runs[n - 1]) == KeyOf(runs[i]) && Earlier(runs, n - 1, j) then n - 1 else j
  }

  /** Another entry with the id of run `j` is a duplicate. */
  ghost predicate SharesDuplicateId(runs: seq<Run>, j: int)
    requires 0 <= j < |runs|
  {
    exists k :: 0 <= k < |runs| && k != j && runs[k].id == runs[j].id && IsDuplicate(runs, k)
  }

  ghost predicate KeepsARun(runs: seq<Run>, key: GroupKey) {
    exists j :: 0 <= j < |runs| && KeyOf(runs[j]) == key && !DuplicateId(runs, runs[j].id)
  }

  /** A duplicate of another group has the id of run `j`. */
  ghost predicate HasForeignDuplicate(runs: seq<Run>, j: int)
    requires 0 <= j < |runs|
  {
    exists k :: 0 <= k < |runs| && KeyOf(runs[k]) != KeyOf(runs[j]) && runs[k].id == runs[j].id && IsDuplicate(runs, k)
  }

  /** For every list of runs: a group triggered both ways keeps an unmarked run if and only
      if no other entry with the id of its first created run is a duplicate; any other
      group loses all its runs if and only if each shares its id with a duplicate of another group. */
  lemma GroupKeepsIff(runs: seq<Run>, i: int)
    requires 0 <= i < |runs|
    ensures KeepsARun(runs, KeyOf(runs[i])) <==>
      if Mixed(runs, KeyOf(runs[i])) then !SharesDuplicateId(runs, FirstOf(runs, i, |runs|))
      else !forall j :: 0 <= j < |runs| && KeyOf(runs[j]) == KeyOf(runs[i]) ==> HasForeignDuplicate(runs, j)
  {
    var key, first := KeyOf(runs[i]), FirstOf(runs, i, |runs|);
    if Mixed(runs, key) {
      assert !IsDuplicate(runs, first) by {
        assert !HasEarlier(runs, first);
      }
      assert forall j :: 0 <= j < |runs| && KeyOf(runs[j]) == key && j != first ==> IsDuplicate(runs, j);
      assert !DuplicateId(runs, runs[first].id) <==> !SharesDuplicateId(runs, first);
    } else {
      assert forall j :: 0 <= j < |runs| && KeyOf(runs[j]) == key ==>
        (DuplicateId(runs, runs[j].id) <==> HasForeignDuplicate(runs, j));
    }
  }

  /** Two entries with one id, one per trigger, leave the group without an unmarked run. */
  lemma RepeatedIdMarksAll(name: Name)
    ensures var runs := [Run(1, true, 1, 1, Push, 0, 1, name), Run(1, true, 1, 1, PullRequest, 0, 1, name)];
      DuplicateId(runs, runs[0].id) && DuplicateId(runs, runs[1].id)
  {
    var runs := [Run(1, true, 1, 1, Push, 0, 1, name), Run(1, true, 1, 1, PullRequest, 0, 1, name)];
    assert KeyOf(runs[0]) == KeyOf(runs[1]) && runs[0].event == Push && runs[1].event == PullRequest;
    assert Earlier(runs, 0, 1);
    assert IsDuplicate(runs, 1);
  }

  // ----- Minutes -----

  /** What the loop knows about completed runs. */
  datatype Book = Book(runs: map<int, Run>, duplicates: set<int>)

  datatype Filter =
    | Every | OnOs(os: Os) | InWorkflow(workflow: Name)
    | DuplicateWaste | RerunWaste | CancelledWaste | FailedJobs

  /** The jobs that each counter of the report is about. */
  predicate Selects(book: Book, job: Job, f: Filter) {
    && job.runId in book.runs
    && var run := book.runs[job.runId];
       var duplicate := run.id in book.duplicates;
       var superseded := job.attempt < run.attempt;
       match f
       case Every => true
       case OnOs(os) => job.os == os
       case InWorkflow(workflow) => run.workflow == workflow
       case DuplicateWaste => duplicate
       case RerunWaste => !duplicate && superseded
       case CancelledWaste => !duplicate && !superseded && job.conclusion.CancelledJob?
       case FailedJobs => job.conclusion.Failed()
  }

  function Share(book: Book, job: Job, f: Filter): nat {
    if Selects(book, job, f) then BilledMinutes(job) else 0
  }

  /** Billed minutes of the selected jobs. */
  function Minutes(book: Book, jobs: seq<Job>, f: Filter): nat {
    if jobs == [] then 0 else Minutes(book, jobs[..|jobs| - 1], f) + Share(book, jobs[|jobs| - 1], f)
  }

  /** Each counter's jobs, from the job, its run and the duplicate ids: a job is wasted at most once,
      as a duplicate before a superseded attempt before a cancellation. */
  lemma SelectsIff(book: Book, job: Job)
    requires job.runId in book.runs
    ensures var run := book.runs[job.runId];
      && Selects(book, job, Every)
      && (forall os :: Selects(book, job, OnOs(os)) <==> os == job.os)
      && (forall w :: Selects(book, job, InWorkflow(w)) <==> w == run.workflow)
      && (Selects(book, job, DuplicateWaste) <==> run.id in book.duplicates)
      && (Selects(book, job, RerunWaste) <==> run.attempt > job.attempt && run.id !in book.duplicates)
      && (Selects(book, job, CancelledWaste) <==>
            job.conclusion.CancelledJob? && run.attempt <= job.attempt && run.id !in book.duplicates)
      && (Selects(book, job, FailedJobs) <==>
            job.conclusion.Failure? || job.conclusion.TimedOut? || job.conclusion.StartupFailure?)
  {
  }

  /** Whole minutes of all jobs of completed runs, before the multiplier. */
  function RawTotal(book: Book, jobs: seq<Job>): nat {
    if jobs == [] then 0
    else
      var job := jobs[|jobs| - 1];
      RawTotal(book, jobs[..|jobs| - 1]) + if job.runId in book.runs then RawMinutes(job) else 0
  }

  lemma MinutesNext(book: Book, jobs: seq<Job>, n: nat, f: Filter)
    requires n < |jobs|
    ensures Minutes(book, jobs[..n + 1], f) == Minutes(book, jobs[..n], f) + Share(book, jobs[n], f)
  {
    assert jobs[..n + 1][..n] == jobs[..n];
  }

  /** The three waste classes are disjoint, so waste never exceeds what was billed. */
  lemma {:induction false} WasteIsBilled(book: Book, jobs: seq<Job>)
    ensures Minutes(book, jobs, DuplicateWaste) + Minutes(book, jobs, RerunWaste) + Minutes(book, jobs, CancelledWaste)
         <= Minutes(book, jobs, Every)
  {
    if jobs != [] {
      WasteIsBilled(book, jobs[..|jobs| - 1]);
    }
  }

  function At<K>(m: map<K, nat>, k: K): nat { if k in m then m[k] else 0 }

  /** The sum of all counters of a table. */
  ghost function Total<K>(m: map<K, nat>): nat
    decreases |m|
  {
    if m == map[] then 0 else var k :| k in m; m[k] + Total(m - {k})
  }

  lemma {:induction false} TotalWithout<K>(m: map<K, nat>, k: K)
    requires k in m
    ensures Total(m) == m[k] + Total(m - {k})
    decreases |m|
  {
    var c :| c in m && Total(m) == m[c] + Total(m - {c});
    if c != k {
      TotalWithout(m - {c}, k);
      TotalWithout(m - {k}, c);
      assert m - {c} - {k} == m - {k} - {c};
    }
  }

  lemma TotalAdd<K>(m: map<K, nat>, k: K, d: nat)
    ensures Total(m[k := At(m, k) + d]) == Total(m) + d
  {
    var m' := m[k := At(m, k) + d];
    TotalWithout(m', k);
    if k in m {
      TotalWithout(m, k);
      assert m' - {k} == m - {k};
    } else {
      assert m' - {k} == m;
    }
  }

  datatype Waste = Waste(duplicate: nat, rerun: nat, cancelled: nat, failed: nat)

  datatype Totals = Totals(raw: nat, billed: nat, byOs: map<Os, nat>, byWorkflow: map<Name, nat>, waste: Waste)

  ghost predicate WasteCounted(book: Book, jobs: seq<Job>, w: Waste) {
    && w.duplicate == Minutes(book, jobs, DuplicateWaste)
    && w.rerun == Minutes(book, jobs, RerunWaste)
    && w.cancelled == Minutes(book, jobs, CancelledWaste)
    && w.failed == Minutes(book, jobs, FailedJobs)
  }

  ghost predicate OsCounted(book: Book, jobs: seq<Job>, m: map<Os, nat>) {
    forall os :: At(m, os) == Minutes(book, jobs, OnOs(os))
  }

  ghost predicate WorkflowCounted(book: Book, jobs: seq<Job>, m: map<Name, nat>) {
    forall w :: At(m, w) == Minutes(book, jobs, InWorkflow(w))
  }

  /** Every counter agrees with the jobs it is about. */
  ghost predicate Accounted(book: Book, jobs: seq<Job>, t: Totals) {
    && t.raw == RawTotal(book, jobs) && t.billed == Minutes(book, jobs, Every) && WasteCounted(book, jobs, t.waste)
    && OsCounted(book, jobs, t.byOs) && WorkflowCounted(book, jobs, t.byWorkflow)
  }

  ghost predicate Balanced(t: Totals) {
    t.billed == Total(t.byOs) && t.billed == Total(t.byWorkflow)
  }

  method AddWaste(book: Book, run: Run, job: Job, w: Waste) returns (u: Waste)
    requires job.runId in book.runs && book.runs[job.runId] == run
    ensures u.duplicate == w.duplicate + Share(book, job, DuplicateWaste)
    ensures u.rerun == w.rerun + Share(book, job, RerunWaste)
    ensures u.cancelled == w.cancelled + Share(book, job, CancelledWaste)
    ensures u.failed == w.failed + Share(book, job, FailedJobs)
    ensures u.duplicate == w.duplicate + if run.id in book.duplicates then BilledMinutes(job) else 0
    ensures u.duplicate + u.rerun == w.duplicate + w.rerun +
      if run.id in book.duplicates || run.attempt > job.attempt then BilledMinutes(job) else 0
    ensures u.duplicate + u.rerun + u.cancelled == w.duplicate + w.rerun + w.cancelled +
      if run.id in book.duplicates || run.attempt > job.attempt || job.conclusion.CancelledJob?
      then BilledMinutes(job) else 0
    ensures u.failed == w.failed +
      if job.conclusion.Failure? || job.conclusion.TimedOut? || job.conclusion.StartupFailure?
      then BilledMinutes(job) else 0
  {
    u := w;
    var billed := BilledMinutes(job);
    if run.id in book.duplicates {
      u := u.(duplicate := u.duplicate + billed);
    } else if job.attempt < run.attempt {
      u := u.(rerun := u.rerun + billed);
    } else if job.conclusion.CancelledJob? {
      u := u.(cancelled := u.cancelled + billed);
    }
    if job.conclusion.Failed() {
      u := u.(failed := u.failed + billed);
    }
  }

  lemma NextShares(book: Book, jobs: seq<Job>, n: nat)
    requires n < |jobs|
    ensures forall f :: Minutes(book, jobs[..n + 1], f) == Minutes(book, jobs[..n], f) + Share(book, jobs[n], f)
  {
    forall f ensures Minutes(book, jobs[..n + 1], f) == Minutes(book, jobs[..n], f) + Share(book, jobs[n], f) {
      MinutesNext(book, jobs, n, f);
    }
  }

  lemma OsNext(book: Book, jobs: seq<Job>, n: nat, m: map<Os, nat>)
    requires n < |jobs| && OsCounted(book, jobs[..n], m) && jobs[n].runId in book.runs
    ensures OsCounted(book, jobs[..n + 1], m[jobs[n].os := At(m, jobs[n].os) + BilledMinutes(jobs[n])])
  {
    NextShares(book, jobs, n);
  }

  lemma WorkflowNext(book: Book, jobs: seq<Job>, n: nat, m: map<Name, nat>, w: Name)
    requires n < |jobs| && WorkflowCounted(book, jobs[..n], m)
    requires jobs[n].runId in book.runs && book.runs[jobs[n].runId].workflow == w
    ensures WorkflowCounted(book, jobs[..n + 1], m[w := At(m, w) + BilledMinutes(jobs[n])])
  {
    NextShares(book, jobs, n);
  }

  lemma SkippedJob(book: Book, jobs: seq<Job>, n: nat, t: Totals)
    requires n < |jobs| && Accounted(book, jobs[..n], t) && jobs[n].runId !in book.runs
    ensures Accounted(book, jobs[..n + 1], t)
  {
    NextShares(book, jobs, n);
    assert jobs[..n + 1][..n] == jobs[..n];
  }

  /** One turn of the job loop: jobs of runs that did not complete are passed over. */
  method AddJob(book: Book, jobs: seq<Job>, n: nat, t: Totals) returns (u: Totals)
    requires n < |jobs| && Accounted(book, jobs[..n], t) && Balanced(t)
    ensures Accounted(book, jobs[..n + 1], u) && Balanced(u)
  {
    var job := jobs[n];
    if job.runId !in book.runs {
      SkippedJob(book, jobs, n, t);
      return t;
    }
    var run := book.runs[job.runId];
    var billed := BilledMinutes(job);
    var byOs := t.byOs[job.os := At(t.byOs, job.os) + billed];
    var byWorkflow := t.byWorkflow[run.workflow := At(t.byWorkflow, run.workflow) + billed];
    OsNext(book, jobs, n, t.byOs);
    WorkflowNext(book, jobs, n, t.byWorkflow, run.workflow);
    TotalAdd(t.byOs, job.os, billed);
    TotalAdd(t.byWorkflow, run.workflow, billed);
    NextShares(book, jobs, n);
    assert jobs[..n + 1][..n] == jobs[..n];
    var waste := AddWaste(book, run, job, t.waste);
    u := Totals(t.raw + RawMinutes(job), t.billed + billed, byOs, byWorkflow, waste);
  }

  method CountMinutes(book: Book, jobs: seq<Job>) returns (t: Totals)
    ensures Accounted(book, jobs, t) && Balanced(t)
    ensures t.waste.duplicate + t.waste.rerun + t.waste.cancelled <= t.billed
  {
    t := Totals(0, 0, map[], map[], Waste(0, 0, 0, 0));
    for n := 0 to |jobs|
      invariant Accounted(book, jobs[..n], t) && Balanced(t)
    {
      t := AddJob(book, jobs, n, t);
    }
    assert jobs[..|jobs|] == jobs;
    WasteIsBilled(book, jobs);
  }

  /** The completed runs, in order. */
  function Completed(runs: seq<Run>): seq<Run> {
    if runs == [] then []
    else
      var last := runs[|runs| - 1];
      Completed(runs[..|runs| - 1]) + if last.completed then [last] else []
  }

  /** Every job of a completed run is counted, any other is not. */
  lemma CountedIff(book: Book, job: Job, f: Filter)
    ensures job.runId !in book.runs ==> Share(book, job, f) == 0
    ensures job.runId in book.runs ==> Share(book, job, Every) == RawMinutes(job) * Multiplier(job.os)
  {
  }

  lemma {:induction false} CompletedIff(runs: seq<Run>)
    ensures forall r :: r in Completed(runs) <==> r in runs && r.completed
    ensures DistinctIds(runs) ==> DistinctIds(Completed(runs))
  {
    if runs != [] {
      var front, last := runs[..|runs| - 1], runs[|runs| - 1];
      CompletedIff(front);
      assert runs == front + [last];
      if DistinctIds(runs) {
        assert DistinctIds(front);
        assert forall r :: r in front ==> r.id != last.id;
      }
    }
  }

  /** No later run has the id of run `i`. */
  ghost predicate IsLast(runs: seq<Run>, i: int)
    requires 0 <= i < |runs|
  {
    forall j :: i < j < |runs| ==> runs[j].id != runs[i].id
  }

  /** A lookup table in which a later run with the same id wins. */
  ghost predicate Indexes(byId: map<int, Run>, runs: seq<Run>) {
    && (forall id :: id in byId ==> byId[id].id == id && byId[id] in runs)
    && (forall i :: 0 <= i < |runs| ==> runs[i].id in byId)
    && (forall i :: 0 <= i < |runs| && IsLast(runs, i) ==> byId[runs[i].id] == runs[i])
  }

  lemma IndexNext(byId: map<int, Run>, runs: seq<Run>, run: Run)
    requires Indexes(byId, runs)
    ensures Indexes(byId[run.id := run], runs + [run])
  {
    var more := runs + [run];
    forall i | 0 <= i < |more| && IsLast(more, i) ensures byId[run.id := run][more[i].id] == more[i] {
      if i < |runs| {
        assert more[|runs|] == run;
        assert forall j :: i < j < |runs| ==> more[j] == runs[j];
        assert IsLast(runs, i);
      }
    }
  }

  method IndexRuns(runs: seq<Run>) returns (completed: seq<Run>, byId: map<int, Run>)
    ensures completed == Completed(runs) && Indexes(byId, completed)
  {
    completed, byId := [], map[];
    for n := 0 to |runs|
      invariant completed == Completed(runs[..n]) && Indexes(byId, completed)
    {
      assert runs[..n + 1][..n] == runs[..n];
      if runs[n].completed {
        IndexNext(byId, completed, runs[n]);
        completed := completed + [runs[n]];
        byId := byId[runs[n].id := runs[n]];
      }
    }
    assert runs[..|runs|] == runs;
  }

  /** The minute accounting of an export: all minutes are attributed once to an OS and
      once to a workflow, and waste is part of what was billed. */
  method AnalyzeMinutes(runs: seq<Run>, jobs: seq<Job>) returns (t: Totals, book: Book)
    ensures Indexes(book.runs, Completed(runs))
    ensures forall id :: id in book.duplicates <==> DuplicateId(Completed(runs), id)
    ensures Accounted(book, jobs, t)
    ensures t.billed == Total(t.byOs) && t.billed == Total(t.byWorkflow)
    ensures t.waste.duplicate + t.waste.rerun + t.waste.cancelled <= t.billed
  {
    var completed, byId := IndexRuns(runs);
    var duplicates := DuplicateRunIds(completed);
    book := Book(byId, duplicates);
    t := CountMinutes(book, jobs);
  }
}
