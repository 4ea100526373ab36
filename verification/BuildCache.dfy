/** The write-once build cache: racing writers stage, then publish by renaming.

    Every file operation is a step of its own, so any interleaving of any number of
    writers storing under one key is a run.  Renaming onto an existing entry fails, a
    writer may crash at any step and leave its staging directory behind, and any
    operation may fail.  A staging directory is named after the writer's process:
    `dirOf` says which, so that two threads of one process share one. */
module BuildCache {
  import opened EventLog

  type Content = string
  datatype Meta = Meta(sha: string, verdict: bool, created: nat, note: string)

  /** A file being written is neither missing nor whole, and is its last opener's. */
  datatype File<+T> = Missing | Partial(opener: nat) | Whole(value: T)

  datatype Dir = Dir(artifact: File<Content>, meta: File<Meta>)

  const EMPTY: Dir := Dir(Missing, Missing)

  /** What a writer was asked to store. */
  datatype Job = Job(artifact: Content, meta: Meta)

  datatype Outcome = Stored(meta: Meta) | Failed

  datatype Phase = Looking | Missed | Cleared | Made | Copying | Copied | Writing | Written | Lost | Swept | Done(outcome: Outcome)

  datatype Proc = Proc(job: Job, phase: Phase)

  /** The entry published under the key, the staging directories, and the writers under
      way; a directory may outlive the writer that made it. */
  datatype Disk = Disk(entry: Option<Dir>, stages: map<nat, Dir>, procs: map<nat, Proc>)

  datatype Reading = NoEntry | Unreadable | Found(meta: Meta)

  /** `lookup`: an entry is there once its meta file is, and must parse. */
  function Lookup(entry: Option<Dir>): Reading {
    if entry.None? || entry.value.meta.Missing? then NoEntry
    else if entry.value.meta.Partial? then Unreadable
    else Found(entry.value.meta.value)
  }

  function With(s: Disk, p: nat, phase: Phase): Disk
    requires p in s.procs
  { s.(procs := s.procs[p := s.procs[p].(phase := phase)]) }

  function Stage(s: Disk, d: nat, dir: Dir): Disk { s.(stages := s.stages[d := dir]) }

  function Unstage(s: Disk, d: nat): Disk { s.(stages := s.stages - {d}) }

  datatype Step =
    | Start(job: Job)    // a writer begins a store, perhaps under a recycled id
    | Advance            // its next file operation
    | Fail               // that operation fails instead
    | Crash              // it dies, leaving whatever it staged

  /** The next file operation of `store`, on whatever the directory now holds; finishing
      a file that was cleared away or opened again since changes nothing there. */
  function Operate(s: Disk, p: nat, d: nat): Disk
    requires p in s.procs
  {
    var job, here := s.procs[p].job, if d in s.stages then s.stages[d] else EMPTY;
    match s.procs[p].phase
    case Looking =>
      var seen := Lookup(s.entry);
      With(s, p, if seen.Found? then Done(Stored(seen.meta)) else if seen.Unreadable? then Done(Failed) else Missed)
    case Missed => Unstage(With(s, p, Cleared), d)
    case Cleared => Stage(With(s, p, Made), d, here)
    case Made =>
      if d !in s.stages then With(s, p, Done(Failed))
      else Stage(With(s, p, Copying), d, here.(artifact := Partial(p)))
    case Copying =>
      if here.artifact != Partial(p) then With(s, p, Copied)
      else Stage(With(s, p, Copied), d, here.(artifact := Whole(job.artifact)))
    case Copied =>
      if d !in s.stages then With(s, p, Done(Failed))
      else Stage(With(s, p, Writing), d, here.(meta := Partial(p)))
    case Writing =>
      if here.meta != Partial(p) then With(s, p, Written)
      else Stage(With(s, p, Written), d, here.(meta := Whole(job.meta)))
    case Written =>
      // The rename, atomic: it moves the directory, or finds an entry in the way.
      if s.entry.None? && d in s.stages
      then Unstage(With(s, p, Done(Stored(job.meta))), d).(entry := Some(here))
      else With(s, p, if s.entry.Some? then Lost else Done(Failed))
    case Lost => Unstage(With(s, p, Swept), d)
    case Swept =>
      var seen := Lookup(s.entry);
      With(s, p, Done(if seen.Found? then Stored(seen.meta) else Failed))
    case Done(_) => s
  }

  ghost predicate Takes(s: Disk, p: nat, a: Step, s': Disk, dirOf: nat -> nat) {
    match a
    case Start(job) => (p in s.procs ==> s.procs[p].phase.Done?) && s' == s.(procs := s.procs[p := Proc(job, Looking)])
    case Advance =>
      && p in s.procs && !s.procs[p].phase.Done?
      && (s' == Operate(s, p, dirOf(p)) || (s.procs[p].phase.Lost? && s' == With(s, p, Swept)))  // a failed sweep is ignored
    case Fail =>
      && p in s.procs && !s.procs[p].phase.Done?
      && (s' == With(s, p, Done(Failed)) || s' == Unstage(With(s, p, Done(Failed)), dirOf(p)))
    case Crash => p in s.procs && s' == s.(procs := s.procs - {p})
  }

  // --- what every step keeps --------------------------------------------------------

  ghost predicate Complete(d: Dir) { d.artifact.Whole? && d.meta.Whole? }

  /** The entry is one writer's artifact beside that writer's meta. */
  ghost predicate OneWriters(d: Dir, jobs: set<Job>) {
    exists j :: j in jobs && d == Dir(Whole(j.artifact), Whole(j.meta))
  }

  /** No two writers stage in one place. */
  ghost predicate OneStageEach(dirOf: nat -> nat) { forall p, q :: p != q ==> dirOf(p) != dirOf(q) }

  /** The staging directory holds exactly what the writer has written so far. */
  ghost predicate StageMatches(s: Disk, p: nat, d: nat)
    requires p in s.procs
  {
    var job := s.procs[p].job;
    match s.procs[p].phase
    case Cleared => d !in s.stages
    case Made => d in s.stages && s.stages[d] == EMPTY
    case Copying => d in s.stages && s.stages[d] == Dir(Partial(p), Missing)
    case Copied => d in s.stages && s.stages[d] == Dir(Whole(job.artifact), Missing)
    case Writing => d in s.stages && s.stages[d] == Dir(Whole(job.artifact), Partial(p))
    case Written => d in s.stages && s.stages[d] == Dir(Whole(job.artifact), Whole(job.meta))
    case Lost => s.entry.Some?
    case Swept => s.entry.Some?
    case Done(Stored(m)) => s.entry.Some? && s.entry.value.meta == Whole(m)
    case _ => true
  }

  ghost predicate Sound(s: Disk, jobs: set<Job>, dirOf: nat -> nat) {
    && (s.entry.Some? ==> OneWriters(s.entry.value, jobs))
    && forall p :: p in s.procs ==> s.procs[p].job in jobs && StageMatches(s, p, dirOf(p))
  }

  ghost predicate Asks(a: Step, jobs: set<Job>) { a.Start? ==> a.job in jobs }

  lemma {:induction false} StepKeepsSound(s: Disk, p: nat, a: Step, s': Disk, jobs: set<Job>, dirOf: nat -> nat)
    requires OneStageEach(dirOf) && Sound(s, jobs, dirOf) && Takes(s, p, a, s', dirOf) && Asks(a, jobs)
    ensures Sound(s', jobs, dirOf)
    ensures s.entry.Some? ==> s'.entry == s.entry
  {
    if a.Start? || a.Crash? {
      hide OneWriters;
    } else {
      assert StageMatches(s, p, dirOf(p));
      OwnStep(s, p, a, s', jobs, dirOf);
      forall q | q in s'.procs && q != p ensures q in s.procs && s'.procs[q] == s.procs[q] && StageMatches(s', q, dirOf(q)) {
        OthersUntouched(s, p, a, s', q, dirOf);
      }
      hide StageMatches, OneWriters, Takes, Operate;
    }
  }

  lemma {:induction false} OwnStep(s: Disk, p: nat, a: Step, s': Disk, jobs: set<Job>, dirOf: nat -> nat)
    requires p in s.procs && s.procs[p].job in jobs && StageMatches(s, p, dirOf(p))
    requires Takes(s, p, a, s', dirOf) && (a.Advance? || a.Fail?)
    requires s.entry.Some? ==> OneWriters(s.entry.value, jobs)
    ensures p in s'.procs && s'.procs[p].job == s.procs[p].job && StageMatches(s', p, dirOf(p))
    ensures s.entry.Some? ==> s'.entry == s.entry
    ensures s.entry.None? && s'.entry.Some? ==> OneWriters(s'.entry.value, jobs)
    ensures a.Advance? ==> s'.procs[p].phase != Done(Failed)
  {}

  lemma {:induction false} OthersUntouched(s: Disk, p: nat, a: Step, s': Disk, q: nat, dirOf: nat -> nat)
    requires OneStageEach(dirOf)
    requires p in s.procs && Takes(s, p, a, s', dirOf) && (a.Advance? || a.Fail?) && q != p && q in s'.procs
    requires q in s.procs ==> StageMatches(s, q, dirOf(q))
    ensures q in s.procs && s'.procs[q] == s.procs[q] && StageMatches(s', q, dirOf(q))
  {
    assert s.entry.Some? ==> s'.entry == s.entry;
    assert q in s.procs && s'.procs[q] == s.procs[q];
    var d := dirOf(q);
    assert (d in s.stages <==> d in s'.stages) && (d in s.stages ==> s'.stages[d] == s.stages[d]);
    hide Takes, Operate;
  }

  ghost predicate Run(disks: seq<Disk>, who: seq<nat>, acts: seq<Step>, jobs: set<Job>, dirOf: nat -> nat) {
    && |disks| == |acts| + 1 && |who| == |acts|
    && disks[0].entry.None? && disks[0].procs == map[]
    && forall i | 0 <= i < |acts| :: Takes(disks[i], who[i], acts[i], disks[i + 1], dirOf) && Asks(acts[i], jobs)
  }

  lemma {:induction false} RunSound(disks: seq<Disk>, who: seq<nat>, acts: seq<Step>, jobs: set<Job>, dirOf: nat -> nat, n: nat)
    requires OneStageEach(dirOf) && Run(disks, who, acts, jobs, dirOf) && n <= |acts|
    ensures Sound(disks[n], jobs, dirOf)
  {
    if n > 0 {
      RunSound(disks, who, acts, jobs, dirOf, n - 1);
      StepKeepsSound(disks[n - 1], who[n - 1], acts[n - 1], disks[n], jobs, dirOf);
    }
  }

  /** Whatever staging directories earlier crashes left, and however the writers
      interleave: an entry once published never changes, it is whole and one writer's
      own, and no lookup ever sees half of one. */
  lemma {:induction false} PublishedOnce(disks: seq<Disk>, who: seq<nat>, acts: seq<Step>, jobs: set<Job>, dirOf: nat -> nat,
                                         i: nat, k: nat)
    requires OneStageEach(dirOf) && Run(disks, who, acts, jobs, dirOf) && i <= k <= |acts|
    ensures !Lookup(disks[k].entry).Unreadable?
    ensures disks[i].entry.Some? ==> disks[k].entry == disks[i].entry && OneWriters(disks[k].entry.value, jobs)
    decreases k - i
  {
    RunSound(disks, who, acts, jobs, dirOf, k);
    if i < k {
      PublishedOnce(disks, who, acts, jobs, dirOf, i, k - 1);
      RunSound(disks, who, acts, jobs, dirOf, k - 1);
      StepKeepsSound(disks[k - 1], who[k - 1], acts[k - 1], disks[k], jobs, dirOf);
    }
  }

  /** Every store that succeeds, at whatever point of the run, returns the same meta:
      the published one. */
  lemma {:induction false} StoresAgree(disks: seq<Disk>, who: seq<nat>, acts: seq<Step>, jobs: set<Job>, dirOf: nat -> nat,
                                       i: nat, p: nat, k: nat, q: nat)
    requires OneStageEach(dirOf) && Run(disks, who, acts, jobs, dirOf) && i <= k <= |acts|
    requires p in disks[i].procs && disks[i].procs[p].phase.Done? && disks[i].procs[p].phase.outcome.Stored?
    requires q in disks[k].procs && disks[k].procs[q].phase.Done? && disks[k].procs[q].phase.outcome.Stored?
    ensures disks[i].procs[p].phase.outcome == disks[k].procs[q].phase.outcome
    ensures Lookup(disks[k].entry) == Found(disks[k].procs[q].phase.outcome.meta)
  {
    RunSound(disks, who, acts, jobs, dirOf, i);
    RunSound(disks, who, acts, jobs, dirOf, k);
    assert StageMatches(disks[i], p, dirOf(p)) && StageMatches(disks[k], q, dirOf(q));
    PublishedOnce(disks, who, acts, jobs, dirOf, i, k);
  }

  // --- finishing ------------------------------------------------------------------------

  /** How many of its own operations a writer has left at most. */
  function Left(phase: Phase): nat {
    match phase
    case Looking => 10 case Missed => 9 case Cleared => 8 case Made => 7 case Copying => 6 case Copied => 5
    case Writing => 4 case Written => 3 case Lost => 2 case Swept => 1 case Done(_) => 0
  }

  /** How many of the steps from `i` to `k` are this writer's. */
  function OwnSteps(who: seq<nat>, p: nat, i: nat, k: nat): nat
    requires i <= k <= |who|
    decreases k - i
  { if i == k then 0 else OwnSteps(who, p, i, k - 1) + (if who[k - 1] == p then 1 else 0) }

  /** A writer none of whose operations fails always has a next one until it is done, is
      done after at most ten of its own, whatever the others do between them, and then
      holds the published meta: racing builders converge. */
  lemma {:induction false} OwnStepsFinish(disks: seq<Disk>, who: seq<nat>, acts: seq<Step>, jobs: set<Job>, dirOf: nat -> nat,
                                          p: nat, i: nat, k: nat)
    requires OneStageEach(dirOf) && Run(disks, who, acts, jobs, dirOf) && i <= k <= |acts|
    requires p in disks[i].procs && disks[i].procs[p].phase.Looking?
    requires forall x | i <= x < k && who[x] == p :: acts[x].Advance?
    ensures p in disks[k].procs && OwnSteps(who, p, i, k) + Left(disks[k].procs[p].phase) <= 10
    ensures !disks[k].procs[p].phase.Done? ==> exists s :: Takes(disks[k], p, Advance, s, dirOf)
    ensures disks[k].procs[p].phase.Done? ==>
              && disks[k].procs[p].phase.outcome.Stored?
              && Lookup(disks[k].entry) == Found(disks[k].procs[p].phase.outcome.meta)
    ensures OwnSteps(who, p, i, k) == 10 ==> disks[k].procs[p].phase.Done?
    decreases k - i
  {
    RunSound(disks, who, acts, jobs, dirOf, k);
    if i < k {
      assert Takes(disks[k - 1], who[k - 1], acts[k - 1], disks[k], dirOf) && Asks(acts[k - 1], jobs);
      RunSound(disks, who, acts, jobs, dirOf, k - 1);
      OwnStepsFinish(disks, who, acts, jobs, dirOf, p, i, k - 1);
      hide Run, Sound, Takes, Lookup;
      StepCounts(disks[k - 1], who[k - 1], acts[k - 1], disks[k], jobs, dirOf, p);
    }
    hide Run;
    HasNext(disks[k], jobs, dirOf, p);
  }

  /** A writer under way has a next operation; one that is done without a failure holds
      what is published. */
  lemma {:induction false} HasNext(s: Disk, jobs: set<Job>, dirOf: nat -> nat, p: nat)
    requires Sound(s, jobs, dirOf) && p in s.procs && s.procs[p].phase != Done(Failed)
    ensures !s.procs[p].phase.Done? ==> exists s' :: Takes(s, p, Advance, s', dirOf)
    ensures s.procs[p].phase.Done? ==>
              s.procs[p].phase.outcome.Stored? && Lookup(s.entry) == Found(s.procs[p].phase.outcome.meta)
  {
    assert StageMatches(s, p, dirOf(p));
    if !s.procs[p].phase.Done? {
      var s' := Operate(s, p, dirOf(p));
      hide Operate;
      assert Takes(s, p, Advance, s', dirOf);
    }
  }

  /** One step of a run, as a writer that is not failed sees it. */
  lemma {:induction false} StepCounts(s: Disk, q: nat, a: Step, s': Disk, jobs: set<Job>, dirOf: nat -> nat, p: nat)
    requires OneStageEach(dirOf) && Sound(s, jobs, dirOf) && Takes(s, q, a, s', dirOf) && Asks(a, jobs)
    requires p in s.procs && s.procs[p].phase != Done(Failed) && (q == p ==> a.Advance?)
    ensures p in s'.procs && s'.procs[p].phase != Done(Failed)
    ensures if q == p then Left(s'.procs[p].phase) < Left(s.procs[p].phase) else s'.procs[p] == s.procs[p]
  {
    if q == p {
      assert StageMatches(s, p, dirOf(p));
      OwnStep(s, p, a, s', jobs, dirOf);
    }
  }

  // --- one staging directory each -------------------------------------------------------

  ghost predicate Reachable(s: Disk, jobs: set<Job>, dirOf: nat -> nat) {
    exists disks, who, acts :: Run(disks, who, acts, jobs, dirOf) && disks[|acts|] == s
  }

  lemma {:induction false} Reached(s: Disk, p: nat, a: Step, s': Disk, jobs: set<Job>, dirOf: nat -> nat)
    requires Reachable(s, jobs, dirOf) && Takes(s, p, a, s', dirOf) && Asks(a, jobs)
    ensures Reachable(s', jobs, dirOf)
  {
    var disks, who, acts :| Run(disks, who, acts, jobs, dirOf) && disks[|acts|] == s;
    hide Takes, Asks;
    assert Run(disks + [s'], who + [p], acts + [a], jobs, dirOf);
  }

  /** Whatever is published is one writer's artifact beside its meta. */
  ghost predicate PublishesWhole(jobs: set<Job>, dirOf: nat -> nat) {
    forall s :: Reachable(s, jobs, dirOf) && s.entry.Some? ==> OneWriters(s.entry.value, jobs)
  }

  /** Two writers of one process under way in the shared directory. */
  function Sharing(job: Job, p: nat, q: nat, first: Phase, second: Phase, stages: map<nat, Dir>): Disk {
    Disk(None, stages, map[p := Proc(job, first), q := Proc(job, second)])
  }

  lemma {:induction false} PhasesChange(job: Job, p: nat, q: nat, first: Phase, second: Phase, stages: map<nat, Dir>, next: Phase)
    requires p != q
    ensures With(Sharing(job, p, q, first, second, stages), p, next) == Sharing(job, p, q, next, second, stages)
    ensures With(Sharing(job, p, q, first, second, stages), q, next) == Sharing(job, p, q, first, next, stages)
  {
    assert map[p := Proc(job, first), q := Proc(job, second)][p := Proc(job, next)] == map[p := Proc(job, next), q := Proc(job, second)];
    assert map[p := Proc(job, first), q := Proc(job, second)][q := Proc(job, next)] == map[p := Proc(job, first), q := Proc(job, next)];
  }

  /** One of the two advances. */
  lemma {:induction false} Moves(s: Disk, w: nat, s': Disk, job: Job, dirOf: nat -> nat)
    requires Reachable(s, {job}, dirOf) && w in s.procs && !s.procs[w].phase.Done? && s' == Operate(s, w, dirOf(w))
    ensures Reachable(s', {job}, dirOf)
  {
    hide Reachable, Operate;
    Reached(s, w, Advance, s', {job}, dirOf);
  }

  lemma {:induction false} BothLook(job: Job, p: nat, q: nat, dirOf: nat -> nat)
    requires p != q
    ensures Reachable(Sharing(job, p, q, Looking, Looking, map[]), {job}, dirOf)
  {
    hide Reachable;
    var none, one := Disk(None, map[], map[]), Disk(None, map[], map[p := Proc(job, Looking)]);
    NothingYet({job}, dirOf);
    Reached(none, p, Start(job), one, {job}, dirOf);
    Reached(one, q, Start(job), Sharing(job, p, q, Looking, Looking, map[]), {job}, dirOf);
  }

  lemma {:induction false} BothMiss(job: Job, p: nat, q: nat, dirOf: nat -> nat)
    requires p != q
    ensures Reachable(Sharing(job, p, q, Missed, Missed, map[]), {job}, dirOf)
  {
    hide Reachable, Sharing;
    var a, b := Sharing(job, p, q, Looking, Looking, map[]), Sharing(job, p, q, Looking, Missed, map[]);
    SharingIs(job, p, q, Looking, Looking, map[]);
    SharingIs(job, p, q, Looking, Missed, map[]);
    PhasesChange(job, p, q, Looking, Looking, map[], Missed);
    PhasesChange(job, p, q, Looking, Missed, map[], Missed);
    BothLook(job, p, q, dirOf);
    Moves(a, q, b, job, dirOf);
    Moves(b, p, Sharing(job, p, q, Missed, Missed, map[]), job, dirOf);
  }

  lemma {:induction false} SharingIs(job: Job, p: nat, q: nat, first: Phase, second: Phase, stages: map<nat, Dir>)
    requires p != q
    ensures var s := Sharing(job, p, q, first, second, stages);
            && s.entry == None && s.stages == stages && p in s.procs && q in s.procs
            && s.procs[p] == Proc(job, first) && s.procs[q] == Proc(job, second)
  {}

  /** The one writer moves on in the directory as it stands. */
  lemma {:induction false} FirstMoves(job: Job, p: nat, q: nat, first: Phase, second: Phase, stages: map<nat, Dir>,
                                      next: Phase, stages': map<nat, Dir>, dirOf: nat -> nat)
    requires p != q && !first.Done? && Reachable(Sharing(job, p, q, first, second, stages), {job}, dirOf)
    requires Operate(Sharing(job, p, q, first, second, stages), p, dirOf(p))
          == With(Sharing(job, p, q, first, second, stages), p, next).(stages := stages')
    ensures Reachable(Sharing(job, p, q, next, second, stages'), {job}, dirOf)
  {
    hide Reachable, Operate;
    PhasesChange(job, p, q, first, second, stages, next);
    SharingIs(job, p, q, first, second, stages);
    hide With;
    Moves(Sharing(job, p, q, first, second, stages), p, Sharing(job, p, q, next, second, stages'), job, dirOf);
  }

  lemma {:induction false} SecondMoves(job: Job, p: nat, q: nat, first: Phase, second: Phase, stages: map<nat, Dir>,
                                       next: Phase, stages': map<nat, Dir>, dirOf: nat -> nat)
    requires p != q && !second.Done? && Reachable(Sharing(job, p, q, first, second, stages), {job}, dirOf)
    requires Operate(Sharing(job, p, q, first, second, stages), q, dirOf(q))
          == With(Sharing(job, p, q, first, second, stages), q, next).(stages := stages')
    ensures Reachable(Sharing(job, p, q, first, next, stages'), {job}, dirOf)
  {
    hide Reachable, Operate;
    PhasesChange(job, p, q, first, second, stages, next);
    SharingIs(job, p, q, first, second, stages);
    hide With;
    Moves(Sharing(job, p, q, first, second, stages), q, Sharing(job, p, q, first, next, stages'), job, dirOf);
  }

  lemma {:induction false} FirstMakes(job: Job, p: nat, q: nat, d: nat, dirOf: nat -> nat)
    requires p != q && dirOf(p) == d == dirOf(q)
    ensures Reachable(Sharing(job, p, q, Made, Missed, map[d := EMPTY]), {job}, dirOf)
  {
    hide Reachable, Sharing;
    BothMiss(job, p, q, dirOf);
    var none: map<nat, Dir> := map[];
    assert none - {d} == none && none[d := EMPTY] == map[d := EMPTY];
    SharingIs(job, p, q, Missed, Missed, none);
    FirstMoves(job, p, q, Missed, Missed, none, Cleared, none, dirOf);
    SharingIs(job, p, q, Cleared, Missed, none);
    FirstMoves(job, p, q, Cleared, Missed, none, Made, map[d := EMPTY], dirOf);
  }

  /** The one writer has copied its artifact when the other clears the directory. */
  lemma {:induction false} CopiedThenCleared(job: Job, p: nat, q: nat, d: nat, dirOf: nat -> nat)
    requires p != q && dirOf(p) == d == dirOf(q)
    ensures Reachable(Sharing(job, p, q, Copied, Cleared, map[]), {job}, dirOf)
  {
    hide Reachable, Sharing;
    var made, part, full := map[d := EMPTY], map[d := Dir(Partial(p), Missing)], map[d := Dir(Whole(job.artifact), Missing)];
    assert made[d := Dir(Partial(p), Missing)] == part && part[d := Dir(Whole(job.artifact), Missing)] == full;
    assert full - {d} == map[];
    FirstMakes(job, p, q, d, dirOf);
    SharingIs(job, p, q, Made, Missed, made);
    FirstMoves(job, p, q, Made, Missed, made, Copying, part, dirOf);
    SharingIs(job, p, q, Copying, Missed, part);
    FirstMoves(job, p, q, Copying, Missed, part, Copied, full, dirOf);
    SharingIs(job, p, q, Copied, Missed, full);
    SecondMoves(job, p, q, Copied, Missed, full, Cleared, map[], dirOf);
  }

  lemma {:induction false} NothingYet(jobs: set<Job>, dirOf: nat -> nat)
    ensures Reachable(Disk(None, map[], map[]), jobs, dirOf)
  {
    assert Run([Disk(None, map[], map[])], [], [], jobs, dirOf);
  }

  lemma {:induction false} MetaAlone(job: Job, p: nat, q: nat, d: nat, dirOf: nat -> nat)
    requires p != q && dirOf(p) == d == dirOf(q)
    ensures Reachable(Sharing(job, p, q, Written, Made, map[d := Dir(Missing, Whole(job.meta))]), {job}, dirOf)
  {
    hide Reachable, Sharing;
    var none: map<nat, Dir> := map[];
    var made, part, full := map[d := EMPTY], map[d := Dir(Missing, Partial(p))], map[d := Dir(Missing, Whole(job.meta))];
    assert none[d := EMPTY] == made && made[d := Dir(Missing, Partial(p))] == part;
    assert part[d := Dir(Missing, Whole(job.meta))] == full;
    CopiedThenCleared(job, p, q, d, dirOf);
    SharingIs(job, p, q, Copied, Cleared, none);
    SecondMoves(job, p, q, Copied, Cleared, none, Made, made, dirOf);
    SharingIs(job, p, q, Copied, Made, made);
    FirstMoves(job, p, q, Copied, Made, made, Writing, part, dirOf);
    SharingIs(job, p, q, Writing, Made, part);
    FirstMoves(job, p, q, Writing, Made, part, Written, full, dirOf);
  }

  /** Two writers in one directory can publish meta without an artifact: the second
      clears what the first has copied, and the first goes on. */
  lemma {:induction false} SharedStagePublishesHalf(job: Job, p: nat, q: nat, dirOf: nat -> nat) returns (s: Disk)
    requires p != q && dirOf(p) == dirOf(q)
    ensures Reachable(s, {job}, dirOf) && s.entry == Some(Dir(Missing, Whole(job.meta)))
    ensures Lookup(s.entry) == Found(job.meta)
  {
    hide Reachable, Sharing;
    var d := dirOf(p);
    var was := Sharing(job, p, q, Written, Made, map[d := Dir(Missing, Whole(job.meta))]);
    MetaAlone(job, p, q, d, dirOf);
    SharingIs(job, p, q, Written, Made, map[d := Dir(Missing, Whole(job.meta))]);
    s := Operate(was, p, d);
    Moves(was, p, s, job, dirOf);
  }

  lemma {:induction false} ReachedAmongMore(s: Disk, job: Job, jobs: set<Job>, dirOf: nat -> nat)
    requires Reachable(s, {job}, dirOf) && job in jobs
    ensures Reachable(s, jobs, dirOf)
  {
    var disks, who, acts :| Run(disks, who, acts, {job}, dirOf) && disks[|acts|] == s;
    hide Takes;
    forall i | 0 <= i < |acts| ensures Asks(acts[i], jobs) {}
    assert Run(disks, who, acts, jobs, dirOf);
  }

  /** Whatever is asked of the writers, every run publishes only whole entries exactly
      when no two of them share a staging directory. */
  lemma {:induction false} PublishesWholeIff(jobs: set<Job>, dirOf: nat -> nat)
    requires jobs != {}
    ensures PublishesWhole(jobs, dirOf) <==> OneStageEach(dirOf)
  {
    hide OneWriters;
    if OneStageEach(dirOf) {
      forall s | Reachable(s, jobs, dirOf) && s.entry.Some? ensures OneWriters(s.entry.value, jobs) {
        var disks, who, acts :| Run(disks, who, acts, jobs, dirOf) && disks[|acts|] == s;
        RunSound(disks, who, acts, jobs, dirOf, |acts|);
      }
    } else {
      var p, q :| p != q && dirOf(p) == dirOf(q);
      var job :| job in jobs;
      var s := SharedStagePublishesHalf(job, p, q, dirOf);
      ReachedAmongMore(s, job, jobs, dirOf);
      hide Reachable;
      assert !OneWriters(s.entry.value, jobs) by { HalfIsNobodys(s.entry.value, jobs); }
    }
  }

  lemma {:induction false} HalfIsNobodys(d: Dir, jobs: set<Job>)
    requires d.artifact.Missing?
    ensures !OneWriters(d, jobs)
  {}

  // --- the store of one writer, among the others -------------------------------------

  /** What one writer may count on from the rest: a published entry stays, a new one is
      complete, and nobody touches its staging directory `d`. */
  ghost predicate Respects(entry: Option<Dir>, stages: map<nat, Dir>, entry': Option<Dir>, stages': map<nat, Dir>, d: nat) {
    && (entry.Some? ==> entry' == entry)
    && (entry'.Some? ==> entry == entry' || Complete(entry'.value))
    && (d in stages <==> d in stages') && (d in stages ==> stages[d] == stages'[d])
  }

  /** Every step of every other writer keeps to that. */
  lemma {:induction false} OthersRespect(s: Disk, q: nat, a: Step, s': Disk, jobs: set<Job>, dirOf: nat -> nat, p: nat)
    requires OneStageEach(dirOf) && Sound(s, jobs, dirOf) && Takes(s, q, a, s', dirOf) && Asks(a, jobs) && q != p
    ensures Respects(s.entry, s.stages, s'.entry, s'.stages, dirOf(p))
  {
    StepKeepsSound(s, q, a, s', jobs, dirOf);
    hide StageMatches;
  }

  /** Looking, preparing the stage, copying, writing the meta, renaming, looking again. */
  const OPERATIONS: nat := 6

  class Cache {
    var entry: Option<Dir>
    var stages: map<nat, Dir>

    ghost predicate Valid()
      reads this
    { entry.Some? ==> Complete(entry.value) }

    constructor ()
      ensures Valid() && entry.None? && stages == map[]
    {
      entry, stages := None, map[];
    }

    /** Whatever the other writers do between two operations of the one staging at `pid`. */
    method Interfere(pid: nat)
      requires Valid()
      modifies this
      ensures Valid() && Respects(old(entry), old(stages), entry, stages, pid)
    {
      var published: Option<Dir> := *;
      if entry.None? && published.Some? && published.value.artifact.Whole? && published.value.meta.Whole? {
        entry := published;
      }
      var others: map<nat, Dir> := *;
      stages := if pid in stages then others[pid := stages[pid]] else others - {pid};
    }

    method Put(pid: nat, d: Dir)
      requires Valid()
      modifies this
      ensures Valid() && pid in stages && stages[pid] == d && (old(entry).Some? ==> entry == old(entry))
    {
      stages := stages[pid := d];
      Interfere(pid);
    }

    /** Removes the staging directory, or fails to, which is ignored. */
    method Sweep(pid: nat)
      requires Valid()
      modifies this
      ensures Valid() && (old(entry).Some? ==> entry == old(entry))
    {
      var fails: bool := *;
      if !fails { stages := stages - {pid}; }
      Interfere(pid);
    }

    /** Stores an artifact; the operations that `fails` names fail.  A success names the
        published meta.  It is this call's own exactly when its rename went through:
        then nothing was published before, the entry is its artifact beside its meta,
        and its staging directory is gone.  A store that lost the race may leave one.
        Only a failing operation makes a store fail. */
    method Store(pid: nat, artifact: Content, meta: Meta, fails: nat -> bool) returns (r: Outcome, ghost own: bool)
      requires Valid()
      modifies this
      ensures Valid() && (old(entry).Some? ==> entry == old(entry) && !own)
      ensures r.Stored? ==> Lookup(entry) == Found(r.meta)
      ensures own ==> r == Stored(meta) && entry == Some(Dir(Whole(artifact), Whole(meta))) && pid !in stages
      ensures r.Failed? ==> !own && exists k: nat :: k < OPERATIONS && fails(k)
      ensures old(entry).Some? && !fails(0) ==> r == Stored(old(entry).value.meta.value) && stages == old(stages)
    {
      own := false;
      if fails(0) { return Failed, own; }
      if entry.Some? { return Stored(entry.value.meta.value), own; }
      Interfere(pid);
      if fails(1) { return Failed, own; }
      stages := stages - {pid};
      Interfere(pid);
      Put(pid, EMPTY);
      Put(pid, Dir(Partial(pid), Missing));
      if fails(2) { return Failed, own; }
      Put(pid, Dir(Whole(artifact), Missing));
      Put(pid, Dir(Whole(artifact), Partial(pid)));
      if fails(3) { return Failed, own; }
      Put(pid, Dir(Whole(artifact), Whole(meta)));
      if entry.None? && !fails(4) {
        entry, stages, own := Some(stages[pid]), stages - {pid}, true;
        return Stored(meta), own;
      }
      Interfere(pid);
      var lost := entry.Some?;
      Sweep(pid);
      r := if lost && !fails(5) then Stored(entry.value.meta.value) else Failed;
    }
  }

  // --- the key ----------------------------------------------------------------------

  type Bytes = seq<nat>

  /** What the key hashes: every part, each closed by a NUL. */
  function Preimage(parts: seq<Bytes>): Bytes {
    if parts == [] then [] else parts[0] + [0] + Preimage(parts[1..])
  }

  predicate NulFree(part: Bytes) { 0 !in part }

  lemma {:induction false} NulStandsFirst(a: Bytes, x: Bytes)
    requires NulFree(a)
    ensures (a + [0] + x)[|a|] == 0 && forall k | 0 <= k < |a| :: (a + [0] + x)[k] != 0
  {}

  lemma {:induction false} FirstNul(a: Bytes, x: Bytes, b: Bytes, y: Bytes)
    requires NulFree(a) && NulFree(b) && a + [0] + x == b + [0] + y
    ensures a == b && x == y
  {
    var l, r := a + [0] + x, b + [0] + y;
    NulStandsFirst(a, x);
    NulStandsFirst(b, y);
    assert a == l[..|a|] && b == r[..|b|];
    assert x == l[|a| + 1..] && y == r[|b| + 1..];
  }

  /** On parts without a NUL, different lists of parts are hashed as different bytes. */
  lemma {:induction false} PreimageInjective(a: seq<Bytes>, b: seq<Bytes>)
    requires (forall i | 0 <= i < |a| :: NulFree(a[i])) && forall i | 0 <= i < |b| :: NulFree(b[i])
    requires Preimage(a) == Preimage(b)
    ensures a == b
  {
    if a == [] {
      NothingHashed(b);
    } else if b == [] {
      NothingHashed(a);
    } else {
      FirstNul(a[0], Preimage(a[1..]), b[0], Preimage(b[1..]));
      PreimageInjective(a[1..], b[1..]);
      assert a == [a[0]] + a[1..] && b == [b[0]] + b[1..];
    }
  }

  lemma {:induction false} NothingHashed(parts: seq<Bytes>)
    ensures Preimage(parts) == [] <==> parts == []
  {
    if parts != [] { assert |Preimage(parts)| >= 1; }
  }

  /** A part holding a NUL reads as two: for every two parts there is such a clash. */
  lemma {:induction false} NulInsidePartClashes(x: Bytes, y: Bytes)
    ensures Preimage([x + [0] + y]) == Preimage([x, y]) && [x + [0] + y] != [x, y]
  {
    assert [x, y][1..] == [y] && [y][1..] == [] && [x + [0] + y][1..] == [];
    assert Preimage([y]) == y + [0];
    assert Preimage([x + [0] + y]) == x + [0] + y + [0];
  }
}
