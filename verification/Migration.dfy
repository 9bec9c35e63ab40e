/** Moving a guest between two hosts: pre-copy, cutover and rollback of `app/migrate.py`,
    as a machine whose steps are single commands of any number of interleaved jobs.

    A step carries whether its command works. A command that fails changes nothing;
    a query that fails answers nothing, which the code reads as "not running" or "not there".
    Guests may go down by themselves at any time, but nobody outside starts one. */
module Migration {

  /** `sourceUp` and `targetUp`: where the guest runs. `locked`: the lock in the
      source's configuration. `onTarget`: the target has a configuration of that identifier. */
  datatype World = World(sourceUp: bool, targetUp: bool, locked: bool, onTarget: bool, jobs: seq<Job>)

  datatype Job =
    | PreCopy(done: bool)
    | Cutover(start: bool, at: CutoverStep)
    | Rollback(restart: bool, at': RollbackStep)

  datatype CutoverStep =
    | CheckIdentifier
    | ReadConfig
    | Shutdown
    | AskIfDown
    | ForceStop
    | AskAgain
    | Transfer
    | AskConfig
    | WriteConfig
    | LockSource
    | StartTarget(sourceLocked: bool)
    | Failed
    | Finished(sourceLocked': bool, started: bool)

  /** Every later step knows what the earlier steps have reported. */
  datatype RollbackStep =
    | StopTarget
    | AskTarget
    | RemoveConfig(stopped: bool)
    | Unlock(stopped: bool, removed: bool)
    | StartSource(stopped: bool, removed: bool, unlocked: bool)
    | RolledBack(stopped: bool, removed: bool, unlocked: bool, started': bool)

  datatype Event =
    | Begin(job: Job)
    | Step(i: nat, works: bool)
    | GoesDown(source: bool, target: bool)

  predicate IsNew(j: Job) {
    match j
    case PreCopy(done) => !done
    case Cutover(_, at) => at == CheckIdentifier
    case Rollback(_, at) => at == StopTarget
  }

  predicate Both(w: World) { w.sourceUp && w.targetUp }

  // ------------------------------------------------------------------- the steps

  /** One command of a cutover. */
  function CutoverAct(w: World, start: bool, at: CutoverStep, works: bool): (World, CutoverStep) {
    match at
    case CheckIdentifier => (w, if works && w.onTarget then Failed else ReadConfig)
    case ReadConfig => (w, if works then Shutdown else Failed)
    case Shutdown => (w.(sourceUp := w.sourceUp && !works), AskIfDown)
    case AskIfDown => (w, if works && w.sourceUp then ForceStop else Transfer)
    case ForceStop => (w.(sourceUp := w.sourceUp && !works), AskAgain)
    case AskAgain => (w, if works && w.sourceUp then Failed else Transfer)
    case Transfer => (w, if works then AskConfig else Failed)
    case AskConfig => (w, if works && w.onTarget then Failed else WriteConfig)
    case WriteConfig => (w.(onTarget := w.onTarget || works), if works then LockSource else Failed)
    case LockSource =>
      (w.(locked := w.locked || works), if start then StartTarget(works) else Finished(works, false))
    case StartTarget(sourceLocked) =>
      (w.(targetUp := w.targetUp || (works && w.onTarget)), Finished(sourceLocked, works && w.onTarget))
    case Failed => (w, at)
    case Finished(_, _) => (w, at)
  }

  /** One command of a rollback. It goes on to the next command whatever the last one did. */
  function RollbackAct(w: World, restart: bool, at: RollbackStep, works: bool): (World, RollbackStep) {
    match at
    case StopTarget => (w.(targetUp := w.targetUp && !works), AskTarget)
    case AskTarget => (w, RemoveConfig(!(works && w.targetUp)))
    case RemoveConfig(stopped) => (w.(onTarget := w.onTarget && !works), Unlock(stopped, works))
    case Unlock(stopped, removed) => (w.(locked := w.locked && !works), StartSource(stopped, removed, works))
    case StartSource(stopped, removed, unlocked) =>
      var starts := restart && works && !w.locked;
      (w.(sourceUp := w.sourceUp || starts), RolledBack(stopped, removed, unlocked, starts || !restart))
    case RolledBack(_, _, _, _) => (w, at)
  }

  function Act(w: World, j: Job, works: bool): (World, Job) {
    match j
    case PreCopy(_) => (w, PreCopy(true))
    case Cutover(start, at) => var (v, next) := CutoverAct(w, start, at, works); (v, Cutover(start, next))
    case Rollback(restart, at) => var (v, next) := RollbackAct(w, restart, at, works); (v, Rollback(restart, next))
  }

  function Next(w: World, e: Event): World {
    match e
    case Begin(job) => if IsNew(job) then w.(jobs := w.jobs + [job]) else w
    case GoesDown(source, target) => w.(sourceUp := w.sourceUp && !source, targetUp := w.targetUp && !target)
    case Step(i, works) =>
      if i < |w.jobs| then var (v, job) := Act(w, w.jobs[i], works); v.(jobs := w.jobs[i := job]) else w
  }

  function After(w: World, run: seq<Event>): World {
    if run == [] then w else Next(After(w, run[..|run| - 1]), run[|run| - 1])
  }

  /** Jobs begin before their first command, and guests that go down by themselves only go down. */
  lemma OtherEvents(w: World, source: bool, target: bool, start: bool)
    ensures var v := Next(w, GoesDown(source, target));
            && (if source then !v.sourceUp else v.sourceUp == w.sourceUp)
            && (if target then !v.targetUp else v.targetUp == w.targetUp)
            && v == w.(sourceUp := v.sourceUp, targetUp := v.targetUp)
    ensures Next(w, Begin(PreCopy(false))).jobs == w.jobs + [PreCopy(false)]
    ensures Next(w, Begin(Cutover(start, CheckIdentifier))).jobs == w.jobs + [Cutover(start, CheckIdentifier)]
    ensures Next(w, Begin(Rollback(start, StopTarget))).jobs == w.jobs + [Rollback(start, StopTarget)]
  {
  }

  // --------------------------------------------------------- what a run must keep

  predicate ActiveCutover(j: Job) { j.Cutover? && !j.at.Failed? && !j.at.Finished? }

  predicate ActiveRollback(j: Job) { j.Rollback? && !j.at'.RolledBack? }

  /** A status query stays silent although the guest it asks for is up. */
  predicate Misheard(w: World, e: Event) {
    && e.Step? && e.i < |w.jobs| && !e.works
    && var j := w.jobs[e.i];
      || (j.Cutover? && (j.at.AskIfDown? || j.at.AskAgain?) && w.sourceUp)
      || (j.Rollback? && j.at'.AskTarget? && w.targetUp)
  }

  predicate StopConfirmed(at: CutoverStep) {
    at.Transfer? || at.AskConfig? || at.WriteConfig? || at.LockSource? || at.StartTarget?
  }

  /** What an active job has confirmed is still so. */
  predicate Holds(w: World, j: Job) {
    match j
    case PreCopy(_) => true
    case Cutover(_, at) => (StopConfirmed(at) ==> !w.sourceUp) && (at.StartTarget? && at.sourceLocked ==> w.locked)
    case Rollback(_, at) =>
      match at
      case RemoveConfig(stopped) => stopped ==> !w.targetUp
      case Unlock(stopped, removed) => (stopped ==> !w.targetUp) && (removed ==> !w.onTarget)
      case StartSource(stopped, removed, unlocked) =>
        (stopped ==> !w.targetUp) && (removed ==> !w.onTarget) && (unlocked ==> !w.locked)
      case _ => true
  }

  predicate KnowsStopped(at: RollbackStep) { (at.RemoveConfig? || at.Unlock? || at.StartSource?) && at.stopped }

  predicate KnowsRemoved(at: RollbackStep) { (at.Unlock? || at.StartSource?) && at.removed }

  /** The next command of `doer`, when it works, undoes what `j` has confirmed: a rollback under
      a cutover that relies on the stopped or locked source, a cutover under a rollback that
      relies on the stopped, removed or unlocked guest. */
  predicate Undoes(w: World, doer: Job, j: Job) {
    match doer
    case PreCopy(_) => false
    case Rollback(restart, at) =>
      && j.Cutover?
      && ((at.StartSource? && restart && !w.locked && StopConfirmed(j.at)) ||
          (at.Unlock? && j.at.StartTarget? && j.at.sourceLocked))
    case Cutover(_, at) =>
      && j.Rollback?
      && ((at.StartTarget? && w.onTarget && KnowsStopped(j.at')) ||
          (at.WriteConfig? && KnowsRemoved(j.at')) ||
          (at.LockSource? && j.at'.StartSource? && j.at'.unlocked))
  }

  /** The step mishears for job `i`, or is another job's and undoes what job `i` has confirmed. */
  predicate Breaks(w: World, e: Event, i: nat) {
    && e.Step? && e.i < |w.jobs| && i < |w.jobs|
    && if e.i == i then Misheard(w, e) else e.works && Undoes(w, w.jobs[e.i], w.jobs[i])
  }

  lemma ActOnOther(w: World, j: Job, works: bool, other: Job)
    requires Holds(w, other)
    ensures Holds(Act(w, j, works).0, other) <==> !(works && Undoes(w, j, other))
  {
  }

  lemma ActOnItself(w: World, j: Job, works: bool)
    requires Holds(w, j)
    ensures Holds(Act(w, j, works).0, Act(w, j, works).1) <==> !Misheard(w.(jobs := [j]), Step(0, works))
    ensures ActiveCutover(Act(w, j, works).1) ==> ActiveCutover(j)
    ensures ActiveRollback(Act(w, j, works).1) ==> ActiveRollback(j)
  {
  }

  /** What a job has confirmed stays so over a step exactly when the step does not break it. */
  lemma StaysUnlessBroken(w: World, e: Event, i: nat)
    requires i < |w.jobs| && Holds(w, w.jobs[i])
    ensures i < |Next(w, e).jobs| && (Holds(Next(w, e), Next(w, e).jobs[i]) <==> !Breaks(w, e, i))
  {
    if e.Step? && e.i < |w.jobs| {
      if e.i == i {
        ActOnItself(w, w.jobs[i], e.works);
      } else {
        ActOnOther(w, w.jobs[e.i], e.works, w.jobs[i]);
      }
    }
  }

  ghost predicate HoldsAt(w: World, run: seq<Event>, k: nat, i: nat) requires k <= |run| {
    var v := After(w, run[..k]);
    i < |v.jobs| ==> Holds(v, v.jobs[i])
  }

  ghost predicate BrokenAt(w: World, run: seq<Event>, k: nat, i: nat) requires k < |run| {
    Breaks(After(w, run[..k]), run[k], i)
  }

  lemma {:induction false} OneFurther(w: World, run: seq<Event>, k: nat)
    requires k < |run|
    ensures After(w, run[..k + 1]) == Next(After(w, run[..k]), run[k])
  {
    assert run[..k + 1][..k] == run[..k];
  }

  lemma HoldsOneFurther(w: World, run: seq<Event>, k: nat, i: nat)
    requires k < |run| && HoldsAt(w, run, k, i)
    ensures HoldsAt(w, run, k + 1, i) <==> !BrokenAt(w, run, k, i)
  {
    OneFurther(w, run, k);
    var v := After(w, run[..k]);
    if i < |v.jobs| {
      StaysUnlessBroken(v, run[k], i);
    }
  }

  /** In any run of any jobs, whatever fails, what job `i` has confirmed stays so
      throughout exactly when no step breaks it. */
  lemma {:induction false} UnbrokenIff(w: World, run: seq<Event>, i: nat)
    requires HoldsAt(w, run, 0, i)
    ensures (forall k :: 0 <= k <= |run| ==> HoldsAt(w, run, k, i)) <==>
            (forall k :: 0 <= k < |run| ==> !BrokenAt(w, run, k, i))
  {
    if forall k :: 0 <= k < |run| ==> !BrokenAt(w, run, k, i) {
      var n := 0;
      while n < |run|
        invariant n <= |run| && forall k :: 0 <= k <= n ==> HoldsAt(w, run, k, i)
      {
        HoldsOneFurther(w, run, n, i);
        n := n + 1;
      }
    } else {
      var k :| 0 <= k < |run| && BrokenAt(w, run, k, i);
      if HoldsAt(w, run, k, i) {
        HoldsOneFurther(w, run, k, i);
      }
    }
  }

  ghost predicate Unbroken(w: World, run: seq<Event>, i: nat) {
    HoldsAt(w, run, 0, i) && forall k :: 0 <= k < |run| ==> !BrokenAt(w, run, k, i)
  }

  lemma {:induction false} UnbrokenHolds(w: World, run: seq<Event>, i: nat)
    requires Unbroken(w, run, i) && i < |After(w, run).jobs|
    ensures Holds(After(w, run), After(w, run).jobs[i])
  {
    UnbrokenIff(w, run, i);
    assert run[..|run|] == run;
    assert HoldsAt(w, run, |run|, i);
  }

  // -------------------------------------------------- never on both hosts at once

  /** A rollback starts the unlocked source although the target runs. */
  predicate StartsBeside(w: World, e: Event) {
    && e.Step? && e.i < |w.jobs| && e.works && w.targetUp && !w.locked
    && var j := w.jobs[e.i]; j.Rollback? && j.restart && j.at'.StartSource?
  }

  /** A cutover starts the target although the source runs. */
  predicate TargetStartsBeside(w: World, e: Event) {
    && e.Step? && e.i < |w.jobs| && e.works && w.sourceUp && w.onTarget
    && var j := w.jobs[e.i]; j.Cutover? && j.at.StartTarget?
  }

  predicate BringsBoth(w: World, e: Event) { StartsBeside(w, e) || TargetStartsBeside(w, e) }

  /** One step brings a guest up on both hosts exactly when it is one of these two. */
  lemma BothByOneStep(w: World, e: Event)
    requires !Both(w)
    ensures Both(Next(w, e)) <==> BringsBoth(w, e)
  {
  }

  ghost predicate BothAt(w: World, run: seq<Event>, k: nat) requires k <= |run| { Both(After(w, run[..k])) }

  ghost predicate BringsAt(w: World, run: seq<Event>, k: nat) requires k < |run| {
    BringsBoth(After(w, run[..k]), run[k])
  }

  /** In any run of any jobs, the guest is on both hosts at some time exactly when some
      step starts it on one host although it runs on the other. */
  lemma {:induction false} BothIff(w: World, run: seq<Event>)
    requires !Both(w)
    ensures (exists k :: 0 <= k <= |run| && BothAt(w, run, k)) <==> (exists k :: 0 <= k < |run| && BringsAt(w, run, k))
  {
    if k :| 0 <= k < |run| && BringsAt(w, run, k) {
      OneFurther(w, run, k);
      if !BothAt(w, run, k) {
        BothByOneStep(After(w, run[..k]), run[k]);
      }
      assert BothAt(w, run, k) || BothAt(w, run, k + 1);
    } else {
      var n := 0;
      while n < |run|
        invariant n <= |run| && forall k :: 0 <= k <= n ==> !BothAt(w, run, k)
      {
        OneFurther(w, run, n);
        assert !BothAt(w, run, n) && !BringsAt(w, run, n);
        BothByOneStep(After(w, run[..n]), run[n]);
        n := n + 1;
      }
    }
  }

  /** Whoever brings the guest up beside its copy is a rollback that knows its stop has failed,
      or a job whose confirmation has been broken before. */
  lemma {:induction false} BothIsExplained(w: World, run: seq<Event>, i: nat, works: bool)
    requires HoldsAt(w, run, 0, i) && BringsBoth(After(w, run), Step(i, works))
    ensures var j := After(w, run).jobs[i];
            || (j.Rollback? && !j.at'.stopped)
            || (exists k :: 0 <= k < |run| && BrokenAt(w, run, k, i))
  {
    if Unbroken(w, run, i) {
      UnbrokenHolds(w, run, i);
    }
  }

  // ------------------------------------------------------------ jobs taking turns

  /** No rollback is begun beside a running cutover, nor the other way round. */
  predicate InTurn(w: World, e: Event) {
    && (e.Begin? && e.job.Rollback? ==> forall j :: j in w.jobs ==> !ActiveCutover(j))
    && (e.Begin? && e.job.Cutover? ==> forall j :: j in w.jobs ==> !ActiveRollback(j))
  }

  predicate Invariant(w: World) {
    && (forall i :: 0 <= i < |w.jobs| ==> Holds(w, w.jobs[i]))
    && forall i, j :: 0 <= i < |w.jobs| && 0 <= j < |w.jobs| ==>
                      !(ActiveCutover(w.jobs[i]) && ActiveRollback(w.jobs[j]))
  }

  /** With jobs in turn, everything confirmed stays so exactly when nothing is misheard. */
  lemma InvariantStaysIff(w: World, e: Event)
    requires Invariant(w) && InTurn(w, e)
    ensures Invariant(Next(w, e)) <==> !Misheard(w, e)
  {
    if e.Step? && e.i < |w.jobs| {
      ActOnItself(w, w.jobs[e.i], e.works);
      StaysUnlessBroken(w, e, e.i);
      forall k | 0 <= k < |w.jobs| && k != e.i ensures Holds(Next(w, e), w.jobs[k]) {
        assert !(ActiveCutover(w.jobs[e.i]) && ActiveRollback(w.jobs[k]));
        assert !(ActiveCutover(w.jobs[k]) && ActiveRollback(w.jobs[e.i]));
        ActOnOther(w, w.jobs[e.i], e.works, w.jobs[k]);
      }
    }
  }

  ghost predicate Disciplined(w: World, run: seq<Event>) {
    forall k :: 0 <= k < |run| ==> !Misheard(After(w, run[..k]), run[k]) && InTurn(After(w, run[..k]), run[k])
  }

  lemma {:induction false} InvariantAlways(w: World, run: seq<Event>, n: nat)
    requires Invariant(w) && Disciplined(w, run) && n <= |run|
    ensures Invariant(After(w, run[..n]))
  {
    if n > 0 {
      InvariantAlways(w, run, n - 1);
      OneFurther(w, run, n - 1);
      InvariantStaysIff(After(w, run[..n - 1]), run[n - 1]);
    }
  }

  /** With jobs in turn and nothing misheard, the guest is on both hosts at some time exactly
      when a rollback that could not stop the target starts the source beside it. */
  lemma {:induction false} BothOnlyByRollback(w: World, run: seq<Event>)
    requires Invariant(w) && !Both(w) && Disciplined(w, run)
    ensures (exists k :: 0 <= k <= |run| && BothAt(w, run, k)) <==>
            (exists k :: 0 <= k < |run| && StartsBeside(After(w, run[..k]), run[k]))
  {
    BothIff(w, run);
    forall k | 0 <= k < |run| ensures BringsAt(w, run, k) <==> StartsBeside(After(w, run[..k]), run[k]) {
      InvariantAlways(w, run, k);
    }
  }

  predicate NoRollbacks(run: seq<Event>) { forall k :: 0 <= k < |run| && run[k].Begin? ==> !run[k].job.Rollback? }

  lemma {:induction false} NoRollbackJobs(w: World, run: seq<Event>)
    requires NoRollbacks(run) && forall j :: j in w.jobs ==> !j.Rollback?
    ensures forall j :: j in After(w, run).jobs ==> !j.Rollback?
  {
    if run != [] {
      NoRollbackJobs(w, run[..|run| - 1]);
    }
  }

  /** Any number of cutovers and pre-copies, interleaved in any way and failing anywhere:
      never on both, unless a status query stays silent about a running guest. */
  lemma {:induction false} CutoversAreSafe(w: World, run: seq<Event>)
    requires w.jobs == [] && !Both(w) && NoRollbacks(run)
    requires forall k :: 0 <= k < |run| ==> !Misheard(After(w, run[..k]), run[k])
    ensures forall k :: 0 <= k <= |run| ==> !BothAt(w, run, k)
  {
    forall k | 0 <= k < |run| ensures InTurn(After(w, run[..k]), run[k]) && !StartsBeside(After(w, run[..k]), run[k]) {
      NoRollbackJobs(w, run[..k]);
    }
    BothOnlyByRollback(w, run);
  }

  // ------------------------------------- no configuration of the target is overwritten

  predicate IsAt(w: World, i: nat, at: CutoverStep) {
    i < |w.jobs| && w.jobs[i].Cutover? && w.jobs[i].at == at
  }

  /** The step writes the configuration over one that is there. */
  predicate Overwrites(w: World, e: Event) { e.Step? && IsAt(w, e.i, WriteConfig) && e.works && w.onTarget }

  /** The step takes away what cutover `i` has confirmed, that the target has no such configuration: its
      own query stays silent although there is one, or another cutover writes one meanwhile. */
  predicate Takes(w: World, e: Event, i: nat) {
    && e.Step?
    && if e.i == i then IsAt(w, i, AskConfig) && !e.works && w.onTarget
       else IsAt(w, i, WriteConfig) && IsAt(w, e.i, WriteConfig) && e.works
  }

  /** A rollback removes the configuration. */
  predicate Removes(w: World, e: Event) {
    e.Step? && e.i < |w.jobs| && e.works && w.jobs[e.i].Rollback? && w.jobs[e.i].at'.RemoveConfig?
  }

  /** Since the configuration was last removed, a step has taken the confirmation of cutover `i`. */
  ghost predicate Taken(w: World, run: seq<Event>, i: nat) {
    run != [] &&
    var n := |run| - 1;
    var v := After(w, run[..n]);
    !Removes(v, run[n]) && (Takes(v, run[n], i) || Taken(w, run[..n], i))
  }

  /** The cutover has not got past its query yet. */
  predicate Asking(at: CutoverStep) {
    !at.WriteConfig? && !at.LockSource? && !at.StartTarget? && !at.Failed? && !at.Finished?
  }

  predicate NotAsked(w: World, i: nat) { i < |w.jobs| ==> w.jobs[i].Cutover? && Asking(w.jobs[i].at) }

  lemma OwnAsk(w: World, start: bool, at: CutoverStep, works: bool)
    ensures var (v, next) := CutoverAct(w, start, at, works);
            && (Asking(next) ==> Asking(at) && !(at.AskConfig? && !works && w.onTarget))
            && (next.WriteConfig? ==> at.AskConfig? && v.onTarget == w.onTarget && !(works && w.onTarget))
  {
  }

  /** What a command makes of the configuration on the target. */
  lemma ConfigAfter(w: World, j: Job, works: bool)
    ensures Act(w, j, works).0.onTarget <==>
            if works && j.Rollback? && j.at'.RemoveConfig? then false
            else w.onTarget || (works && j.Cutover? && j.at.WriteConfig?)
  {
  }

  lemma AskedStep(w: World, e: Event, i: nat)
    ensures NotAsked(Next(w, e), i) ==> NotAsked(w, i) && !Takes(w, e, i)
    ensures IsAt(Next(w, e), i, WriteConfig) ==> NotAsked(w, i) || IsAt(w, i, WriteConfig)
    ensures IsAt(Next(w, e), i, WriteConfig) && NotAsked(w, i) ==> (Next(w, e).onTarget <==> Takes(w, e, i))
    ensures IsAt(Next(w, e), i, WriteConfig) && IsAt(w, i, WriteConfig) ==>
      (Next(w, e).onTarget <==> !Removes(w, e) && (Takes(w, e, i) || w.onTarget))
  {
    if e.Step? && e.i < |w.jobs| {
      var j := w.jobs[e.i];
      ConfigAfter(w, j, e.works);
      if e.i == i && j.Cutover? {
        OwnAsk(w, j.start, j.at, e.works);
      }
    }
  }

  lemma {:induction false} TakenWhileAsking(w: World, run: seq<Event>, i: nat)
    requires w.jobs == []
    ensures NotAsked(After(w, run), i) ==> !Taken(w, run, i)
    ensures IsAt(After(w, run), i, WriteConfig) ==> (After(w, run).onTarget <==> Taken(w, run, i))
  {
    if run != [] {
      var n := |run| - 1;
      TakenWhileAsking(w, run[..n], i);
      AskedStep(After(w, run[..n]), run[n], i);
    }
  }

  /** "Never overwrite an existing guest on the target": in any run of any jobs, a cutover writes over a
      configuration exactly when, since that was last removed, its own query has stayed silent about
      one or another cutover has written one after it had asked. */
  lemma {:induction false} OverwritesIff(w: World, run: seq<Event>, i: nat)
    requires w.jobs == [] && IsAt(After(w, run), i, WriteConfig)
    ensures Overwrites(After(w, run), Step(i, true)) <==> Taken(w, run, i)
  {
    TakenWhileAsking(w, run, i);
  }

  // ------------------------------------------------------ what has been done by then

  /** In the run job `i` has taken a step from a state and with an outcome that `p` tells. */
  ghost predicate Took(w: World, run: seq<Event>, i: nat, p: (Job, bool) -> bool) {
    run != [] &&
    var n := |run| - 1;
    var v := After(w, run[..n]);
    (run[n].Step? && run[n].i == i && i < |v.jobs| && p(v.jobs[i], run[n].works)) || Took(w, run[..n], i, p)
  }

  /** The command of this step of a cutover worked; or was tried at all. */
  function Worked(at: CutoverStep): (Job, bool) -> bool { (j: Job, works: bool) => works && j.Cutover? && j.at == at }

  function Tried(at: CutoverStep): (Job, bool) -> bool { (j: Job, works: bool) => j.Cutover? && j.at == at }

  predicate PastReading(at: CutoverStep) { !at.CheckIdentifier? && !at.ReadConfig? && !at.Failed? }

  predicate PastShutdown(at: CutoverStep) { PastReading(at) && !at.Shutdown? }

  predicate PastTransfer(at: CutoverStep) { at.AskConfig? || at.WriteConfig? || PastWriting(at) }

  predicate PastWriting(at: CutoverStep) { at.LockSource? || at.StartTarget? || at.Finished? }

  predicate SaysLocked(at: CutoverStep) {
    (at.StartTarget? && at.sourceLocked) || (at.Finished? && at.sourceLocked')
  }

  /** What a cutover has done when it stands where it stands. */
  ghost predicate Accounted(w: World, run: seq<Event>, i: nat, start: bool, at: CutoverStep) {
    && (PastReading(at) ==> Took(w, run, i, Worked(ReadConfig)))
    && (PastShutdown(at) ==> Took(w, run, i, Tried(Shutdown)))
    && (at.AskAgain? ==> Took(w, run, i, Tried(ForceStop)))
    && (PastTransfer(at) ==> Took(w, run, i, Worked(Transfer)))
    && (PastWriting(at) ==> Took(w, run, i, Worked(WriteConfig)))
    && (SaysLocked(at) ==> Took(w, run, i, Worked(LockSource)))
    && (at.StartTarget? ==> start)
    && (at.Finished? && start ==> Took(w, run, i, Tried(StartTarget(at.sourceLocked'))))
    && (at.Finished? && at.started ==> start && Took(w, run, i, Worked(StartTarget(at.sourceLocked'))))
  }

  lemma {:induction false} TookLater(w: World, run: seq<Event>, i: nat, p: (Job, bool) -> bool)
    requires run != [] && Took(w, run[..|run| - 1], i, p)
    ensures Took(w, run, i, p)
  {
  }

  lemma AccountedLater(w: World, run: seq<Event>, i: nat, start: bool, at: CutoverStep)
    requires run != [] && Accounted(w, run[..|run| - 1], i, start, at)
    ensures Accounted(w, run, i, start, at)
  {
  }

  /** One own step: what the new place presupposes was done before or is done by this step. */
  lemma AccountedStep(w: World, start: bool, at: CutoverStep, works: bool)
    ensures var next := CutoverAct(w, start, at, works).1;
            && (PastReading(next) ==> PastReading(at) || (works && at == ReadConfig))
            && (PastShutdown(next) ==> PastShutdown(at) || at == Shutdown)
            && (next.AskAgain? ==> at == ForceStop)
            && (PastTransfer(next) ==> PastTransfer(at) || (works && at == Transfer))
            && (PastWriting(next) ==> PastWriting(at) || (works && at == WriteConfig))
            && (SaysLocked(next) ==> SaysLocked(at) || (works && at == LockSource))
            && (next.StartTarget? ==> start)
            && (next.Finished? && start ==> at == next || at == StartTarget(next.sourceLocked'))
            && (next.Finished? && next.started ==> at == next || (works && at == StartTarget(next.sourceLocked')))
  {
  }

  lemma {:induction false} AccountedByStep(w: World, run: seq<Event>, i: nat, start: bool, at: CutoverStep, works: bool)
    requires run != [] && run[|run| - 1] == Step(i, works) && Accounted(w, run, i, start, at)
    requires var v := After(w, run[..|run| - 1]); i < |v.jobs| && v.jobs[i] == Cutover(start, at)
    ensures Accounted(w, run, i, start, CutoverAct(After(w, run[..|run| - 1]), start, at, works).1)
  {
    AccountedStep(After(w, run[..|run| - 1]), start, at, works);
    assert Tried(at)(Cutover(start, at), works) && Took(w, run, i, Tried(at));
    if works {
      assert Worked(at)(Cutover(start, at), works) && Took(w, run, i, Worked(at));
    }
  }

  /** In any run of any jobs a cutover that has got past the transfer has had it work, and the
      same holds of every command whose success it goes on from or reports. */
  lemma {:induction false} CutoverIsAccounted(w: World, run: seq<Event>, i: nat)
    requires w.jobs == []
    ensures var v := After(w, run);
            i < |v.jobs| && v.jobs[i].Cutover? ==> Accounted(w, run, i, v.jobs[i].start, v.jobs[i].at)
  {
    if run != [] {
      var n := |run| - 1;
      var v, e := After(w, run[..n]), run[n];
      CutoverIsAccounted(w, run[..n], i);
      if i < |v.jobs| && v.jobs[i].Cutover? {
        AccountedLater(w, run, i, v.jobs[i].start, v.jobs[i].at);
        if e.Step? && e.i == i {
          AccountedByStep(w, run, i, v.jobs[i].start, v.jobs[i].at, e.works);
        }
      }
    }
  }

  /** A cutover gives up exactly when a query finds the identifier or the configuration on the target, or the
      guest still up after it was forced to stop, or when reading, sending or writing fails. */
  lemma CutoverFailsIff(w: World, start: bool, at: CutoverStep, works: bool)
    requires at != Failed
    ensures CutoverAct(w, start, at, works).1 == Failed <==>
            || (works && w.onTarget && (at == CheckIdentifier || at == AskConfig))
            || (works && w.sourceUp && at == AskAgain)
            || (!works && (at == ReadConfig || at == Transfer || at == WriteConfig))
  {
  }

  lemma CutoverEffects(w: World, start: bool, at: CutoverStep, works: bool)
    ensures var v := CutoverAct(w, start, at, works).0;
            && (v.onTarget != w.onTarget ==> works && at == WriteConfig)
            && (v.locked != w.locked ==> works && at == LockSource)
            && (v.targetUp != w.targetUp ==> works && at.StartTarget?)
            && (v.sourceUp != w.sourceUp ==> works && !v.sourceUp && (at == Shutdown || at == ForceStop))
  {
  }

  /** A cutover that changes anything on the target, or the lock of the source, has had its transfer work
      before; it changes the source only by a shutdown or stop that works. */
  lemma {:induction false} EffectsNeedTransfer(w: World, run: seq<Event>, i: nat, works: bool)
    requires w.jobs == [] && i < |After(w, run).jobs| && After(w, run).jobs[i].Cutover?
    ensures var v, r := After(w, run), Next(After(w, run), Step(i, works));
            && (r.onTarget != v.onTarget || r.locked != v.locked || r.targetUp != v.targetUp ==>
                  works && Took(w, run, i, Worked(Transfer)))
            && (r.sourceUp != v.sourceUp ==>
                  works && !r.sourceUp && (v.jobs[i].at == Shutdown || v.jobs[i].at == ForceStop))
  {
    CutoverIsAccounted(w, run, i);
    var v := After(w, run);
    CutoverEffects(v, v.jobs[i].start, v.jobs[i].at, works);
  }

  /** A transfer that fails ends the cutover, and nothing else changes then or later. */
  lemma FailedTransferEnds(w: World, i: nat, works: bool)
    requires IsAt(w, i, Transfer)
    ensures var r := Next(w, Step(i, false));
            r == w.(jobs := w.jobs[i := Cutover(w.jobs[i].start, Failed)]) && Next(r, Step(i, works)) == r
  {
  }

  function Place(at: RollbackStep): nat {
    match at
    case StopTarget => 0
    case AskTarget => 1
    case RemoveConfig(_) => 2
    case Unlock(_, _) => 3
    case StartSource(_, _, _) => 4
    case RolledBack(_, _, _, _) => 5
  }

  function TriedBack(n: nat): (Job, bool) -> bool { (j: Job, works: bool) => j.Rollback? && Place(j.at') == n }

  function WorkedBack(n: nat): (Job, bool) -> bool {
    (j: Job, works: bool) => works && j.Rollback? && Place(j.at') == n
  }

  /** A rollback has tried every command before the one it stands at, and what it reports as
      removed, unlocked or started is what worked. */
  ghost predicate AccountedBack(w: World, run: seq<Event>, i: nat, restart: bool, at: RollbackStep) {
    && (forall n :: 0 <= n < Place(at) ==> Took(w, run, i, TriedBack(n)))
    && ((at.Unlock? || at.StartSource? || at.RolledBack?) && at.removed ==> Took(w, run, i, WorkedBack(2)))
    && ((at.StartSource? || at.RolledBack?) && at.unlocked ==> Took(w, run, i, WorkedBack(3)))
    && (at.RolledBack? && at.started' && restart ==> Took(w, run, i, WorkedBack(4)))
  }

  lemma AccountedBackLater(w: World, run: seq<Event>, i: nat, restart: bool, at: RollbackStep)
    requires run != [] && AccountedBack(w, run[..|run| - 1], i, restart, at)
    ensures AccountedBack(w, run, i, restart, at)
  {
  }

  lemma {:induction false} AccountedBackStep(w: World, run: seq<Event>, i: nat, restart: bool, at: RollbackStep,
                                             works: bool)
    requires run != [] && run[|run| - 1] == Step(i, works) && AccountedBack(w, run, i, restart, at)
    requires var v := After(w, run[..|run| - 1]); i < |v.jobs| && v.jobs[i] == Rollback(restart, at)
    ensures AccountedBack(w, run, i, restart, RollbackAct(After(w, run[..|run| - 1]), restart, at, works).1)
  {
    var next := RollbackAct(After(w, run[..|run| - 1]), restart, at, works).1;
    forall n | 0 <= n < Place(next) ensures Took(w, run, i, TriedBack(n)) {
      if n >= Place(at) {
        assert TriedBack(n)(Rollback(restart, at), works);
      }
    }
    if works {
      assert WorkedBack(Place(at))(Rollback(restart, at), works);
    }
  }

  lemma {:induction false} RollbackIsAccounted(w: World, run: seq<Event>, i: nat)
    requires w.jobs == []
    ensures var v := After(w, run);
            i < |v.jobs| && v.jobs[i].Rollback? ==> AccountedBack(w, run, i, v.jobs[i].restart, v.jobs[i].at')
  {
    if run != [] {
      var n := |run| - 1;
      var v := After(w, run[..n]);
      RollbackIsAccounted(w, run[..n], i);
      if i < |v.jobs| && v.jobs[i].Rollback? {
        AccountedBackLater(w, run, i, v.jobs[i].restart, v.jobs[i].at');
        if run[n].Step? && run[n].i == i {
          AccountedBackStep(w, run, i, v.jobs[i].restart, v.jobs[i].at', run[n].works);
        }
      }
    }
  }

  /** What one command of a rollback changes, it changes by working; it goes on in any case. */
  lemma RollbackEffects(w: World, restart: bool, at: RollbackStep, works: bool)
    ensures var (v, next) := RollbackAct(w, restart, at, works);
            && (!at.RolledBack? ==> Place(next) == Place(at) + 1)
            && v.targetUp == (w.targetUp && !(works && at.StopTarget?))
            && v.onTarget == (w.onTarget && !(works && at.RemoveConfig?))
            && v.locked == (w.locked && !(works && at.Unlock?))
            && v.sourceUp == (w.sourceUp || (works && restart && !w.locked && at.StartSource?))
  {
  }

  // ------------------------------------------------------------ what a report means

  predicate ReportsSuccess(j: Job) {
    j.Rollback? && j.at'.RolledBack? && j.at'.stopped && j.at'.removed && j.at'.unlocked && j.at'.started'
  }

  /** A rollback that no other job breaks and that reports success ends with the guest stopped and
      removed on the target, unlocked on the source, and running there when that was asked for. */
  lemma {:induction false} SuccessfulRollback(w: World, run: seq<Event>, i: nat, works: bool)
    requires Unbroken(w, run, i)
    requires var m := After(w, run); i < |m.jobs| && !ReportsSuccess(m.jobs[i])
    requires ReportsSuccess(Next(After(w, run), Step(i, works)).jobs[i])
    ensures var r := Next(After(w, run), Step(i, works));
            !r.targetUp && !r.onTarget && !r.locked && (r.jobs[i].restart ==> r.sourceUp)
  {
    UnbrokenHolds(w, run, i);
  }

  lemma FinishingStep(w: World, start: bool, at: CutoverStep, works: bool)
    requires Holds(w, Cutover(start, at)) && !at.Finished? && CutoverAct(w, start, at, works).1.Finished?
    ensures var (r, done) := CutoverAct(w, start, at, works);
            !r.sourceUp && (done.started ==> r.targetUp && r.onTarget) && (done.sourceLocked' ==> r.locked)
  {
  }

  /** A cutover that no other job breaks leaves the guest, when it finishes, stopped on the source,
      locked there when it says so, and running on the target when it says so. */
  lemma {:induction false} FinishedCutover(w: World, run: seq<Event>, i: nat, works: bool)
    requires Unbroken(w, run, i)
    requires var m := After(w, run); i < |m.jobs| && m.jobs[i].Cutover? && !m.jobs[i].at.Finished?
    requires Act(After(w, run), After(w, run).jobs[i], works).1.at.Finished?
    ensures var r := Next(After(w, run), Step(i, works));
            && !r.sourceUp && (r.jobs[i].at.started ==> r.targetUp && r.onTarget)
            && (r.jobs[i].at.sourceLocked' ==> r.locked)
    ensures w.jobs == [] ==>
      && Took(w, run, i, Worked(ReadConfig)) && Took(w, run, i, Worked(Transfer))
      && Took(w, run, i, Worked(WriteConfig))
  {
    if w.jobs == [] {
      CutoverIsAccounted(w, run, i);
    }
    UnbrokenHolds(w, run, i);
    var m := After(w, run);
    FinishingStep(m, m.jobs[i].start, m.jobs[i].at, works);
  }

  // ----------------------------------------------------------- where it goes wrong

  /** The first `n` steps of the run lead from `w` to `v`. */
  ghost predicate Leads(w: World, run: seq<Event>, n: nat, v: World) { n <= |run| && After(w, run[..n]) == v }

  lemma Follow(w: World, run: seq<Event>, n: nat, v: World, next: World)
    requires Leads(w, run, n, v) && n < |run| && Next(v, run[n]) == next
    ensures Leads(w, run, n + 1, next)
  {
    OneFurther(w, run, n);
  }

  /** Steps `n` to `n + works` of the run are all of job `i`. */
  predicate Own(run: seq<Event>, n: nat, i: nat, works: seq<bool>) {
    n + |works| <= |run| && forall k :: n <= k < n + |works| ==> run[k] == Step(i, works[k - n])
  }

  /** One command of the job between `before` and `after`. */
  lemma FollowOwn(w: World, run: seq<Event>, n: nat, v: World, before: seq<Job>, j: Job, after: seq<Job>, works: bool)
    requires Leads(w, run, n, v.(jobs := before + [j] + after)) && n < |run| && run[n] == Step(|before|, works)
    ensures var (u, next) := Act(v, j, works); Leads(w, run, n + 1, u.(jobs := before + [next] + after))
  {
    var (u, next) := Act(v, j, works);
    var v' := v.(jobs := before + [j] + after);
    assert v'.jobs[|before|] == j && v'.jobs[|before| := next] == before + [next] + after;
    ActIgnoresJobs(v, v'.jobs, j, works);
    Follow(w, run, n, v', u.(jobs := before + [next] + after));
  }

  lemma FollowFirst(w: World, run: seq<Event>, n: nat, v: World, j: Job, after: seq<Job>, works: bool)
    requires Leads(w, run, n, v.(jobs := [j] + after)) && n < |run| && run[n] == Step(0, works)
    ensures var (u, next) := Act(v, j, works); Leads(w, run, n + 1, u.(jobs := [next] + after))
  {
    var (u, next) := Act(v, j, works);
    assert [] + [j] + after == [j] + after && [] + [next] + after == [next] + after;
    FollowOwn(w, run, n, v, [], j, after, works);
  }

  lemma FollowLast(w: World, run: seq<Event>, n: nat, v: World, before: seq<Job>, j: Job, works: bool)
    requires Leads(w, run, n, v.(jobs := before + [j])) && n < |run| && run[n] == Step(|before|, works)
    ensures var (u, next) := Act(v, j, works); Leads(w, run, n + 1, u.(jobs := before + [next]))
  {
    var (u, next) := Act(v, j, works);
    assert before + [j] + [] == before + [j] && before + [next] + [] == before + [next];
    FollowOwn(w, run, n, v, before, j, [], works);
  }

  lemma CutoverIgnoresJobs(v: World, jobs: seq<Job>, start: bool, at: CutoverStep, works: bool)
    ensures var (u, next) := CutoverAct(v, start, at, works);
            CutoverAct(v.(jobs := jobs), start, at, works) == (u.(jobs := jobs), next)
  {
    match at {
      case StartTarget(_) =>
      case _ =>
    }
  }

  lemma RollbackIgnoresJobs(v: World, jobs: seq<Job>, restart: bool, at: RollbackStep, works: bool)
    ensures var (u, next) := RollbackAct(v, restart, at, works);
            RollbackAct(v.(jobs := jobs), restart, at, works) == (u.(jobs := jobs), next)
  {
  }

  lemma ActIgnoresJobs(v: World, jobs: seq<Job>, j: Job, works: bool)
    ensures var (u, next) := Act(v, j, works); Act(v.(jobs := jobs), j, works) == (u.(jobs := jobs), next)
  {
    match j {
      case PreCopy(_) =>
      case Cutover(start, at) => CutoverIgnoresJobs(v, jobs, start, at, works);
      case Rollback(restart, at) => RollbackIgnoresJobs(v, jobs, restart, at, works);
    }
  }

  /** The query for the identifier finds none or stays silent, and the configuration is read. */
  lemma CutoverReads(w: World, run: seq<Event>, n: nat, v: World, asked: bool)
    requires Leads(w, run, n, v.(jobs := [Cutover(true, CheckIdentifier)])) && !(asked && v.onTarget)
    requires Own(run, n, 0, [asked, true])
    ensures Leads(w, run, n + 2, v.(jobs := [Cutover(true, Shutdown)]))
  {
    FollowLast(w, run, n, v, [], Cutover(true, CheckIdentifier), asked);
    FollowLast(w, run, n + 1, v, [], Cutover(true, ReadConfig), true);
  }

  /** The shutdown works, or fails and the status query stays silent. */
  lemma CutoverStops(w: World, run: seq<Event>, n: nat, v: World, heard: bool)
    requires Leads(w, run, n, v.(jobs := [Cutover(true, Shutdown)])) && Own(run, n, 0, [heard, heard])
    ensures Leads(w, run, n + 2, v.(sourceUp := v.sourceUp && !heard, jobs := [Cutover(true, Transfer)]))
  {
    FollowLast(w, run, n, v, [], Cutover(true, Shutdown), heard);
    FollowLast(w, run, n + 1, v.(sourceUp := v.sourceUp && !heard), [], Cutover(true, AskIfDown), heard);
  }

  /** The first four commands of a cutover. */
  lemma CutoverStarts(w: World, run: seq<Event>, n: nat, v: World, asked: bool, heard: bool)
    requires Leads(w, run, n, v.(jobs := [Cutover(true, CheckIdentifier)])) && !(asked && v.onTarget)
    requires Own(run, n, 0, [asked, true, heard, heard])
    ensures Leads(w, run, n + 4, v.(sourceUp := v.sourceUp && !heard, jobs := [Cutover(true, Transfer)]))
  {
    CutoverReads(w, run, n, v, asked);
    CutoverStops(w, run, n + 2, v, heard);
  }

  /** The transfer and the query for the configuration, which finds none or stays silent. */
  lemma CutoverSends(w: World, run: seq<Event>, n: nat, v: World, rest: seq<Job>, heard: bool)
    requires Leads(w, run, n, v.(jobs := [Cutover(true, Transfer)] + rest)) && !(heard && v.onTarget)
    requires Own(run, n, 0, [true, heard])
    ensures Leads(w, run, n + 2, v.(jobs := [Cutover(true, WriteConfig)] + rest))
  {
    FollowFirst(w, run, n, v, Cutover(true, Transfer), rest, true);
    FollowFirst(w, run, n + 1, v, Cutover(true, AskConfig), rest, heard);
  }

  /** The source is locked and the target started. */
  lemma CutoverFinishes(w: World, run: seq<Event>, n: nat, v: World, rest: seq<Job>)
    requires Leads(w, run, n, v.(jobs := [Cutover(true, LockSource)] + rest)) && v.onTarget
    requires Own(run, n, 0, [true, true])
    ensures Leads(w, run, n + 2, v.(targetUp := true, locked := true,
                                    jobs := [Cutover(true, Finished(true, true))] + rest))
  {
    FollowFirst(w, run, n, v, Cutover(true, LockSource), rest, true);
    FollowFirst(w, run, n + 1, v.(locked := true), Cutover(true, StartTarget(true)), rest, true);
  }

  /** The last five commands of a cutover, all of which work. */
  lemma CutoverEnds(w: World, run: seq<Event>, n: nat, v: World, rest: seq<Job>)
    requires Leads(w, run, n, v.(jobs := [Cutover(true, Transfer)] + rest)) && !v.onTarget
    requires Own(run, n, 0, [true, true, true, true, true])
    ensures Leads(w, run, n + 5, v.(targetUp := true, locked := true, onTarget := true,
                                    jobs := [Cutover(true, Finished(true, true))] + rest))
  {
    CutoverSends(w, run, n, v, rest, true);
    FollowFirst(w, run, n + 2, v, Cutover(true, WriteConfig), rest, true);
    CutoverFinishes(w, run, n + 3, v.(onTarget := true), rest);
  }

  /** A rollback whose last three commands work. */
  lemma RollbackEnds(w: World, run: seq<Event>, n: nat, v: World, others: seq<Job>, stopped: bool)
    requires Leads(w, run, n, v.(jobs := others + [Rollback(true, RemoveConfig(stopped))]))
    requires Own(run, n, |others|, [true, true, true])
    ensures Leads(w, run, n + 3, v.(sourceUp := true, locked := false, onTarget := false,
                                    jobs := others + [Rollback(true, RolledBack(stopped, true, true, true))]))
  {
    var v2 := v.(onTarget := false);
    FollowLast(w, run, n, v, others, Rollback(true, RemoveConfig(stopped)), true);
    FollowLast(w, run, n + 1, v2, others, Rollback(true, Unlock(stopped, true)), true);
    FollowLast(w, run, n + 2, v2.(locked := false), others, Rollback(true, StartSource(stopped, true, true)), true);
  }

  /** A whole rollback; only its stop of the target may fail. */
  lemma RollbackRuns(w: World, run: seq<Event>, n: nat, v: World, others: seq<Job>, stops: bool)
    requires Leads(w, run, n, v.(jobs := others + [Rollback(true, StopTarget)]))
    requires Own(run, n, |others|, [stops, true, true, true, true])
    ensures var stopped := stops || !v.targetUp;
            Leads(w, run, n + 5, v.(sourceUp := true, targetUp := !stopped, locked := false, onTarget := false,
                                    jobs := others + [Rollback(true, RolledBack(stopped, true, true, true))]))
  {
    var stopped := stops || !v.targetUp;
    var v1 := v.(targetUp := !stopped);
    FollowLast(w, run, n, v, others, Rollback(true, StopTarget), stops);
    FollowLast(w, run, n + 1, v1, others, Rollback(true, AskTarget), true);
    RollbackEnds(w, run, n + 2, v1, others, stopped);
  }

  /** The shutdown of a cutover fails and the status query stays silent: the code takes the
      silence for a stopped guest and starts the target beside the running source. */
  lemma {:induction false} SilenceIsTakenForStopped(w: World, run: seq<Event>)
    requires w.jobs == [] && w.sourceUp && !w.onTarget
    requires |run| == 10 && run[0] == Begin(Cutover(true, CheckIdentifier))
    requires Own(run, 1, 0, [true, true, false, false]) && Own(run, 5, 0, [true, true, true, true, true])
    ensures Both(After(w, run))
  {
    var v := w.(jobs := [Cutover(true, CheckIdentifier)]);
    Follow(w, run, 0, w, v);
    CutoverStarts(w, run, 1, v, true, false);
    CutoverEnds(w, run, 5, v.(jobs := [Cutover(true, Transfer)]), []);
    assert run[..10] == run;
  }

  /** Both queries for a configuration on the target stay silent: a cutover of which every
      other command works writes over the configuration that is there. */
  lemma {:induction false} SilenceOverwrites(w: World, run: seq<Event>)
    requires w.jobs == [] && w.onTarget
    requires |run| == 7 && run[0] == Begin(Cutover(true, CheckIdentifier))
    requires Own(run, 1, 0, [false, true, true, true]) && Own(run, 5, 0, [true, false])
    ensures Overwrites(After(w, run), Step(0, true))
  {
    var v := w.(jobs := [Cutover(true, CheckIdentifier)]);
    Follow(w, run, 0, w, v);
    CutoverStarts(w, run, 1, v, false, true);
    CutoverSends(w, run, 5, w.(sourceUp := false), [], false);
    assert run[..7] == run;
  }

  /** A rollback whose stop fails goes on and starts the source beside the running target,
      although every status query was answered. */
  lemma {:induction false} RollbackStartsBeside(w: World, run: seq<Event>)
    requires w.jobs == [] && w.targetUp
    requires |run| == 6 && run[0] == Begin(Rollback(true, StopTarget))
    requires Own(run, 1, 0, [false, true, true, true, true])
    ensures Both(After(w, run))
  {
    var v := w.(jobs := [Rollback(true, StopTarget)]);
    Follow(w, run, 0, w, v);
    RollbackRuns(w, run, 1, v, [], false);
    assert run[..6] == run;
  }

  /** The cutover has stopped the guest and is about to send its data when the rollback begins. */
  lemma {:induction false} RollbackBegins(w: World, run: seq<Event>, sending: Job)
    requires w.jobs == [] && w.sourceUp && !w.onTarget && sending == Cutover(true, Transfer) && |run| >= 6
    requires run[0] == Begin(Cutover(true, CheckIdentifier)) && run[5] == Begin(Rollback(true, StopTarget))
    requires Own(run, 1, 0, [true, true, true, true])
    ensures Leads(w, run, 6, w.(sourceUp := false, jobs := [sending] + [Rollback(true, StopTarget)]))
  {
    var v := w.(jobs := [Cutover(true, CheckIdentifier)]);
    var v5 := w.(sourceUp := false, jobs := [sending]);
    Follow(w, run, 0, w, v);
    CutoverStarts(w, run, 1, v, true, true);
    Follow(w, run, 5, v5, w.(sourceUp := false, jobs := [sending] + [Rollback(true, StopTarget)]));
  }

  /** A rollback begun while a cutover sends its data: every command works and every query is
      answered, and the cutover ends with the guest on both hosts. */
  lemma {:induction false} RollbackUnderCutover(w: World, run: seq<Event>)
    requires w.jobs == [] && w.sourceUp && !w.targetUp && !w.onTarget
    requires |run| == 16
    requires run[0] == Begin(Cutover(true, CheckIdentifier)) && run[5] == Begin(Rollback(true, StopTarget))
    requires Own(run, 1, 0, [true, true, true, true]) && Own(run, 6, 1, [true, true, true, true, true])
    requires Own(run, 11, 0, [true, true, true, true, true])
    ensures var v := After(w, run);
            Both(v) && |v.jobs| == 2 && v.jobs[0] == Cutover(true, Finished(true, true)) && ReportsSuccess(v.jobs[1])
  {
    var sending, back := Cutover(true, Transfer), Rollback(true, RolledBack(true, true, true, true));
    RollbackBegins(w, run, sending);
    RollbackRuns(w, run, 6, w.(sourceUp := false), [sending], true);
    CutoverEnds(w, run, 11, w.(locked := false, jobs := [sending] + [back]), [back]);
    assert run[..16] == run;
  }
}
