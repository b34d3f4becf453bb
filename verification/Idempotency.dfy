/** The idempotency table that guards the pipeline (internal/orchestration/idempotency.go), and every
    interleaving of workers over it (orchestrator.go:119-156): duplicate deliveries, lost replies, crashes. */
module Idempotency {
  import opened Common

  datatype Status = Processing | Failed | Completed

  type Rows = map<string, Status>

  /** The conditional upsert: a fresh key, or one whose last run failed, becomes processing. */
  predicate MayBegin(rows: Rows, key: string) {
    key !in rows || rows[key] == Failed
  }

  function BeginRow(rows: Rows, key: string): Rows {
    if MayBegin(rows, key) then rows[key := Processing] else rows
  }

  /** The updates of Complete and Fail, which touch a row only if it is there. */
  function SetRow(rows: Rows, key: string, status: Status): Rows {
    if key in rows then rows[key := status] else rows
  }

  class IdempotencyTable {
    var rows: Rows

    constructor ()
      ensures rows == map[]
    {
      rows := map[];
    }

    /** True when the caller now holds the key. The update may land and its reply still be lost. */
    method Begin(key: string) returns (started: Result<bool, ()>)
      modifies this
      ensures rows == old(rows) || rows == BeginRow(old(rows), key)
      ensures started.Ok? ==> started.value == MayBegin(old(rows), key) && rows == BeginRow(old(rows), key)
    {
      var lands: bool, replies: bool := *, *;
      if !lands {
        return Err(());
      }
      var free := key !in rows || rows[key] == Failed;
      if free {
        rows := rows[key := Processing];
      }
      return if replies then Ok(free) else Err(());
    }

    method Complete(key: string) returns (ok: bool)
      modifies this
      ensures rows == old(rows) || rows == SetRow(old(rows), key, Completed)
      ensures ok ==> key in rows && rows[key] == Completed
    {
      ok := Update(key, Completed);
    }

    method Fail(key: string) returns (ok: bool)
      modifies this
      ensures rows == old(rows) || rows == SetRow(old(rows), key, Failed)
      ensures ok ==> key in rows && rows[key] == Failed
    {
      ok := Update(key, Failed);
    }

    /** An update that finds no row returns an error, as scanning an empty result does. */
    method Update(key: string, status: Status) returns (ok: bool)
      modifies this
      ensures rows == old(rows) || rows == SetRow(old(rows), key, status)
      ensures ok ==> key in rows && rows[key] == status
    {
      var lands: bool, replies: bool := *, *;
      if lands && key in rows {
        rows := rows[key := status];
        return replies;
      }
      return false;
    }
  }

  // Workers ------------------------------------------------------------------------------------------------

  /** Where a worker is in Handle. Granted: its Begin has landed but it does not know yet. */
  datatype Pc =
    | Idle
    | Asking(key: string)
    | Granted(key: string)
    | Running(key: string, saved: bool)
    | Failing(key: string, saved: bool)
    | Completing(key: string, saved: bool)

  /** rows is the shared table; the tallies count what has happened to each key: attempts begun, Fail writes, those of
      them by runs that had recorded their execution, and executions recorded. `recorded` has the keys whose latest
      attempt has recorded one. No branch reads a tally. */
  datatype World = World(
    rows: Rows, pcs: map<nat, Pc>, attempts: map<string, nat>, fails: map<string, nat>, late: map<string, nat>,
    executions: map<string, nat>, recorded: set<string>)

  function PcOf(w: World, worker: nat): Pc {
    if worker in w.pcs then w.pcs[worker] else Idle
  }

  function Count(tally: map<string, nat>, key: string): nat {
    if key in tally then tally[key] else 0
  }

  function Bump(tally: map<string, nat>, key: string): map<string, nat> {
    tally[key := Count(tally, key) + 1]
  }

  datatype Action =
    | Deliver(worker: nat, key: string)
    | BeginLands(worker: nat)
    | Enter(worker: nat)
    | SaveExecution(worker: nat)
    | RunFails(worker: nat)
    | RunSucceeds(worker: nat)
    | FailLands(worker: nat)
    | CompleteLands(worker: nat)
    | GiveUp(worker: nat)

  function Move(w: World, worker: nat, pc: Pc): World {
    w.(pcs := w.pcs[worker := pc])
  }

  /** One atomic step. A step the worker is not ready for does nothing. GiveUp stands for a crash, a lost
      reply or a write that failed: the worker forgets the message, which may be delivered again. */
  function Step(w: World, a: Action): World {
    var pc := PcOf(w, a.worker);
    match a
    case Deliver(i, key) => if pc.Idle? then Move(w, i, Asking(key)) else w
    case BeginLands(i) =>
      if !pc.Asking? then w
      else if MayBegin(w.rows, pc.key) then
        Move(w, i, Granted(pc.key)).(
          rows := BeginRow(w.rows, pc.key), attempts := Bump(w.attempts, pc.key), recorded := w.recorded - {pc.key})
      else Move(w, i, Idle)
    case Enter(i) => if pc.Granted? then Move(w, i, Running(pc.key, false)) else w
    case SaveExecution(i) =>
      if pc.Running? && !pc.saved then
        Move(w, i, Running(pc.key, true)).(executions := Bump(w.executions, pc.key), recorded := w.recorded + {pc.key})
      else w
    case RunFails(i) => if pc.Running? then Move(w, i, Failing(pc.key, pc.saved)) else w
    case RunSucceeds(i) => if pc.Running? then Move(w, i, Completing(pc.key, pc.saved)) else w
    case FailLands(i) =>
      if pc.Failing? then
        Move(w, i, Idle).(rows := SetRow(w.rows, pc.key, Failed), fails := Bump(w.fails, pc.key),
                          late := if pc.saved then Bump(w.late, pc.key) else w.late)
      else w
    case CompleteLands(i) =>
      if pc.Completing? then Move(w, i, Idle).(rows := SetRow(w.rows, pc.key, Completed)) else w
    case GiveUp(i) => Move(w, i, Idle)
  }

  const START := World(map[], map[], map[], map[], map[], map[], {})

  function Play(actions: seq<Action>): World {
    if actions == [] then START else Step(Play(actions[..|actions| - 1]), actions[|actions| - 1])
  }

  // Invariant ------------------------------------------------------------------------------------------------

  /** The worker holds the key: from the moment its Begin lands until it writes the outcome or goes away. */
  predicate Owns(w: World, worker: nat, key: string) {
    var pc := PcOf(w, worker);
    Holds(pc) && pc.key == key
  }

  predicate Holds(pc: Pc) {
    !pc.Idle? && !pc.Asking?
  }

  /** The worker's run has recorded its execution. */
  predicate HasSaved(pc: Pc) {
    (pc.Running? || pc.Failing? || pc.Completing?) && pc.saved
  }

  function Live(w: World, key: string): nat {
    if key in w.rows && w.rows[key] != Failed then 1 else 0
  }

  /** The attempt that is live, abandoned or done has recorded its execution. */
  function Recorded(w: World, key: string): nat {
    if key in w.rows && w.rows[key] != Failed && key in w.recorded then 1 else 0
  }

  /** A key has at most one owner, and its row says processing while it has. */
  ghost predicate Exclusive(w: World) {
    && (forall i, j, key :: Owns(w, i, key) && Owns(w, j, key) ==> i == j)
    && (forall i, key :: Owns(w, i, key) ==> key in w.rows && w.rows[key] == Processing)
  }

  /** Every attempt has failed, is live, or is done. */
  ghost predicate Tallied(w: World) {
    forall key :: Count(w.attempts, key) == Count(w.fails, key) + Live(w, key)
  }

  /** Every execution belongs to the attempt that stands or to one that failed after recording it. */
  ghost predicate Accounted(w: World) {
    && (forall key :: Count(w.executions, key) == Count(w.late, key) + Recorded(w, key))
    && (forall key :: Count(w.late, key) <= Count(w.fails, key))
    && (forall i, key :: Owns(w, i, key) ==> (HasSaved(PcOf(w, i)) <==> key in w.recorded))
  }

  ghost predicate Guarded(w: World) {
    Exclusive(w) && Tallied(w) && Accounted(w)
  }

  /** A step changes only its own worker's place. */
  lemma OthersStay(w: World, a: Action)
    ensures forall i :: i != a.worker ==> PcOf(Step(w, a), i) == PcOf(w, i)
  {
  }

  /** What an owner's step comes to: it moves on or drops out, records, fails, or completes. */
  predicate OwnerMoved(w: World, i: nat, key: string, saved: bool, v: World) {
    var next := PcOf(v, i);
    || (v == w.(pcs := v.pcs) && (next.Idle? || (Owns(v, i, key) && HasSaved(next) == saved)))
    || (!saved && Owns(v, i, key) && HasSaved(next) &&
        v == w.(pcs := v.pcs, executions := Bump(w.executions, key), recorded := w.recorded + {key}))
    || (next.Idle? && v == w.(pcs := v.pcs, rows := SetRow(w.rows, key, Failed), fails := Bump(w.fails, key),
                              late := if saved then Bump(w.late, key) else w.late))
    || (next.Idle? && v == w.(pcs := v.pcs, rows := SetRow(w.rows, key, Completed)))
  }

  /** What any other worker's step comes to: it may begin a key that is free, and touches nothing else. */
  predicate OtherMoved(w: World, i: nat, pc: Pc, v: World) {
    || (v == w.(pcs := v.pcs) && !Holds(PcOf(v, i)))
    || (pc.Asking? && MayBegin(w.rows, pc.key) && PcOf(v, i) == Granted(pc.key) &&
        v == w.(pcs := v.pcs, rows := BeginRow(w.rows, pc.key), attempts := Bump(w.attempts, pc.key),
                recorded := w.recorded - {pc.key}))
  }

  lemma StepMoves(w: World, a: Action)
    ensures var pc := PcOf(w, a.worker);
      if Holds(pc) then OwnerMoved(w, a.worker, pc.key, HasSaved(pc), Step(w, a))
      else OtherMoved(w, a.worker, pc, Step(w, a))
  {
    hide *;
    if Holds(PcOf(w, a.worker)) {
      OwnerMoves(w, a);
    } else {
      OtherMoves(w, a);
    }
  }

  lemma OwnerMoves(w: World, a: Action)
    requires Holds(PcOf(w, a.worker))
    ensures OwnerMoved(w, a.worker, PcOf(w, a.worker).key, HasSaved(PcOf(w, a.worker)), Step(w, a))
  {
    hide Bump, SetRow, BeginRow, MayBegin;
  }

  lemma OtherMoves(w: World, a: Action)
    requires !Holds(PcOf(w, a.worker))
    ensures OtherMoved(w, a.worker, PcOf(w, a.worker), Step(w, a))
  {
    hide Bump, SetRow, BeginRow, MayBegin;
  }

  lemma StepExclusive(w: World, a: Action)
    requires Exclusive(w)
    ensures Exclusive(Step(w, a))
  {
    hide Step, Bump, Count;
    StepMoves(w, a);
    OthersStay(w, a);
    var (v, pc) := (Step(w, a), PcOf(w, a.worker));
    assert forall i, key :: i != a.worker ==> (Owns(v, i, key) <==> Owns(w, i, key));
    assert Holds(pc) ==> Owns(w, a.worker, pc.key);
  }

  lemma BumpCounts(tally: map<string, nat>, bumped: string, key: string)
    ensures Count(Bump(tally, bumped), key) == Count(tally, key) + if bumped == key then 1 else 0
  {
  }

  /** What an owner knows of the row it holds. */
  lemma OwnerRow(w: World, i: nat)
    requires Exclusive(w) && Holds(PcOf(w, i))
    ensures PcOf(w, i).key in w.rows && w.rows[PcOf(w, i).key] == Processing
  {
    assert Owns(w, i, PcOf(w, i).key);
  }

  lemma StepTallies(w: World, a: Action, key: string)
    requires Exclusive(w) && Tallied(w)
    ensures var v := Step(w, a); Count(v.attempts, key) == Count(v.fails, key) + Live(v, key)
  {
    hide Step, HasSaved, PcOf, Bump, Count, Exclusive, Tallied, Owns;
    StepMoves(w, a);
    var pc := PcOf(w, a.worker);
    TalliedFor(w, key);
    if Holds(pc) {
      OwnerRow(w, a.worker);
      BumpCounts(w.fails, pc.key, key);
    } else if pc.Asking? {
      BumpCounts(w.attempts, pc.key, key);
    }
  }

  lemma TalliedFor(w: World, key: string)
    requires Tallied(w)
    ensures Count(w.attempts, key) == Count(w.fails, key) + Live(w, key)
  {
    hide Count, Live;
  }

  lemma StepTallied(w: World, a: Action)
    requires Exclusive(w) && Tallied(w)
    ensures Tallied(Step(w, a))
  {
    hide Step, Count, Exclusive, Live;
    forall key {
      StepTallies(w, a, key);
    }
  }

  lemma StepOwners(w: World, a: Action)
    requires Exclusive(w) && Accounted(w)
    ensures var v := Step(w, a);
      forall i, key :: Owns(v, i, key) ==> (HasSaved(PcOf(v, i)) <==> key in v.recorded)
  {
    hide Step, Bump, Count, Recorded, HasSaved;
    StepMoves(w, a);
    OthersStay(w, a);
    GrantedUnsaved(a.worker, w);
    var (v, pc) := (Step(w, a), PcOf(w, a.worker));
    assert HasSaved(PcOf(v, a.worker)) ==> !PcOf(v, a.worker).Granted? by {
      GrantedUnsaved(a.worker, v);
    }
    assert Holds(pc) ==> Owns(w, a.worker, pc.key);
    forall i, key | Owns(v, i, key)
      ensures HasSaved(PcOf(v, i)) <==> key in v.recorded
    {
      assert i != a.worker ==> Owns(w, i, key);
    }
  }

  lemma GrantedUnsaved(i: nat, w: World)
    ensures PcOf(w, i).Granted? ==> !HasSaved(PcOf(w, i))
  {
  }

  lemma StepAccounts(w: World, a: Action, key: string)
    requires Exclusive(w) && Accounted(w)
    ensures var v := Step(w, a);
      && Count(v.executions, key) == Count(v.late, key) + Recorded(v, key)
      && Count(v.late, key) <= Count(v.fails, key)
  {
    hide Step, HasSaved, PcOf, Bump, Count, Exclusive, Accounted, Owns;
    StepMoves(w, a);
    var pc := PcOf(w, a.worker);
    AccountedFor(w, key);
    if Holds(pc) {
      OwnerRow(w, a.worker);
      OwnerAccounted(w, a.worker);
      BumpCounts(w.fails, pc.key, key);
      BumpCounts(w.late, pc.key, key);
      BumpCounts(w.executions, pc.key, key);
    }
  }

  lemma AccountedFor(w: World, key: string)
    requires Accounted(w)
    ensures Count(w.executions, key) == Count(w.late, key) + Recorded(w, key) && Count(w.late, key) <= Count(w.fails, key)
  {
    hide Count, Recorded, Owns;
  }

  lemma OwnerAccounted(w: World, i: nat)
    requires Accounted(w) && Holds(PcOf(w, i))
    ensures HasSaved(PcOf(w, i)) <==> PcOf(w, i).key in w.recorded
  {
    hide Count, Recorded;
    assert Owns(w, i, PcOf(w, i).key);
  }

  lemma StepAccounted(w: World, a: Action)
    requires Exclusive(w) && Accounted(w)
    ensures Accounted(Step(w, a))
  {
    hide Step, Count, Exclusive, Recorded;
    StepOwners(w, a);
    forall key {
      StepAccounts(w, a, key);
    }
  }

  lemma StepGuarded(w: World, a: Action)
    requires Guarded(w)
    ensures Guarded(Step(w, a))
  {
    hide Exclusive, Tallied, Accounted;
    StepExclusive(w, a);
    StepTallied(w, a);
    StepAccounted(w, a);
  }

  lemma {:induction false} PlayGuarded(actions: seq<Action>)
    ensures Guarded(Play(actions))
    decreases |actions|
  {
    if actions != [] {
      PlayGuarded(actions[..|actions| - 1]);
      StepGuarded(Play(actions[..|actions| - 1]), actions[|actions| - 1]);
    }
  }

  // What the guard promises over every history ----------------------------------------------------------------

  /** At any moment of any history at most one worker is inside run for a key. */
  lemma OneRunPerKey(actions: seq<Action>, i: nat, j: nat, key: string)
    requires PcOf(Play(actions), i).Running? && PcOf(Play(actions), j).Running?
    requires PcOf(Play(actions), i).key == key == PcOf(Play(actions), j).key
    ensures i == j
  {
    PlayGuarded(actions);
    assert Owns(Play(actions), i, key) && Owns(Play(actions), j, key);
  }

  /** Attempts are exactly the failures written plus the one that is live, abandoned or done. Executions are exactly
      the failures written by runs that had recorded theirs, plus the one that attempt has recorded. */
  lemma AttemptsAndExecutions(actions: seq<Action>, key: string)
    ensures var w := Play(actions);
      && Count(w.attempts, key) == Count(w.fails, key) + Live(w, key)
      && Count(w.executions, key) == Count(w.late, key) + Recorded(w, key)
      && Count(w.executions, key) <= Count(w.attempts, key) <= 1 + Count(w.fails, key)
  {
    PlayGuarded(actions);
  }

  /** However often a key is delivered, it executes at most once if and only if no run of it failed after recording,
      or one did and none has recorded since. */
  lemma AtMostOnce(actions: seq<Action>, key: string)
    ensures var w := Play(actions);
      Count(w.executions, key) <= 1 <==>
        Count(w.late, key) == 0 || (Count(w.late, key) == 1 && Recorded(w, key) == 0)
  {
    PlayGuarded(actions);
  }

  /** A completed key stays completed, and is never attempted or executed again. */
  lemma {:induction false} CompletedIsFinal(actions: seq<Action>, more: seq<Action>, key: string)
    requires key in Play(actions).rows && Play(actions).rows[key] == Completed
    ensures var (w, v) := (Play(actions), Play(actions + more));
      && key in v.rows && v.rows[key] == Completed
      && Count(v.attempts, key) == Count(w.attempts, key) && Count(v.executions, key) == Count(w.executions, key)
    decreases |more|
  {
    hide Guarded, Step;
    if more == [] {
      assert actions + more == actions;
    } else {
      var n := |more| - 1;
      CompletedIsFinal(actions, more[..n], key);
      assert (actions + more)[..|actions| + n] == actions + more[..n];
      PlayGuarded(actions + more[..n]);
      CompletedStep(Play(actions + more[..n]), more[n], key);
    }
  }

  lemma CompletedStep(w: World, a: Action, key: string)
    requires Guarded(w) && key in w.rows && w.rows[key] == Completed
    ensures var v := Step(w, a);
      && key in v.rows && v.rows[key] == Completed
      && Count(v.attempts, key) == Count(w.attempts, key) && Count(v.executions, key) == Count(w.executions, key)
  {
    assert !Owns(w, a.worker, key);
  }

  /** The key's row says processing, and the worker that began it has crashed, given up or lost a reply. */
  ghost predicate Abandoned(w: World, key: string) {
    key in w.rows && w.rows[key] == Processing && forall i :: !Owns(w, i, key)
  }

  /** An abandoned key stays abandoned: however often it is delivered, it is never attempted or executed again. */
  lemma {:induction false} AbandonedIsFinal(actions: seq<Action>, more: seq<Action>, key: string)
    requires Abandoned(Play(actions), key)
    ensures var (w, v) := (Play(actions), Play(actions + more));
      && Abandoned(v, key)
      && Count(v.attempts, key) == Count(w.attempts, key) && Count(v.executions, key) == Count(w.executions, key)
    decreases |more|
  {
    hide Abandoned, Step;
    if more == [] {
      assert actions + more == actions;
    } else {
      var n := |more| - 1;
      AbandonedIsFinal(actions, more[..n], key);
      assert (actions + more)[..|actions| + n] == actions + more[..n];
      AbandonedStep(Play(actions + more[..n]), more[n], key);
    }
  }

  lemma AbandonedStep(w: World, a: Action, key: string)
    requires Abandoned(w, key)
    ensures var v := Step(w, a);
      && Abandoned(v, key)
      && Count(v.attempts, key) == Count(w.attempts, key) && Count(v.executions, key) == Count(w.executions, key)
  {
    hide Abandoned, Step, Count;
    AbandonedUncounted(w, a, key);
    AbandonedStays(w, a, key);
  }

  lemma AbandonedUncounted(w: World, a: Action, key: string)
    requires Abandoned(w, key)
    ensures var v := Step(w, a);
      Count(v.attempts, key) == Count(w.attempts, key) && Count(v.executions, key) == Count(w.executions, key)
  {
    assert !Owns(w, a.worker, key);
  }

  lemma AbandonedStays(w: World, a: Action, key: string)
    requires Abandoned(w, key)
    ensures Abandoned(Step(w, a), key)
  {
    hide Bump, Count;
    assert !Owns(w, a.worker, key);
    forall i
      ensures !Owns(Step(w, a), i, key)
    {
      assert !Owns(w, i, key);
    }
  }

  /** Giving up is all it takes: a worker that goes away with a key leaves it abandoned. */
  lemma GivingUpAbandons(actions: seq<Action>, worker: nat, key: string)
    requires Owns(Play(actions), worker, key)
    ensures Abandoned(Play(actions + [GiveUp(worker)]), key)
  {
    hide Tallied, Accounted;
    PlayGuarded(actions);
    assert (actions + [GiveUp(worker)])[..|actions|] == actions;
    var v := Play(actions + [GiveUp(worker)]);
    forall i
      ensures !Owns(v, i, key)
    {
      assert Owns(Play(actions), i, key) ==> i == worker;
    }
  }

  /** A run that fails after recording its execution is retried and records a second one. */
  lemma RetryCanExecuteTwice(key: string)
    ensures exists actions ::
      Count(Play(actions).executions, key) == 2 && Count(Play(actions).fails, key) == Count(Play(actions).late, key) == 1
  {
    hide Play, Step, Attempted, Attempt;
    var first := Attempt(key) + [RunFails(0)] + [FailLands(0)];
    PlayAttempt([], key);
    assert [] + Attempt(key) == Attempt(key);
    PlayMore(Attempt(key), RunFails(0));
    PlayMore(Attempt(key) + [RunFails(0)], FailLands(0));
    FailedAttempt(key);
    PlayAttempt(first, key);
    SecondAttempt(key);
    assert Count(Play(first + Attempt(key)).executions, key) == 2 && Count(Play(first + Attempt(key)).late, key) == 1;
  }

  function Attempt(key: string): seq<Action> {
    [Deliver(0, key), BeginLands(0), Enter(0), SaveExecution(0)]
  }

  /** The world after one attempt that recorded its execution and then failed. */
  function FailedOnce(key: string): World {
    World(map[key := Failed], map[0 := Idle], map[key := 1], map[key := 1], map[key := 1], map[key := 1], {key})
  }

  lemma FailedAttempt(key: string)
    ensures Step(Step(Attempted(Play([]), key), RunFails(0)), FailLands(0)) == FailedOnce(key)
  {
    hide Attempted;
    OneAttempt(START, key);
    var failing := Step(Attempted(START, key), RunFails(0));
    assert failing == World(
      map[key := Processing], map[0 := Failing(key, true)], map[key := 1], map[], map[], map[key := 1], {key});
  }

  lemma SecondAttempt(key: string)
    ensures var w := Attempted(FailedOnce(key), key);
      Count(w.executions, key) == 2 && Count(w.fails, key) == Count(w.late, key) == 1
  {
    hide Attempted;
    OneAttempt(FailedOnce(key), key);
  }

  /** Worker 0 is delivered the key, begins, runs, and records an execution. */
  function Attempted(w: World, key: string): World {
    Step(Step(Step(Step(w, Deliver(0, key)), BeginLands(0)), Enter(0)), SaveExecution(0))
  }

  lemma OneAttempt(w: World, key: string)
    requires PcOf(w, 0).Idle? && MayBegin(w.rows, key)
    ensures Attempted(w, key) == w.(
      rows := w.rows[key := Processing], pcs := w.pcs[0 := Running(key, true)],
      attempts := Bump(w.attempts, key), executions := Bump(w.executions, key), recorded := w.recorded + {key})
  {
    hide Step, Bump, MayBegin, PcOf;
    var a := AttemptBegins(w, key);
    AttemptRecords(a, key);
    assert w.pcs[0 := Granted(key)][0 := Running(key, true)] == w.pcs[0 := Running(key, true)];
    assert w.recorded - {key} + {key} == w.recorded + {key};
  }

  /** The second half of an attempt. */
  lemma AttemptRecords(a: World, key: string)
    requires PcOf(a, 0) == Granted(key)
    ensures Step(Step(a, Enter(0)), SaveExecution(0)) == a.(
      pcs := a.pcs[0 := Running(key, true)], executions := Bump(a.executions, key), recorded := a.recorded + {key})
  {
    hide Bump;
    var b := Step(a, Enter(0));
    assert b == a.(pcs := a.pcs[0 := Running(key, false)]);
    assert a.pcs[0 := Running(key, false)][0 := Running(key, true)] == a.pcs[0 := Running(key, true)];
  }

  /** The first half of an attempt. */
  lemma AttemptBegins(w: World, key: string) returns (a: World)
    requires PcOf(w, 0).Idle? && MayBegin(w.rows, key)
    ensures a == Step(Step(w, Deliver(0, key)), BeginLands(0))
    ensures a == w.(rows := w.rows[key := Processing], pcs := w.pcs[0 := Granted(key)],
                    attempts := Bump(w.attempts, key), recorded := w.recorded - {key})
    ensures PcOf(a, 0) == Granted(key)
  {
    hide Bump;
    var d := Step(w, Deliver(0, key));
    assert d == w.(pcs := w.pcs[0 := Asking(key)]);
    a := Step(d, BeginLands(0));
    assert w.pcs[0 := Asking(key)][0 := Granted(key)] == w.pcs[0 := Granted(key)];
  }

  lemma PlayMore(actions: seq<Action>, a: Action)
    ensures Play(actions + [a]) == Step(Play(actions), a)
  {
    assert (actions + [a])[..|actions|] == actions;
  }

  lemma PlayAttempt(before: seq<Action>, key: string)
    ensures Play(before + Attempt(key)) == Attempted(Play(before), key)
  {
    PlayMore(before, Deliver(0, key));
    PlayMore(before + [Deliver(0, key)], BeginLands(0));
    PlayMore(before + [Deliver(0, key)] + [BeginLands(0)], Enter(0));
    PlayMore(before + [Deliver(0, key)] + [BeginLands(0)] + [Enter(0)], SaveExecution(0));
    assert before + [Deliver(0, key)] + [BeginLands(0)] + [Enter(0)] + [SaveExecution(0)]
        == before + Attempt(key);
  }
}
