/** The crash-aware developer reset: a write-ahead journal file beside one database
    transaction. Every effect may fail or crash, before or after taking effect. */
module ProductReset {
  import opened Outcomes

  type RequestId = string

  datatype Phase = Prepared | BackingUp | Resetting | Committed | FailedPrecommit

  datatype Receipt = Receipt(requestId: RequestId, generation: nat)

  datatype Active = Active(requestId: RequestId, phase: Phase, before: nat)

  datatype Journal = Journal(maintenance: bool, active: Option<Active>, receipts: map<RequestId, Receipt>)

  const EMPTY_JOURNAL := Journal(false, None, map[])

  datatype Database = Database(generation: nat, receipts: map<RequestId, Receipt>)

  /** `memory` and `maintenance` (the hardware-event gate) are volatile; `file` and `database` survive. */
  datatype World = World(memory: Journal, file: Journal, database: Database, maintenance: bool)

  /** How one effect ends. A failed or crashed write may still have been applied. */
  datatype Outcome = Works | Fails(applied: bool) | Crashes(applied: bool) {
    predicate Applied() {
      Works? || applied
    }
  }

  /** The outcome of every effect of one call, in the order of the code. */
  datatype Plan = Plan(
    lookup: Outcome,
    saveActive: Outcome,
    readGeneration: Outcome,
    quiesce: Outcome,
    saveBackingUp: Outcome,
    backup: Outcome,
    saveResetting: Outcome,
    transaction: Outcome,
    saveCommitted: Outcome,
    lookupAfterFailure: Outcome,
    saveRecovered: Outcome,
    saveFailed: Outcome,
    lookupFinish: Outcome,
    reload: Outcome,
    saveReloadError: Outcome,
    saveFinal: Outcome)

  const FAILURE_FREE :=
    Plan(Works, Works, Works, Works, Works, Works, Works, Works, Works, Works, Works, Works, Works, Works, Works, Works)

  datatype Code = ConfirmationRequired | Maintenance | ResetFailed | ReloadFailed | FinalizeFailed | StorageError

  datatype Reply = Returned(receipt: Receipt) | Raised(code: Code) | Crashed

  // ---- Specification ----

  /** A process that dies loads the journal file when it starts again. */
  function Restarted(w: World): World {
    w.(memory := w.file, maintenance := w.file.maintenance)
  }

  /** What the call reports when an effect did not work. */
  function Broken(w: World, o: Outcome, code: Code): (World, Reply) {
    if o.Crashes? then (Restarted(w), Crashed) else (w, Raised(code))
  }

  function Saved(w: World, journal: Journal, o: Outcome): World {
    if o.Applied() then w.(file := journal) else w
  }

  function WithPhase(w: World, phase: Phase): World
    requires w.memory.active.Some?
  {
    w.(memory := w.memory.(active := Some(w.memory.active.value.(phase := phase))))
  }

  function FailingPrecommit(w: World, plan: Plan): (World, Reply)
    requires w.memory.active.Some?
  {
    var f := WithPhase(w, FailedPrecommit);
    var g := f.(memory := f.memory.(maintenance := true));
    var s := Saved(g, g.memory, plan.saveFailed);
    if plan.saveFailed.Works? then (s, Raised(ResetFailed)) else Broken(s, plan.saveFailed, StorageError)
  }

  function Completed(j: Journal, id: RequestId, receipt: Receipt): Journal {
    Journal(false, None, j.receipts[id := receipt])
  }

  function Finish(w: World, plan: Plan): (World, Reply)
    requires w.memory.active.Some?
  {
    var id := w.memory.active.value.requestId;
    if !plan.lookupFinish.Works? then Broken(w, plan.lookupFinish, StorageError)
    else if id !in w.database.receipts then FailingPrecommit(w, plan)
    else if plan.reload.Crashes? then (Restarted(w), Crashed)
    else if plan.reload.Fails? then
      var c := WithPhase(w, Committed);
      var s := Saved(c, c.memory, plan.saveReloadError);
      if plan.saveReloadError.Works? then (s, Raised(ReloadFailed)) else Broken(s, plan.saveReloadError, StorageError)
    else
      var receipt := w.database.receipts[id];
      var completed := Completed(w.memory, id, receipt);
      var s := Saved(w, completed, plan.saveFinal);
      if plan.saveFinal.Works? then (s.(memory := completed, maintenance := false), Returned(receipt))
      else Broken(s, plan.saveFinal, FinalizeFailed)
  }

  function Recovered(w: World, id: RequestId, plan: Plan): (World, Reply)
    requires id in w.database.receipts
  {
    var receipt := w.database.receipts[id];
    if w.memory.active.Some? && w.memory.active.value.requestId == id then Finish(w.(maintenance := true), plan)
    else
      var m := w.(memory := w.memory.(receipts := w.memory.receipts[id := receipt]));
      var s := Saved(m, m.memory, plan.saveActive);
      if plan.saveActive.Works? then (s, Returned(receipt)) else Broken(s, plan.saveActive, StorageError)
  }

  /** The transaction: the product wipe moves to the next generation and stores the receipt. */
  function Reset(db: Database, id: RequestId): Database {
    if id in db.receipts then db
    else Database(db.generation + 1, db.receipts[id := Receipt(id, db.generation + 1)])
  }

  /** The guarded block before the transaction: drain the product, back it up, and record both
      phases. With each world comes the first effect that did not work (Works if none). */
  function BackUp(w: World, plan: Plan): (World, Outcome)
    requires w.memory.active.Some?
  {
    var b := WithPhase(w, BackingUp);
    var c := Saved(b, b.memory, plan.saveBackingUp);
    var d := WithPhase(c, Resetting);
    var e := Saved(d, d.memory, plan.saveResetting);
    if !plan.quiesce.Works? then (w, plan.quiesce)
    else if !plan.saveBackingUp.Works? then (c, plan.saveBackingUp)
    else if !plan.backup.Works? then (c, plan.backup)
    else (e, plan.saveResetting)
  }

  /** The transaction, and the journal entry that follows a reported commit. */
  function Transact(w: World, plan: Plan): (World, Outcome)
    requires w.memory.active.Some?
  {
    var id := w.memory.active.value.requestId;
    var f := if plan.transaction.Applied() then w.(database := Reset(w.database, id)) else w;
    var g := WithPhase(f, Committed);
    if !plan.transaction.Works? then (f, plan.transaction)
    else (Saved(g, g.memory, plan.saveCommitted), plan.saveCommitted)
  }

  function Attempt(w: World, plan: Plan): (World, Outcome)
    requires w.memory.active.Some?
  {
    var (b, o) := BackUp(w, plan);
    if o.Works? then Transact(b, plan) else (b, o)
  }

  /** What the exception handler makes of a failed attempt. */
  function HandleFailure(w: World, plan: Plan): (World, Reply)
    requires w.memory.active.Some?
  {
    if !plan.lookupAfterFailure.Works? then Broken(w, plan.lookupAfterFailure, StorageError)
    else if w.memory.active.value.requestId in w.database.receipts then
      var c := WithPhase(w, Committed);
      var s := Saved(c, c.memory, plan.saveRecovered);
      if plan.saveRecovered.Crashes? then (Restarted(s), Crashed) else Finish(s, plan)
    else FailingPrecommit(w, plan)
  }

  function Commit(w: World, plan: Plan): (World, Reply)
    requires w.memory.active.Some?
  {
    var a := w.memory.active.value;
    if a.phase == Committed then Finish(w, plan)
    else if !plan.readGeneration.Works? then Broken(w, plan.readGeneration, StorageError)
    else if w.database.generation > a.before then
      var c := WithPhase(w, Committed);
      var s := Saved(c, c.memory, plan.saveCommitted);
      if plan.saveCommitted.Works? then Finish(s, plan) else Broken(s, plan.saveCommitted, StorageError)
    else if w.database.generation != a.before then FailingPrecommit(w, plan)
    else
      var (f, o) := Attempt(w, plan);
      if o.Crashes? then (Restarted(f), Crashed)
      else if o.Fails? then HandleFailure(f, plan)
      else Finish(f, plan)
  }

  function Opened(w: World, id: RequestId): World {
    w.(memory := w.memory.(active := Some(Active(id, Prepared, w.database.generation)), maintenance := true))
  }

  function Start(w: World, id: RequestId, plan: Plan): (World, Reply) {
    if w.memory.active.None? then
      if !plan.readGeneration.Works? then Broken(w, plan.readGeneration, StorageError)
      else
        var m := Opened(w, id);
        var s := Saved(m, m.memory, plan.saveActive);
        if plan.saveActive.Works? then Commit(s.(maintenance := true), plan)
        else Broken(s, plan.saveActive, StorageError)
    else if w.memory.active.value.phase == FailedPrecommit then
      var p := WithPhase(w, Prepared);
      var s := Saved(p, p.memory, plan.saveActive);
      if plan.saveActive.Works? then Commit(s.(maintenance := true), plan)
      else Broken(s, plan.saveActive, StorageError)
    else Commit(w.(maintenance := true), plan)
  }

  function Executed(w: World, id: RequestId, confirmation: string, plan: Plan): (World, Reply) {
    if confirmation != "RESET" then (w, Raised(ConfirmationRequired))
    else if w.memory.active.Some? && w.memory.active.value.requestId != id then (w, Raised(Maintenance))
    else if id in w.memory.receipts then (w, Returned(w.memory.receipts[id]))
    else if !plan.lookup.Works? then Broken(w, plan.lookup, StorageError)
    else if id in w.database.receipts then Recovered(w, id, plan)
    else Start(w, id, plan)
  }

  /** assert_reset_complete: ordinary startup is refused while the journal needs recovery. */
  predicate StartupRefused(file: Journal) {
    file.maintenance || file.active.Some?
  }

  datatype Call = Call(id: RequestId, confirmation: string, plan: Plan) | Restart

  function Run(w: World, calls: seq<Call>): World
    decreases |calls|
  {
    if calls == [] then w
    else
      var before := Run(w, calls[..|calls| - 1]);
      match calls[|calls| - 1]
      case Call(id, confirmation, plan) => Executed(before, id, confirmation, plan).0
      case Restart => Restarted(before)
  }

  function Installed(generation: nat): World {
    World(EMPTY_JOURNAL, EMPTY_JOURNAL, Database(generation, map[]), false)
  }

  // ---- The invariant ----

  /** The generations after `first` were each opened by exactly one receipt. */
  predicate Numbered(db: Database, first: nat) {
    && db.generation == first + |db.receipts|
    && (forall id :: id in db.receipts ==>
          db.receipts[id].requestId == id && first < db.receipts[id].generation <= db.generation)
    && (forall id, other :: id in db.receipts && other in db.receipts && id != other ==>
          db.receipts[id].generation != db.receipts[other].generation)
  }

  predicate JournalOk(j: Journal, db: Database) {
    && (j.maintenance <==> j.active.Some?)
    && (forall id :: id in j.receipts ==> id in db.receipts && j.receipts[id] == db.receipts[id])
    && (j.active.Some? ==>
          var a := j.active.value;
          && a.requestId !in j.receipts
          && (a.requestId in db.receipts ==>
                db.receipts[a.requestId].generation == a.before + 1 == db.generation)
          && (a.requestId !in db.receipts ==> a.before == db.generation && a.phase != Committed))
  }

  /** Every database receipt is acknowledged in the journal file, or belongs to the file's active
      request while the maintenance gate is shut. */
  predicate Covered(w: World) {
    forall id :: id in w.database.receipts ==>
      || id in w.file.receipts
      || (w.file.active.Some? && w.file.active.value.requestId == id && w.file.maintenance && w.maintenance)
  }

  /** Memory may run ahead of the file, but only by the active request. */
  predicate Together(w: World) {
    && (w.memory.active.None? ==> w.memory == w.file && !w.maintenance)
    && (forall id :: id in w.memory.receipts ==> id in w.file.receipts)
    && (w.memory.active.Some? ==>
          var a := w.memory.active.value;
          && (forall id :: id in w.file.receipts ==> id in w.memory.receipts || id == a.requestId)
          && (w.file.active.Some? ==>
                w.file.active.value.requestId == a.requestId && w.file.active.value.before == a.before))
  }

  predicate Inv(w: World, first: nat) {
    && Numbered(w.database, first)
    && JournalOk(w.memory, w.database)
    && JournalOk(w.file, w.database)
    && Covered(w)
    && Together(w)
  }

  /** The invariant behind a bound variable, so that it is unfolded only where a proof names it. */
  ghost predicate Safe(w: World, first: nat) {
    forall v :: v == w ==> Inv(v, first)
  }

  // ---- Every call keeps it, whatever fails or crashes ----

  lemma RestartKeeps(w: World, first: nat)
    requires Safe(w, first)
    ensures Safe(Restarted(w), first)
  {
    assert Inv(w, first) && Inv(Restarted(w), first);
  }

  lemma SaveKeeps(w: World, phase: Phase, o: Outcome, first: nat)
    requires Safe(w, first) && w.memory.active.Some?
    requires phase == Committed ==> w.memory.active.value.requestId in w.database.receipts
    requires w.maintenance || w.memory.active.value.requestId !in w.database.receipts
    ensures Safe(WithPhase(w, phase), first)
    ensures Safe(Saved(WithPhase(w, phase), WithPhase(w, phase).memory, o), first)
  {
    assert Inv(w, first);
    assert Inv(WithPhase(w, phase), first);
    assert Inv(Saved(WithPhase(w, phase), WithPhase(w, phase).memory, o), first);
  }

  lemma FailKeeps(w: World, plan: Plan, first: nat)
    requires Safe(w, first) && w.memory.active.Some? && w.maintenance
    ensures Safe(FailingPrecommit(w, plan).0, first)
  {
    assert w.memory.maintenance by {
      assert Inv(w, first);
    }
    SaveKeeps(w, FailedPrecommit, plan.saveFailed, first);
    var f := WithPhase(w, FailedPrecommit);
    assert f.(memory := f.memory.(maintenance := true)) == f;
    RestartKeeps(Saved(f, f.memory, plan.saveFailed), first);
  }

  lemma SaveCompletedKeeps(w: World, o: Outcome, first: nat)
    requires Safe(w, first) && w.memory.active.Some? && w.maintenance
    requires w.memory.active.value.requestId in w.database.receipts
    ensures var id := w.memory.active.value.requestId;
            Safe(Saved(w, Completed(w.memory, id, w.database.receipts[id]), o), first)
  {
    assert Inv(w, first);
    var id := w.memory.active.value.requestId;
    assert Inv(Saved(w, Completed(w.memory, id, w.database.receipts[id]), o), first);
  }

  lemma CompleteKeeps(w: World, o: Outcome, first: nat)
    requires Safe(w, first) && w.memory.active.Some? && w.maintenance
    requires w.memory.active.value.requestId in w.database.receipts
    ensures var id := w.memory.active.value.requestId;
            var receipt := w.database.receipts[id];
            var completed := Completed(w.memory, id, receipt);
            && Safe(Saved(w, completed, o), first)
            && Safe(Saved(w, completed, Works).(memory := completed, maintenance := false), first)
  {
    SaveCompletedKeeps(w, o, first);
    assert Inv(w, first);
    var id := w.memory.active.value.requestId;
    var completed := Completed(w.memory, id, w.database.receipts[id]);
    assert Inv(Saved(w, completed, Works).(memory := completed, maintenance := false), first);
  }

  lemma FinishKeeps(w: World, plan: Plan, first: nat)
    requires Safe(w, first) && w.memory.active.Some? && w.maintenance
    ensures Safe(Finish(w, plan).0, first)
  {
    var id := w.memory.active.value.requestId;
    RestartKeeps(w, first);
    if plan.lookupFinish.Works? {
      if id !in w.database.receipts {
        FailKeeps(w, plan, first);
      } else if plan.reload.Fails? {
        SaveKeeps(w, Committed, plan.saveReloadError, first);
        RestartKeeps(Saved(WithPhase(w, Committed), WithPhase(w, Committed).memory, plan.saveReloadError), first);
      } else if plan.reload.Works? {
        CompleteKeeps(w, plan.saveFinal, first);
        RestartKeeps(Saved(w, Completed(w.memory, id, w.database.receipts[id]), plan.saveFinal), first);
      }
    }
  }

  lemma ResetKeeps(w: World, first: nat)
    requires Safe(w, first) && w.memory.active.Some? && w.file.active.Some? && w.maintenance
    ensures Safe(w.(database := Reset(w.database, w.memory.active.value.requestId)), first)
  {
    assert Inv(w, first);
    var a := w.memory.active.value;
    var db := Reset(w.database, a.requestId);
    if a.requestId !in w.database.receipts {
      assert |db.receipts| == |w.database.receipts| + 1;
      assert w.file.active.value.phase != Committed && a.phase != Committed;
    }
    assert Inv(w.(database := db), first);
  }

  lemma BackUpKeeps(w: World, plan: Plan, first: nat)
    requires Safe(w, first) && w.memory.active.Some? && w.maintenance
    ensures var (b, o) := BackUp(w, plan);
            && Safe(b, first) && b.maintenance && b.memory.active.Some?
            && b.database == w.database
            && b.memory.active.value.requestId == w.memory.active.value.requestId
            && b.memory.active.value.before == w.memory.active.value.before
            && (o.Works? ==> b.file == b.memory)
  {
    SaveKeeps(w, BackingUp, plan.saveBackingUp, first);
    var b := WithPhase(w, BackingUp);
    SaveKeeps(Saved(b, b.memory, plan.saveBackingUp), Resetting, plan.saveResetting, first);
  }

  lemma TransactKeeps(w: World, plan: Plan, first: nat)
    requires Safe(w, first) && w.memory.active.Some? && w.maintenance && w.file == w.memory
    ensures var (f, o) := Transact(w, plan);
            && Safe(f, first) && f.maintenance && f.memory.active.Some?
            && f.memory.active.value.requestId == w.memory.active.value.requestId
  {
    var id := w.memory.active.value.requestId;
    ResetKeeps(w, first);
    if plan.transaction.Works? {
      SaveKeeps(w.(database := Reset(w.database, id)), Committed, plan.saveCommitted, first);
    }
  }

  lemma HandleKeeps(w: World, plan: Plan, first: nat)
    requires Safe(w, first) && w.memory.active.Some? && w.maintenance
    ensures Safe(HandleFailure(w, plan).0, first)
  {
    RestartKeeps(w, first);
    if plan.lookupAfterFailure.Works? {
      if w.memory.active.value.requestId in w.database.receipts {
        SaveKeeps(w, Committed, plan.saveRecovered, first);
        var s := Saved(WithPhase(w, Committed), WithPhase(w, Committed).memory, plan.saveRecovered);
        RestartKeeps(s, first);
        FinishKeeps(s, plan, first);
      } else {
        FailKeeps(w, plan, first);
      }
    }
  }

  lemma CommitKeeps(w: World, plan: Plan, first: nat)
    requires Safe(w, first) && w.memory.active.Some? && w.maintenance
    requires w.memory.active.value.requestId !in w.database.receipts
    ensures Safe(Commit(w, plan).0, first)
  {
    var a := w.memory.active.value;
    assert a.phase != Committed && a.before == w.database.generation by {
      assert Inv(w, first);
    }
    RestartKeeps(w, first);
    FailKeeps(w, plan, first);
    BackUpKeeps(w, plan, first);
    if BackUp(w, plan).1.Works? {
      TransactKeeps(BackUp(w, plan).0, plan, first);
    }
    var (f, o) := Attempt(w, plan);
    RestartKeeps(f, first);
    HandleKeeps(f, plan, first);
    FinishKeeps(f, plan, first);
  }

  lemma OpenKeeps(w: World, id: RequestId, o: Outcome, first: nat)
    requires Safe(w, first) && w.memory.active.None? && id !in w.database.receipts
    ensures Safe(Saved(Opened(w, id), Opened(w, id).memory, o), first)
  {
    assert Inv(w, first);
    assert Inv(Saved(Opened(w, id), Opened(w, id).memory, o), first);
  }

  lemma GateKeeps(w: World, first: nat)
    requires Safe(w, first) && w.memory.active.Some?
    ensures Safe(w.(maintenance := true), first)
  {
    assert Inv(w, first) && Inv(w.(maintenance := true), first);
  }

  lemma StartKeeps(w: World, id: RequestId, plan: Plan, first: nat)
    requires Safe(w, first)
    requires w.memory.active.Some? ==> w.memory.active.value.requestId == id
    requires id !in w.database.receipts
    ensures Safe(Start(w, id, plan).0, first)
  {
    RestartKeeps(w, first);
    var s: World;
    if w.memory.active.None? {
      OpenKeeps(w, id, plan.saveActive, first);
      s := Saved(Opened(w, id), Opened(w, id).memory, plan.saveActive);
    } else if w.memory.active.value.phase == FailedPrecommit {
      SaveKeeps(w, Prepared, plan.saveActive, first);
      s := Saved(WithPhase(w, Prepared), WithPhase(w, Prepared).memory, plan.saveActive);
    } else {
      s := w;
    }
    RestartKeeps(s, first);
    GateKeeps(s, first);
    CommitKeeps(s.(maintenance := true), plan, first);
  }

  lemma ExecuteKeeps(w: World, id: RequestId, confirmation: string, plan: Plan, first: nat)
    requires Safe(w, first)
    ensures Safe(Executed(w, id, confirmation, plan).0, first)
  {
    RestartKeeps(w, first);
    if confirmation == "RESET" && (w.memory.active.Some? ==> w.memory.active.value.requestId == id)
       && id !in w.memory.receipts && plan.lookup.Works? {
      if id in w.database.receipts {
        assert Inv(w, first);
        GateKeeps(w, first);
        FinishKeeps(w.(maintenance := true), plan, first);
      } else {
        StartKeeps(w, id, plan, first);
      }
    }
  }

  lemma {:induction false} RunKeeps(first: nat, calls: seq<Call>)
    ensures Safe(Run(Installed(first), calls), first)
    decreases |calls|
  {
    if calls == [] {
      assert Inv(Installed(first), first);
    } else {
      RunKeeps(first, calls[..|calls| - 1]);
      var w := Run(Installed(first), calls[..|calls| - 1]);
      match calls[|calls| - 1]
      case Call(id, confirmation, plan) => ExecuteKeeps(w, id, confirmation, plan, first);
      case Restart => RestartKeeps(w, first);
    }
  }

  // ---- Headline results ----

  /** Over any run of calls, failed or ambiguous effects, crashes and retries: the generation counts
      the receipts, each request has at most one receipt and its own generation, and a receipt the
      journal file does not acknowledge keeps the product in maintenance and startup refused. */
  lemma ResetsAtMostOnce(first: nat, calls: seq<Call>)
    ensures var w := Run(Installed(first), calls);
            && Numbered(w.database, first)
            && Covered(w)
            && (forall id :: id in w.database.receipts && id !in w.file.receipts ==>
                  w.maintenance && StartupRefused(w.file) && w.memory.active.Some?
                  && w.memory.active.value.requestId == id)
  {
    RunKeeps(first, calls);
    assert Inv(Run(Installed(first), calls), first);
  }

  /** One call resets at most its own request, once, to the next generation; a durable receipt
      never changes, and it is the only thing a call can return. */
  lemma {:induction false} CallsResetOnce(w: World, id: RequestId, confirmation: string, plan: Plan, first: nat)
    requires Inv(w, first)
    ensures var (v, reply) := Executed(w, id, confirmation, plan);
            && (v.database == w.database || (id !in w.database.receipts && v.database == Reset(w.database, id)))
            && (reply.Returned? ==> id in v.database.receipts && reply.receipt == v.database.receipts[id]
                                    && v.memory.active.None? && v.file == v.memory && !v.maintenance)
  {
    var (v, reply) := Executed(w, id, confirmation, plan);
    if confirmation == "RESET" && (w.memory.active.Some? ==> w.memory.active.value.requestId == id)
       && id !in w.memory.receipts && plan.lookup.Works? {
      if id in w.database.receipts {
        FinishReturns(w.(maintenance := true), plan);
      } else {
        StartReturns(w, id, plan);
      }
    }
  }

  lemma FinishReturns(w: World, plan: Plan)
    requires w.memory.active.Some?
    ensures var (v, reply) := Finish(w, plan);
            var id := w.memory.active.value.requestId;
            && v.database == w.database
            && (reply.Returned? ==> id in w.database.receipts && reply.receipt == w.database.receipts[id]
                                    && v.memory.active.None? && v.file == v.memory && !v.maintenance)
  {
  }

  lemma AttemptResets(w: World, plan: Plan)
    requires w.memory.active.Some?
    ensures var f := Attempt(w, plan).0;
            && f.memory.active.Some? && f.memory.active.value.requestId == w.memory.active.value.requestId
            && (f.database == w.database || f.database == Reset(w.database, w.memory.active.value.requestId))
  {
  }

  lemma AttemptReturns(w: World, plan: Plan)
    requires w.memory.active.Some? && w.memory.active.value.requestId !in w.database.receipts
    ensures var (f, o) := Attempt(w, plan);
            var (v, reply) := if o.Crashes? then (Restarted(f), Crashed) else if o.Fails? then HandleFailure(f, plan) else Finish(f, plan);
            var id := w.memory.active.value.requestId;
            && (v.database == w.database || v.database == Reset(w.database, id))
            && (reply.Returned? ==> id in v.database.receipts && reply.receipt == v.database.receipts[id]
                                    && v.memory.active.None? && v.file == v.memory && !v.maintenance)
  {
    AttemptResets(w, plan);
    var (f, o) := Attempt(w, plan);
    FinishReturns(f, plan);
    var c := WithPhase(f, Committed);
    FinishReturns(Saved(c, c.memory, plan.saveRecovered), plan);
  }

  lemma CommitReturns(w: World, plan: Plan)
    requires w.memory.active.Some? && w.memory.active.value.requestId !in w.database.receipts
    ensures var (v, reply) := Commit(w, plan);
            var id := w.memory.active.value.requestId;
            && (v.database == w.database || v.database == Reset(w.database, id))
            && (reply.Returned? ==> id in v.database.receipts && reply.receipt == v.database.receipts[id]
                                    && v.memory.active.None? && v.file == v.memory && !v.maintenance)
  {
    FinishReturns(w, plan);
    AttemptReturns(w, plan);
    var d := WithPhase(w, Committed);
    FinishReturns(Saved(d, d.memory, plan.saveCommitted), plan);
  }

  lemma StartReturns(w: World, id: RequestId, plan: Plan)
    requires w.memory.active.Some? ==> w.memory.active.value.requestId == id
    requires id !in w.database.receipts
    ensures var (v, reply) := Start(w, id, plan);
            && (v.database == w.database || v.database == Reset(w.database, id))
            && (reply.Returned? ==> id in v.database.receipts && reply.receipt == v.database.receipts[id]
                                    && v.memory.active.None? && v.file == v.memory && !v.maintenance)
  {
    if w.memory.active.None? {
      var m := Opened(w, id);
      CommitReturns(Saved(m, m.memory, plan.saveActive).(maintenance := true), plan);
    } else if w.memory.active.value.phase == FailedPrecommit {
      var p := WithPhase(w, Prepared);
      CommitReturns(Saved(p, p.memory, plan.saveActive).(maintenance := true), plan);
    } else {
      CommitReturns(w.(maintenance := true), plan);
    }
  }

  // ---- No wipe without a backup ----

  /** The product was drained, both phases were recorded, and the backup was made. */
  predicate BackedUp(plan: Plan) {
    plan.quiesce.Works? && plan.saveBackingUp.Works? && plan.backup.Works? && plan.saveResetting.Works?
  }

  /** The first of those four that did not work raised; the process lives on. */
  predicate RaisesBeforeWipe(plan: Plan) {
    || plan.quiesce.Fails?
    || (plan.quiesce.Works? && plan.saveBackingUp.Fails?)
    || (plan.quiesce.Works? && plan.saveBackingUp.Works? && plan.backup.Fails?)
    || (plan.quiesce.Works? && plan.saveBackingUp.Works? && plan.backup.Works? && plan.saveResetting.Fails?)
  }

  /** The call gets to work on a request of its own that is not committed: no other request is
      active, the lookups answered, and a new or failed request was recorded as prepared. */
  predicate Reaches(w: World, id: RequestId, plan: Plan) {
    && (w.memory.active.None? || w.memory.active.value.requestId == id)
    && id !in w.memory.receipts && id !in w.database.receipts
    && plan.lookup.Works? && plan.readGeneration.Works?
    && (w.memory.active.None? || w.memory.active.value.phase == FailedPrecommit ==> plan.saveActive.Works?)
  }

  /** The commit is known although its report, or the journal entry after it, may have been lost. */
  predicate Settles(plan: Plan) {
    || (plan.transaction.Works? && plan.saveCommitted.Works?)
    || ((plan.transaction.Fails? || (plan.transaction.Works? && plan.saveCommitted.Fails?))
        && plan.lookupAfterFailure.Works? && !plan.saveRecovered.Crashes?)
  }

  predicate Finishes(plan: Plan) {
    plan.lookupFinish.Works? && plan.reload.Works? && plan.saveFinal.Works?
  }

  lemma AttemptWipes(w: World, plan: Plan)
    requires w.memory.active.Some? && w.memory.active.value.requestId !in w.database.receipts
    ensures var (f, o) := Attempt(w, plan);
            var id := w.memory.active.value.requestId;
            && f.memory.active.Some? && f.memory.active.value.requestId == id
            && f.maintenance == w.maintenance
            && (if BackedUp(plan) && plan.transaction.Applied()
                then f.database == Database(w.database.generation + 1,
                                            w.database.receipts[id := Receipt(id, w.database.generation + 1)])
                else f.database == w.database)
            && (o.Works? <==> BackedUp(plan) && plan.transaction.Works? && plan.saveCommitted.Works?)
            && (!BackedUp(plan) ==> (o.Fails? <==> RaisesBeforeWipe(plan)))
            && (BackedUp(plan) ==>
                  (o.Fails? <==> plan.transaction.Fails? || (plan.transaction.Works? && plan.saveCommitted.Fails?)))
  {
  }

  lemma AttemptAnswers(w: World, plan: Plan)
    requires w.memory.active.Some? && w.memory.active.value.requestId !in w.database.receipts && w.maintenance
    requires w.memory.active.value.phase != Committed && w.memory.active.value.before == w.database.generation
    requires plan.readGeneration.Works?
    ensures var (v, reply) := Commit(w, plan);
            var id := w.memory.active.value.requestId;
            && (if BackedUp(plan) && plan.transaction.Applied()
                then v.database == Database(w.database.generation + 1,
                                            w.database.receipts[id := Receipt(id, w.database.generation + 1)])
                else v.database == w.database)
            && (reply.Returned? <==> BackedUp(plan) && plan.transaction.Applied() && Settles(plan) && Finishes(plan))
            && (RaisesBeforeWipe(plan) && plan.lookupAfterFailure.Works? && plan.saveFailed.Works? ==>
                  && reply == Raised(ResetFailed) && v.maintenance && StartupRefused(v.file)
                  && v.memory == v.file && v.memory.active.Some? && v.memory.active.value.requestId == id
                  && v.memory.active.value.phase == FailedPrecommit)
  {
    AttemptWipes(w, plan);
    var (f, o) := Attempt(w, plan);
    if o.Works? {
      FinishReturns(f, plan);
    } else if o.Fails? {
      var c := WithPhase(f, Committed);
      FinishReturns(Saved(c, c.memory, plan.saveRecovered), plan);
    }
  }

  /** The world in which the prepared request of a reaching call is worked on. */
  lemma StartCommits(w: World, id: RequestId, plan: Plan, first: nat)
    returns (c: World)
    requires Safe(w, first) && Reaches(w, id, plan)
    ensures c.database == w.database && c.maintenance
    ensures c.memory.active.Some? && c.memory.active.value.requestId == id
    ensures c.memory.active.value.phase != Committed && c.memory.active.value.before == w.database.generation
    ensures Executed(w, id, "RESET", plan) == Commit(c, plan)
  {
    assert Inv(w, first);
    if w.memory.active.None? {
      var m := Opened(w, id);
      c := Saved(m, m.memory, plan.saveActive).(maintenance := true);
    } else if w.memory.active.value.phase == FailedPrecommit {
      var p := WithPhase(w, Prepared);
      c := Saved(p, p.memory, plan.saveActive).(maintenance := true);
    } else {
      c := w.(maintenance := true);
    }
  }

  lemma UnreachedIsHarmless(w: World, id: RequestId, confirmation: string, plan: Plan, first: nat)
    requires Safe(w, first) && !(confirmation == "RESET" && Reaches(w, id, plan))
    ensures Executed(w, id, confirmation, plan).0.database == w.database
  {
    var (v, reply) := Executed(w, id, confirmation, plan);
    if confirmation == "RESET" && (w.memory.active.Some? ==> w.memory.active.value.requestId == id)
       && id !in w.memory.receipts && plan.lookup.Works? {
      if id in w.database.receipts {
        assert Inv(w, first);
        FinishReturns(w.(maintenance := true), plan);
      } else {
        UnpreparedIsHarmless(w, id, plan, first);
      }
    }
  }

  lemma UnpreparedIsHarmless(w: World, id: RequestId, plan: Plan, first: nat)
    requires Safe(w, first) && !Reaches(w, id, plan)
    requires w.memory.active.Some? ==> w.memory.active.value.requestId == id
    requires id !in w.memory.receipts && id !in w.database.receipts && plan.lookup.Works?
    ensures Start(w, id, plan).0.database == w.database
  {
    if plan.readGeneration.Works? {
      assert !plan.saveActive.Works?;
    }
  }

  lemma ReachedWipes(w: World, id: RequestId, plan: Plan, first: nat)
    requires Safe(w, first) && Reaches(w, id, plan)
    ensures var v := Executed(w, id, "RESET", plan).0;
            if BackedUp(plan) && plan.transaction.Applied()
            then v.database == Database(w.database.generation + 1,
                                        w.database.receipts[id := Receipt(id, w.database.generation + 1)])
            else v.database == w.database
  {
    var c := StartCommits(w, id, plan, first);
    AttemptAnswers(c, plan);
  }

  /** The database is wiped if and only if the call was confirmed, reached its own uncommitted
      request, the product was drained and backed up, both phases were recorded, and the
      transaction was applied. The wipe opens the next generation under the request's receipt. */
  lemma WipedExactly(w: World, id: RequestId, confirmation: string, plan: Plan, first: nat)
    requires Safe(w, first)
    ensures var v := Executed(w, id, confirmation, plan).0;
            && (v.database != w.database <==>
                  confirmation == "RESET" && Reaches(w, id, plan) && BackedUp(plan) && plan.transaction.Applied())
            && (v.database != w.database ==>
                  v.database == Database(w.database.generation + 1,
                                         w.database.receipts[id := Receipt(id, w.database.generation + 1)]))
  {
    if confirmation == "RESET" && Reaches(w, id, plan) {
      ReachedWipes(w, id, plan, first);
    } else {
      UnreachedIsHarmless(w, id, confirmation, plan, first);
    }
  }

  /** A failed drain, backup or journal entry before the transaction leaves the database alone. When
      the lookup and the journal write that follow work, the call raises, the gate stays shut, and
      the request stays behind as failed, so that its retry starts over. */
  lemma NoBackupNoWipe(w: World, id: RequestId, plan: Plan, first: nat)
    requires Safe(w, first) && Reaches(w, id, plan) && !BackedUp(plan)
    ensures var (v, reply) := Executed(w, id, "RESET", plan);
            && v.database == w.database && !reply.Returned?
            && (RaisesBeforeWipe(plan) && plan.lookupAfterFailure.Works? && plan.saveFailed.Works? ==>
                  && reply == Raised(ResetFailed) && v.maintenance && StartupRefused(v.file)
                  && v.memory == v.file && v.memory.active.Some? && v.memory.active.value.requestId == id
                  && v.memory.active.value.phase == FailedPrecommit)
  {
    var c := StartCommits(w, id, plan, first);
    AttemptAnswers(c, plan);
  }

  /** A call that works on its request returns a receipt if and only if the wipe was applied, the
      commit became known even where its report was lost, and the product was reloaded and released. */
  lemma ReturnsExactly(w: World, id: RequestId, plan: Plan, first: nat)
    requires Safe(w, first) && Reaches(w, id, plan)
    ensures Executed(w, id, "RESET", plan).1.Returned? <==>
            BackedUp(plan) && plan.transaction.Applied() && Settles(plan) && Finishes(plan)
  {
    var c := StartCommits(w, id, plan, first);
    AttemptAnswers(c, plan);
  }

  /** A retry of a committed request only releases the product: it returns the receipt if and only
      if the reload and the last journal write work, and until then the gate stays shut. */
  lemma CommittedRetries(w: World, id: RequestId, plan: Plan, first: nat)
    requires Safe(w, first) && w.memory.active.Some? && w.memory.active.value.requestId == id
    requires id in w.database.receipts && plan.lookup.Works?
    ensures var (v, reply) := Executed(w, id, "RESET", plan);
            && v.database == w.database
            && (reply == Returned(w.database.receipts[id]) <==> Finishes(plan))
            && (!Finishes(plan) && !reply.Crashed? ==> v.maintenance && v.memory.active.Some?)
  {
    assert Inv(w, first);
    FinishReturns(w.(maintenance := true), plan);
  }

  /** Recovery is total: from every reachable world with an active request, live or just restarted,
      one failure-free call of that request returns its receipt and ends maintenance for good. */
  lemma RecoveryIsTotal(w: World, id: RequestId, first: nat)
    requires Inv(w, first)
    requires w.memory.active.Some? ==> w.memory.active.value.requestId == id
    ensures var (v, reply) := Executed(w, id, "RESET", FAILURE_FREE);
            && id in v.database.receipts && reply == Returned(v.database.receipts[id])
            && v.memory.active.None? && !v.maintenance
            && v.file == v.memory && !StartupRefused(v.file)
  {
    CallsResetOnce(w, id, "RESET", FAILURE_FREE, first);
  }

  /** Until then every other request is refused and changes nothing, and so is ordinary startup
      once the journal file names the request. */
  lemma OthersAreRefused(w: World, other: RequestId, plan: Plan, first: nat)
    requires Inv(w, first) && w.memory.active.Some? && w.memory.active.value.requestId != other
    ensures Executed(w, other, "RESET", plan) == (w, Raised(Maintenance))
    ensures w.file.active.Some? <==> StartupRefused(w.file)
    ensures w.memory.active.value.requestId in w.database.receipts && w.memory.active.value.requestId !in w.file.receipts
            ==> StartupRefused(w.file)
  {
  }

  /** A failed journal write can leave a request that only memory knows: startup is then allowed,
      and a restart forgets the request. No database receipt can exist for it. */
  lemma UnsavedRequestIsHarmless(w: World, first: nat)
    requires Inv(w, first) && w.memory.active.Some? && w.file.active.None?
    requires w.memory.active.value.requestId !in w.file.receipts
    ensures w.memory.active.value.requestId !in w.database.receipts
    ensures Restarted(w).memory.active.None? && Restarted(w).database == w.database
  {
  }

  // ---- The service ----

  class DeveloperReset {
    var journal: Journal       // the in-memory journal
    var file: Journal          // the journal file on disk
    var database: Database     // generation and receipts of the product database
    var gate: bool             // maintenance as the hardware events see it

    ghost function View(): World
      reads this
    {
      World(journal, file, database, gate)
    }

    /** Starting the process loads the journal file; the durable state is what it is. */
    constructor (file: Journal, database: Database)
      ensures View() == World(file, file, database, file.maintenance)
    {
      this.journal, this.file, this.database, this.gate := file, file, database, file.maintenance;
    }

    method Reboot()
      modifies this
      ensures View() == Restarted(old(View()))
    {
      journal := file;
      gate := journal.maintenance;
    }

    method PersistJournal(replacement: Journal, o: Outcome)
      modifies this`file
      ensures file == if o.Applied() then replacement else old(file)
    {
      if o.Applied() {
        file := replacement;
      }
    }

    /** An effect did not work: the process dies, or the call raises. */
    method GiveUp(o: Outcome, code: Code) returns (r: Reply)
      requires !o.Works?
      modifies this
      ensures (View(), r) == Broken(old(View()), o, code)
    {
      if o.Crashes? {
        Reboot();
        return Crashed;
      }
      return Raised(code);
    }

    method SetPhase(phase: Phase)
      requires journal.active.Some?
      modifies this`journal
      ensures View() == WithPhase(old(View()), phase)
    {
      journal := journal.(active := Some(journal.active.value.(phase := phase)));
    }

    method FailPrecommit(plan: Plan) returns (r: Reply)
      requires journal.active.Some?
      modifies this
      ensures (View(), r) == FailingPrecommit(old(View()), plan)
    {
      SetPhase(FailedPrecommit);
      journal := journal.(maintenance := true);
      PersistJournal(journal, plan.saveFailed);
      if plan.saveFailed.Works? {
        return Raised(ResetFailed);
      }
      r := GiveUp(plan.saveFailed, StorageError);
    }

    method FinishCommitted(plan: Plan) returns (r: Reply)
      requires journal.active.Some?
      modifies this
      ensures (View(), r) == Finish(old(View()), plan)
    {
      var id := journal.active.value.requestId;
      if !plan.lookupFinish.Works? {
        r := GiveUp(plan.lookupFinish, StorageError);
        return;
      }
      if id !in database.receipts {
        r := FailPrecommit(plan);
        return;
      }
      var receipt := database.receipts[id];
      if plan.reload.Crashes? {
        Reboot();
        return Crashed;
      }
      if plan.reload.Fails? {
        SetPhase(Committed);
        PersistJournal(journal, plan.saveReloadError);
        if plan.saveReloadError.Works? {
          return Raised(ReloadFailed);
        }
        r := GiveUp(plan.saveReloadError, StorageError);
        return;
      }
      var completed := journal.(receipts := journal.receipts[id := receipt], active := None, maintenance := false);
      PersistJournal(completed, plan.saveFinal);
      if !plan.saveFinal.Works? {
        r := GiveUp(plan.saveFinal, FinalizeFailed);
        return;
      }
      journal := completed;
      gate := false;
      return Returned(receipt);
    }

    method RecoverDatabaseReceipt(id: RequestId, plan: Plan) returns (r: Reply)
      requires id in database.receipts
      modifies this
      ensures (View(), r) == Recovered(old(View()), id, plan)
    {
      if journal.active.Some? && journal.active.value.requestId == id {
        gate := true;
        r := FinishCommitted(plan);
        return;
      }
      journal := journal.(receipts := journal.receipts[id := database.receipts[id]]);
      PersistJournal(journal, plan.saveActive);
      if plan.saveActive.Works? {
        return Returned(database.receipts[id]);
      }
      r := GiveUp(plan.saveActive, StorageError);
    }

    /** The guarded block; it stops at the first effect that does not work. */
    method TryReset(plan: Plan) returns (o: Outcome)
      requires journal.active.Some?
      modifies this
      ensures (View(), o) == Attempt(old(View()), plan)
    {
      var id := journal.active.value.requestId;
      if !plan.quiesce.Works? {
        return plan.quiesce;
      }
      SetPhase(BackingUp);
      PersistJournal(journal, plan.saveBackingUp);
      if !plan.saveBackingUp.Works? {
        return plan.saveBackingUp;
      }
      if !plan.backup.Works? {
        return plan.backup;
      }
      SetPhase(Resetting);
      PersistJournal(journal, plan.saveResetting);
      if !plan.saveResetting.Works? {
        return plan.saveResetting;
      }
      if plan.transaction.Applied() && id !in database.receipts {
        var generation := database.generation + 1;
        database := Database(generation, database.receipts[id := Receipt(id, generation)]);
      }
      if !plan.transaction.Works? {
        return plan.transaction;
      }
      SetPhase(Committed);
      PersistJournal(journal, plan.saveCommitted);
      return plan.saveCommitted;
    }

    method Continue(plan: Plan) returns (r: Reply)
      requires journal.active.Some?
      modifies this
      ensures (View(), r) == Commit(old(View()), plan)
    {
      var active := journal.active.value;
      if active.phase == Committed {
        r := FinishCommitted(plan);
      } else if !plan.readGeneration.Works? {
        r := GiveUp(plan.readGeneration, StorageError);
      } else if database.generation > active.before {
        SetPhase(Committed);
        PersistJournal(journal, plan.saveCommitted);
        if plan.saveCommitted.Works? {
          r := FinishCommitted(plan);
        } else {
          r := GiveUp(plan.saveCommitted, StorageError);
        }
      } else if database.generation != active.before {
        r := FailPrecommit(plan);
      } else {
        var o := TryReset(plan);
        if o.Works? {
          r := FinishCommitted(plan);
        } else if o.Crashes? {
          Reboot();
          r := Crashed;
        } else {
          r := Handle(plan);
        }
      }
    }

    method Handle(plan: Plan) returns (r: Reply)
      requires journal.active.Some?
      modifies this
      ensures (View(), r) == HandleFailure(old(View()), plan)
    {
      if !plan.lookupAfterFailure.Works? {
        r := GiveUp(plan.lookupAfterFailure, StorageError);
      } else if journal.active.value.requestId in database.receipts {
        SetPhase(Committed);
        PersistJournal(journal, plan.saveRecovered);
        if plan.saveRecovered.Crashes? {
          Reboot();
          r := Crashed;
        } else {
          r := FinishCommitted(plan);
        }
      } else {
        r := FailPrecommit(plan);
      }
    }

    method Execute(id: RequestId, confirmation: string, plan: Plan) returns (r: Reply)
      modifies this
      ensures (View(), r) == Executed(old(View()), id, confirmation, plan)
    {
      if confirmation != "RESET" {
        return Raised(ConfirmationRequired);
      }
      if journal.active.Some? && journal.active.value.requestId != id {
        return Raised(Maintenance);
      }
      if id in journal.receipts {
        return Returned(journal.receipts[id]);
      }
      if !plan.lookup.Works? {
        r := GiveUp(plan.lookup, StorageError);
        return;
      }
      if id in database.receipts {
        r := RecoverDatabaseReceipt(id, plan);
        return;
      }
      if journal.active.None? {
        if !plan.readGeneration.Works? {
          r := GiveUp(plan.readGeneration, StorageError);
          return;
        }
        journal := journal.(active := Some(Active(id, Prepared, database.generation)), maintenance := true);
        PersistJournal(journal, plan.saveActive);
        if !plan.saveActive.Works? {
          r := GiveUp(plan.saveActive, StorageError);
          return;
        }
      } else if journal.active.value.phase == FailedPrecommit {
        SetPhase(Prepared);
        PersistJournal(journal, plan.saveActive);
        if !plan.saveActive.Works? {
          r := GiveUp(plan.saveActive, StorageError);
          return;
        }
      }
      gate := true;
      r := Continue(plan);
    }
  }
}
