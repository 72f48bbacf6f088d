/** Owner recovery around the running product: prove the authority, close the gate, drain the work,
    commit once, and open the gate again. A step that fails leaves the gate closed for the one request
    that may finish it. */
module HostLifecycle {
  import opened Outcomes
  import Schema = SecuritySchema
  import State = SecurityState
  import Store = SecurityStore
  import Receipts = CommissioningStore
  import Events = HardwareEvents

  datatype Code =
    | Denied(reason: Receipts.Code)
    | Gated(gate: Events.Code)
    | OwnershipRecoveryRequired
    | DrainFailed
    | ReloadFailed

  /** One digested recovery request under its request id. */
  datatype Change = Change(id: Receipts.RequestId, request: Receipts.Request)

  datatype Answer = Response(response: Receipts.Response) | Refused(code: Code)

  /** Why the authority of a recovery that holds no receipt does not stand. */
  function ValidationRefusal(db: Schema.Db, request: Receipts.Request): Option<Store.Code>
    requires request.RecoverRequest?
  {
    if db.lifecycle.None? then Some(Store.CommissioningUnavailable)
    else if !Schema.Claimed(db) || db.lifecycle.value.ownership.recovery != request.secret then Some(Store.InvalidRecovery)
    else if !Schema.ActiveAdmin(db, Schema.Owner(db)) then Some(Store.OwnershipInconsistent)
    else None
  }

  class HostLifecycle {
    const receipts: Receipts.CommissioningStore
    const events: Events.HardwareEvents
    var pendingChange: Option<Change>

    /** While an ownership change is unfinished the product is gated, and nothing is live. */
    ghost predicate Valid()
      reads this, receipts, receipts.security, events
    {
      && receipts.security.Valid()
      && (pendingChange.Some? ==> events.maintenance && pendingChange.value.request.RecoverRequest?)
    }

    constructor (receipts: Receipts.CommissioningStore, events: Events.HardwareEvents)
      requires receipts.security.Valid()
      ensures Valid() && this.receipts == receipts && this.events == events && pendingChange.None?
    {
      this.receipts, this.events := receipts, events;
      pendingChange := None;
    }

    /** Prove the authority of a new change and close the gate for it, or answer at once. */
    method Admit(change: Change, time: real) returns (answer: Option<Answer>)
      requires Valid() && pendingChange.None? && change.request.RecoverRequest?
      modifies this, events
      ensures Valid()
      ensures answer.Some? ==> pendingChange.None? && events.View() == old(events.View())
      ensures answer.None? ==> pendingChange == Some(change) && events.View() == Events.SetMaintenance(old(events.View()), true)
      ensures answer.None? <==>
                && change.id !in receipts.attempts
                && ValidationRefusal(receipts.security.db, change.request).None?
                && Events.RequireWindow(old(events.View()), Events.RecoveryWindow, time) == Events.Accepted
      ensures answer.Some? && answer.value.Response? ==>
                change.id in receipts.attempts && receipts.attempts[change.id] == Receipts.Attempt(change.request, answer.value.response)
    {
      if change.id in receipts.attempts {
        var attempt := receipts.attempts[change.id];
        return Some(if attempt.request == change.request then Response(attempt.response) else Refused(Denied(Receipts.RequestIdReused)));
      }
      var refusal := ValidationRefusal(receipts.security.db, change.request);
      if refusal.Some? {
        return Some(Refused(Denied(Receipts.Denied(refusal.value))));
      }
      var gate := events.RequireOperational();
      if gate.Some? {
        return Some(Refused(Gated(gate.value)));
      }
      if events.recoveryUntil <= time {
        return Some(Refused(Gated(Events.WindowRequired)));
      }
      pendingChange := Some(change);
      events.MaintenanceMode(true);
      return None;
    }

    /** Recover the owner. Only the request whose change is unfinished may go on; its commit happens at
        most once, because a commit that was answered by an error is found again by its receipt. */
    method RecoverOwner(change: Change, device: Schema.Id, drains: bool, resumes: bool, time: real, now: int) returns (a: Answer)
      requires Valid() && change.request.RecoverRequest?
      requires device !in receipts.security.db.devices
      modifies this, events, receipts, receipts.security
      ensures Valid() && State.Evolves(old(receipts.security.db), receipts.security.db)
      ensures old(pendingChange).Some? && old(pendingChange).value != change ==>
                && a == Refused(OwnershipRecoveryRequired)
                && pendingChange == old(pendingChange) && receipts.attempts == old(receipts.attempts) && receipts.security.db == old(receipts.security.db)
      ensures change.id in old(receipts.attempts) ==> receipts.attempts == old(receipts.attempts) && receipts.security.db == old(receipts.security.db)
      ensures receipts.attempts != old(receipts.attempts) ==>
                && drains
                && (old(pendingChange) == Some(change)
                    || (ValidationRefusal(old(receipts.security.db), change.request).None?
                        && Events.RequireWindow(old(events.View()), Events.RecoveryWindow, time) == Events.Accepted))
                && (exists response :: receipts.attempts == old(receipts.attempts)[change.id := Receipts.Attempt(change.request, response)])
      ensures a.Response? ==> change.id in receipts.attempts && receipts.attempts[change.id] == Receipts.Attempt(change.request, a.response)
      ensures a.Response? || a == Refused(OwnershipRecoveryRequired) || pendingChange.None? || pendingChange == Some(change)
      ensures pendingChange.Some? && pendingChange != old(pendingChange) ==> a == Refused(DrainFailed) || a == Refused(ReloadFailed)
      ensures var admitted := old(pendingChange) == Some(change)
                              || (old(pendingChange).None? && change.id !in old(receipts.attempts)
                                  && ValidationRefusal(old(receipts.security.db), change.request).None?
                                  && Events.RequireWindow(old(events.View()), Events.RecoveryWindow, time) == Events.Accepted);
              && (admitted && !drains ==>
                    && a == Refused(DrainFailed) && pendingChange == Some(change) && events.maintenance
                    && receipts.attempts == old(receipts.attempts) && receipts.security.db == old(receipts.security.db))
              && (admitted && drains && !resumes ==> a == Refused(ReloadFailed) && pendingChange == Some(change) && events.maintenance)
              && (admitted && drains && resumes ==> pendingChange.None? && !events.maintenance)
              && (admitted && drains && change.id !in old(receipts.attempts) ==>
                    (change.id in receipts.attempts <==>
                       Schema.Claimed(old(receipts.security.db))
                       && old(receipts.security.db).lifecycle.value.ownership.recovery == change.request.secret))
    {
      assert State.Follows(receipts.security.db, receipts.security.db);
      if pendingChange.Some? {
        if pendingChange.value != change {
          return Refused(OwnershipRecoveryRequired);
        }
      } else {
        var answer := Admit(change, time);
        if answer.Some? {
          return answer.value;
        }
      }
      if !drains {
        return Refused(DrainFailed);
      }
      var r := receipts.Submit(change.id, change.request, Receipts.Circumstances(true, events.maintenance, "", device), now);
      if !resumes {
        return Refused(ReloadFailed);
      }
      events.MaintenanceMode(false);
      pendingChange := None;
      return match r
        case Success(response) => Response(response)
        case Failure(code) => Refused(Denied(code));
    }
  }
}
