/** When an accepted enrollment may still go on: the authority of its device, actor and target at the
    instant of activation and completion, field by field. */
module EnrollmentAuthority {
  import opened Outcomes
  import opened SecuritySchema
  import opened SecurityState
  import opened EnrollmentRequests
  import Store = SecurityStore

  /** The device the request came from is still the actor's, is on, and its session has not run out. */
  predicate DeviceGood(db: Db, row: Row, now: int) {
    && row.key.device in db.devices
    && db.devices[row.key.device].user == row.actor
    && db.devices[row.key.device].active
    && (db.devices[row.key.device].expires.Some? ==> now < db.devices[row.key.device].expires.value)
  }

  /** The account is there, is on, and has not changed since the receipt was written. */
  predicate AccountGood(db: Db, u: Id, version: nat) {
    u in db.users && db.users[u].active && u in db.security && db.security[u].version == version
  }

  predicate OwnerTarget(db: Db, row: Row) {
    db.lifecycle.Some? && db.lifecycle.value.ownership.ClaimedBy? && db.lifecycle.value.ownership.owner == row.target
  }

  /** A receipt goes on exactly while the product's generation is its own, its device is good, its actor and
      its target are unchanged, and the owner's account is enrolled by the owner alone. For everything
      but the last it fails as expired. */
  lemma AuthorityStandsExactly(rows: map<SessionId, Row>, origins: map<SessionId, Db>, db: Db, s: SessionId, now: int)
    requires Recorded(rows, origins, db) && s in rows && db.lifecycle.Some?
    ensures var row := rows[s];
            var stands := db.lifecycle.value.generation == row.key.generation && DeviceGood(db, row, now)
                          && AccountGood(db, row.actor, row.actorVersion) && AccountGood(db, row.target, row.targetVersion);
            && (CompletionRefusal(db, row, now) == Some(AuthorizationExpired) <==> !stands)
            && (CompletionRefusal(db, row, now).None? <==> stands && (OwnerTarget(db, row) ==> row.actor == row.target))
  {
    if CompletionRefusal(db, rows[s], now) != Some(AuthorizationExpired) {
      UnexpiredAuthorityIsUnchanged(rows, origins, db, s, now);
    }
  }

  /** A reservation can be activated and completed from the instant it is made, for as long as its actor is
      signed in on its device and nothing changes. */
  lemma ReservedMayComplete(db: Db, p: Store.Principal, request: RequestId, target: Id, now: int, later: int)
    requires Store.Current(db, p, now) && Store.Current(db, p, later) && db.lifecycle.Some?
    requires Store.ControlRefusal(db, p, EnrollmentStart, Some(target)).None? && Store.SecurityUser(db, target)
    ensures var row := Row(Key(Generation(db), p.device, request), p.user, p.version, target, db.security[target].version,
                           Accepted, None, now, now);
            CompletionRefusal(db, row, later).None?
  {
  }

  /** Revoking the device, the end of its session, a new host identity and a reset each refuse the receipt
      as expired. */
  lemma LostDeviceExpires(rows: map<SessionId, Row>, origins: map<SessionId, Db>, db: Db, s: SessionId, activation: Token, now: int)
    requires Recorded(rows, origins, db) && s in rows && db.lifecycle.Some?
    ensures var device := rows[s].key.device;
            && (device in db.devices ==> CompletionRefusal(Disabled(db, device), rows[s], now) == Some(AuthorizationExpired))
            && (device in db.devices && db.devices[device].expires.Some? && db.devices[device].expires.value <= now ==>
                  CompletionRefusal(db, rows[s], now) == Some(AuthorizationExpired))
    ensures CompletionRefusal(Rotated(db), rows[s], now) == Some(AuthorizationExpired)
    ensures CompletionRefusal(Wiped(db, activation), rows[s], now) == Some(AuthorizationExpired)
  {
    assert ReceiptsOk(rows, origins, db);
    assert Follows(origins[s], db);
  }

  /** So does a new PIN of either account, and the deletion of the one to be enrolled. */
  lemma LostAccountExpires(rows: map<SessionId, Row>, origins: map<SessionId, Db>, db: Db, s: SessionId, pin: Pin, now: int)
    requires Recorded(rows, origins, db) && s in rows && db.lifecycle.Some?
    ensures CompletionRefusal(PinChanged(db, rows[s].actor, pin), rows[s], now) == Some(AuthorizationExpired)
    ensures CompletionRefusal(PinChanged(db, rows[s].target, pin), rows[s], now) == Some(AuthorizationExpired)
    ensures IsActive(db, rows[s].target) ==>
              var d := db.(users := db.users[rows[s].target := db.users[rows[s].target].(active := false, access := false, face := None)]);
              CompletionRefusal(BumpIdentity(d, rows[s].target), rows[s], now) == Some(AuthorizationExpired)
  {
    assert ReceiptsOk(rows, origins, db);
    assert Follows(origins[s], db);
  }
}
