// The pending-action service as it updates its rows: each method is proved to perform the
// transaction of module ActionRows.

module ActionStore {
  import opened Common
  import opened ActionPayloads
  import ActionHandlers
  import opened ActionRows

  const EXPIRY_SWEEP_BATCH := 500

  class Store {
    var actions: map<ActionId, Row>
    var audit: map<ActionId, seq<Event>>
    var nextToken: Token
    const codec: Codec

    constructor (codec: Codec)
      ensures Contents() == Tables(map[], map[], 0) && this.codec == codec
    {
      actions, audit, nextToken := map[], map[], 0;
      this.codec := codec;
    }

    function Contents(): Tables
      reads this
    {
      Tables(actions, audit, nextToken)
    }

    method Audit(id: ActionId, eventType: EventType, oldStatus: Status, newStatus: Status,
                 actor: Option<UserId>, reason: Option<Code>)
      requires id in actions
      modifies this`audit
      ensures var event := Event(eventType, oldStatus, newStatus, actor, actions[id].attemptToken, reason);
              audit == old(audit)[id := old(Contents().Log(id)) + [event]]
    {
      var log := if id in audit then audit[id] else [];
      audit := audit[id := log + [Event(eventType, oldStatus, newStatus, actor, actions[id].attemptToken, reason)]];
    }

    method MarkReconciliationRequired(id: ActionId, reason: Code, at: Time, actor: Option<UserId>, eventType: EventType)
      requires id in actions
      modifies this`actions, this`audit
      ensures Contents() == MarkUnknown(old(Contents()), id, reason, at, actor, eventType)
    {
      var oldStatus := actions[id].status;
      actions := actions[id := actions[id].(status := ReconciliationRequired)];
      actions := actions[id := actions[id].(errorCode := Some(reason))];
      actions := actions[id := actions[id].(reconciliationReason := Some(reason))];
      actions := actions[id := actions[id].(reconciliationRequiredAt := Some(at))];
      actions := actions[id := actions[id].(processedAt := Some(at))];
      Audit(id, eventType, oldStatus, ReconciliationRequired, actor, Some(reason));
      assert actions == old(actions)[id := actions[id]];
    }

    method CreatePendingAction(owner: UserId, kind: Kind, payload: Payload, key: string, newId: ActionId, now: Time)
      returns (r: Result<ActionId, Error>)
      modifies this
      ensures (Contents(), r) == Create(codec, old(Contents()), owner, kind, payload, key, newId, now)
    {
      hide Canonicalize, ActionHandlers.ValidCommandKey;
      if !ActionHandlers.ValidCommandKey(key) {
        return Err(InvalidCommand);
      }
      var canonical := Canonicalize(codec.lib, kind, payload);
      if canonical.None? {
        return Err(InvalidCommand);
      }
      var hash := codec.hash(canonical.value);
      var existing := set id | id in actions && SameCommand(actions[id], owner, key);
      if existing != {} {
        if exists id <- existing :: actions[id].kind != kind || actions[id].payloadHash != hash {
          return Err(CommandConflict);
        }
        return Ok(Least(existing));
      }
      actions := actions[newId := Staged(owner, kind, canonical.value, hash, key, now)];
      audit := audit[newId := []];
      return Ok(newId);
    }

    method RejectPendingAction(id: ActionId, user: UserId, at: Time) returns (r: Result<Row, Error>)
      modifies this`actions, this`audit
      ensures (Contents(), r) == RejectAction(old(Contents()), id, user, at)
    {
      if id !in actions || actions[id].owner != user {
        return Err(NotFound);
      }
      if actions[id].status.Pending? {
        var oldStatus := actions[id].status;
        actions := actions[id := actions[id].(status := Rejected)];
        actions := actions[id := actions[id].(processedAt := Some(at))];
        Audit(id, RejectedByOwner, oldStatus, Rejected, Some(user), None);
        assert actions == old(actions)[id := actions[id]];
      } else if !actions[id].status.Rejected? && !actions[id].status.Expired? {
        return Err(InvalidState);
      }
      return Ok(actions[id]);
    }

    method ClaimPendingAction(id: ActionId, user: UserId, now: Time, at: Time) returns (r: Result<(Row, bool), Error>)
      modifies this
      ensures (Contents(), r) == ClaimAction(codec, old(Contents()), id, user, now, at)
    {
      hide Canonicalize, MarkUnknown;
      if id !in actions || actions[id].owner != user {
        return Err(NotFound);
      }
      if actions[id].status.Processing? && (actions[id].leaseExpiresAt.None? || actions[id].leaseExpiresAt.value <= now) {
        MarkReconciliationRequired(id, ActionHandlers.ProcessingLeaseExpired, at, None, MarkedForReconciliation);
        return Ok((actions[id], false));
      }
      if actions[id].status.Pending? && actions[id].expiresAt <= now {
        var oldStatus := actions[id].status;
        actions := actions[id := actions[id].(status := Expired)];
        actions := actions[id := actions[id].(processedAt := Some(now))];
        Audit(id, ExpiredUnapproved, oldStatus, Expired, None, None);
        assert actions == old(actions)[id := actions[id]];
        return Ok((actions[id], false));
      }
      if !actions[id].status.Pending? {
        return Ok((actions[id], false));
      }
      var canonical := Canonicalize(codec.lib, actions[id].kind, actions[id].payload);
      if canonical.None? || codec.hash(canonical.value) != actions[id].payloadHash {
        MarkReconciliationRequired(id, ActionHandlers.PayloadIntegrityMismatch, at, None, MarkedForReconciliation);
        return Ok((actions[id], false));
      }
      var oldStatus := actions[id].status;
      actions := actions[id := actions[id].(status := Processing)];
      actions := actions[id := actions[id].(approvedAt := Some(now))];
      actions := actions[id := actions[id].(attemptToken := Some(nextToken))];
      nextToken := nextToken + 1;
      actions := actions[id := actions[id].(attemptCount := actions[id].attemptCount + 1)];
      actions := actions[id := actions[id].(attemptStartedAt := Some(now))];
      actions := actions[id := actions[id].(leaseExpiresAt := Some(now + PROCESSING_LEASE))];
      Audit(id, Claimed, oldStatus, Processing, Some(user), None);
      assert actions == old(actions)[id := actions[id]];
      return Ok((actions[id], true));
    }

    method FinalizeClaimedAction(id: ActionId, token: Option<Token>, request: Request, now: Time, at: Time)
      returns (r: Result<Row, Error>)
      modifies this`actions, this`audit
      ensures (Contents(), r) == Finalize(old(Contents()), id, token, request, now, at)
    {
      if token.None? {
        return Err(InvalidState);
      }
      if id !in actions {
        return Err(NotFound);
      }
      if !actions[id].status.Processing? || actions[id].attemptToken != token {
        return Ok(actions[id]);
      }
      if actions[id].leaseExpiresAt.None? || actions[id].leaseExpiresAt.value <= now {
        MarkReconciliationRequired(id, ActionHandlers.ProcessingLeaseExpired, at, None, MarkedForReconciliation);
      } else if request.status.ReconciliationRequired? {
        MarkReconciliationRequired(id, request.errorCode.GetOr(ActionHandlers.ProviderOutcomeUnknown), at, None,
                                   request.eventType);
      } else {
        var oldStatus := actions[id].status;
        actions := actions[id := actions[id].(status := request.status)];
        actions := actions[id := actions[id].(result := request.result)];
        actions := actions[id := actions[id].(errorCode := request.errorCode)];
        actions := actions[id := actions[id].(processedAt := Some(at))];
        Audit(id, request.eventType, oldStatus, request.status, None, request.errorCode);
        assert actions == old(actions)[id := actions[id]];
      }
      return Ok(actions[id]);
    }

    method PromoteForReconciliation(id: ActionId, operator: UserId, now: Time, at: Time) returns (r: Result<Row, Error>)
      modifies this`actions, this`audit
      ensures (Contents(), r) == OpenReconciliation(old(Contents()), id, operator, now, at)
    {
      if id !in actions {
        return Err(NotFound);
      }
      if actions[id].status.Processing? && (actions[id].leaseExpiresAt.None? || actions[id].leaseExpiresAt.value <= now) {
        MarkReconciliationRequired(id, ActionHandlers.ProcessingLeaseExpired, at, Some(operator),
                                   OperatorPromotedExpiredLease);
      } else if !actions[id].status.ReconciliationRequired? {
        return Err(InvalidState);
      }
      return Ok(actions[id]);
    }

    method SettleReconciliation(id: ActionId, operator: UserId, verdict: ActionHandlers.Verdict, at: Time)
      returns (r: Result<Row, Error>)
      modifies this`actions, this`audit
      ensures (Contents(), r) == CloseReconciliation(old(Contents()), id, operator, verdict, at)
    {
      if id !in actions {
        return Err(NotFound);
      }
      if !actions[id].status.ReconciliationRequired? {
        return Ok(actions[id]);
      }
      var oldStatus := actions[id].status;
      match verdict {
        case Found(externalId) =>
          actions := actions[id := actions[id].(status := Succeeded)];
          actions := actions[id := actions[id].(result := Some(externalId))];
          actions := actions[id := actions[id].(errorCode := None)];
          actions := actions[id := actions[id].(processedAt := Some(at))];
        case NotFound =>
          actions := actions[id := actions[id].(status := Failed)];
          actions := actions[id := actions[id].(result := None)];
          actions := actions[id := actions[id].(errorCode := ErrorOf(verdict))];
          actions := actions[id := actions[id].(processedAt := Some(at))];
        case StillUnknown(code) =>
          actions := actions[id := actions[id].(errorCode := Some(code))];
          actions := actions[id := actions[id].(reconciliationReason := Some(code))];
          actions := actions[id := actions[id].(reconciliationRequiredAt := Some(at))];
      }
      Audit(id, OperatorReconciled, oldStatus, actions[id].status, Some(operator), ErrorOf(verdict));
      assert actions == old(actions)[id := actions[id]];
      return Ok(actions[id]);
    }

    // ---------- The expiry sweep ----------

    // SELECT ... ORDER BY expires_at LIMIT limit FOR UPDATE SKIP LOCKED
    method StaleBatch(locked: set<ActionId>, now: Time, limit: nat) returns (ids: seq<ActionId>)
      ensures forall i, j :: 0 <= i < j < |ids| ==> ids[i] != ids[j]
      ensures forall id <- ids :: Stale(Contents(), locked, id, now)
      ensures |ids| == limit || (forall id :: Stale(Contents(), locked, id, now) ==> id in ids)
      ensures forall id, other :: id in ids && id in actions && Stale(Contents(), locked, other, now) && other !in ids ==>
                actions[id].expiresAt <= actions[other].expiresAt
    {
      ids := [];
      var remaining := StaleIds(Contents(), locked, now);
      while |ids| < limit && remaining != {}
        invariant |ids| <= limit
        invariant forall i, j :: 0 <= i < j < |ids| ==> ids[i] != ids[j]
        invariant forall id :: Stale(Contents(), locked, id, now) <==> id in remaining || id in ids
        invariant forall id <- ids :: id !in remaining
        invariant forall id, other :: id in ids && other in remaining ==> actions[id].expiresAt <= actions[other].expiresAt
        decreases |remaining|
      {
        var id := Earliest(remaining);
        ids := ids + [id];
        remaining := remaining - {id};
      }
    }

    method Earliest(ids: set<ActionId>) returns (id: ActionId)
      requires ids != {} && ids <= actions.Keys
      ensures id in ids && forall other <- ids :: actions[id].expiresAt <= actions[other].expiresAt
    {
      id :| id in ids;
      var rest := ids - {id};
      while rest != {}
        invariant rest <= ids && id in ids
        invariant forall other <- ids :: other in rest || actions[id].expiresAt <= actions[other].expiresAt
      {
        var next :| next in rest;
        if actions[next].expiresAt < actions[id].expiresAt {
          id := next;
        }
        rest := rest - {next};
      }
    }

    method AddSweptEvents(ids: seq<ActionId>)
      requires forall i, j :: 0 <= i < j < |ids| ==> ids[i] != ids[j]
      modifies this`audit
      ensures audit.Keys == old(audit.Keys) + SetOf(ids)
      ensures forall id <- audit ::
                audit[id] == old(Contents().Log(id)) + (if id in ids then [SWEPT_EVENT] else [])
    {
      var i := 0;
      while i < |ids|
        invariant 0 <= i <= |ids|
        invariant audit.Keys == old(audit.Keys) + SetOf(ids[..i])
        invariant forall id <- audit ::
            audit[id] == (if id in ids[..i] then old(Contents().Log(id)) + [SWEPT_EVENT] else old(Contents().Log(id)))
      {
        var id := ids[i];
        assert id !in ids[..i];
        assert Contents().Log(id) == old(Contents().Log(id));
        audit := audit[id := Contents().Log(id) + [SWEPT_EVENT]];
        assert ids[..i + 1] == ids[..i] + [id];
        i := i + 1;
      }
      assert ids[..i] == ids;
    }

    // One pass of the loop body: the batch expires and is audited.
    method ExpireBatch(ids: seq<ActionId>, now: Time)
      requires forall i, j :: 0 <= i < j < |ids| ==> ids[i] != ids[j]
      requires forall id <- ids :: id in actions
      modifies this`actions, this`audit
      ensures Contents() == ExpireAll(old(Contents()), SetOf(ids), now)
    {
      ghost var db := Contents();
      ghost var all := SetOf(ids);
      actions := map id | id in actions :: if id in ids then actions[id].(status := Expired, processedAt := Some(now)) else actions[id];
      assert actions == ExpireAll(db, all, now).actions;
      AddSweptEvents(ids);
      IsExpireAll(db, Contents(), ids, now);
    }

    // The loop of `expire_stale_actions`.  `locks(k)` are the rows others hold locked at the k-th batch.
    // Every stale row expires, with exactly one audit event each, but the skipped ones: those were
    // locked at the last batch.
    method ExpireStaleActions(locks: nat -> set<ActionId>, now: Time)
      returns (swept: nat, ghost skipped: set<ActionId>, ghost last: nat)
      modifies this`actions, this`audit
      ensures skipped <= locks(last) && skipped <= StaleIds(old(Contents()), {}, now)
      ensures Contents() == ExpireAll(old(Contents()), StaleIds(old(Contents()), skipped, now), now)
      ensures swept == |StaleIds(old(Contents()), skipped, now)|
    {
      hide ExpireAll, Stale;
      ghost var db := Contents();
      ghost var done: set<ActionId> := {};
      var batch := 0;
      swept := 0;
      ExpireNone(db, now);
      while true
        invariant done <= StaleIds(db, {}, now) && swept == |done|
        invariant Contents() == ExpireAll(db, done, now)
        decreases |StaleIds(db, {}, now) - done|
      {
        var actionIds := StaleBatch(locks(batch), now, EXPIRY_SWEEP_BATCH);
        UnlockedIsStale(Contents(), locks(batch), now);
        SweepProgress(db, done, actionIds, {}, now);
        ghost var before := done;
        ExpireBatch(actionIds, now);
        done := done + SetOf(actionIds);
        swept := swept + |actionIds|;
        if |actionIds| < EXPIRY_SWEEP_BATCH {
          skipped, last := StaleIds(db, {}, now) - done, batch;
          SkippedIsLocked(db, before, actionIds, locks(batch), now);
          return;
        }
        batch := batch + 1;
      }
    }

    method CleanupRetainedRecords(locks: nat -> set<ActionId>, now: Time, retention: Time)
      returns (expired: nat, deleted: nat, ghost skipped: set<ActionId>, ghost last: nat)
      modifies this`actions, this`audit
      ensures skipped <= locks(last) && skipped <= StaleIds(old(Contents()), {}, now)
      ensures Contents() == Cleanup(old(Contents()), skipped, now, retention)
      ensures expired == |StaleIds(old(Contents()), skipped, now)|
      ensures deleted == |DeletableIds(ExpireAll(old(Contents()), StaleIds(old(Contents()), skipped, now), now),
                                       now - retention)|
    {
      hide ExpireAll, StaleIds;
      expired, skipped, last := ExpireStaleActions(locks, now);
      var cutoff := now - retention;
      ghost var db := Contents();
      var doomed := DeletableIds(Contents(), cutoff);
      deleted := |doomed|;
      actions := map id | id in actions && id !in doomed :: actions[id];
      audit := map id | id in audit && id !in doomed :: audit[id];
      assert actions == DeleteResolved(db, cutoff).actions;
      assert audit == DeleteResolved(db, cutoff).audit;
    }
  }

  // ---------- Facts about the sweep ----------

  lemma IsExpireAll(db: Tables, db': Tables, ids: seq<ActionId>, now: Time)
    requires forall id <- ids :: id in db.actions
    requires db'.actions == ExpireAll(db, SetOf(ids), now).actions && db'.nextToken == db.nextToken
    requires db'.audit.Keys == db.audit.Keys + SetOf(ids)
    requires forall id <- db'.audit :: db'.audit[id] == (if id in ids then db.Log(id) + [SWEPT_EVENT] else db.Log(id))
    ensures db' == ExpireAll(db, SetOf(ids), now)
  {
    assert db'.audit == ExpireAll(db, SetOf(ids), now).audit;
  }

  lemma ExpireNone(db: Tables, now: Time)
    ensures ExpireAll(db, {}, now) == db
  {
    assert ExpireAll(db, {}, now).actions == db.actions;
    assert ExpireAll(db, {}, now).audit == db.audit;
  }

  lemma ExpireTwice(db: Tables, a: set<ActionId>, b: set<ActionId>, now: Time)
    requires a <= db.actions.Keys && b <= db.actions.Keys && a !! b
    ensures ExpireAll(ExpireAll(db, a, now), b, now) == ExpireAll(db, a + b, now)
  {
    var once := ExpireAll(db, a, now);
    assert once.actions.Keys == db.actions.Keys;
    assert ExpireAll(once, b, now).actions == ExpireAll(db, a + b, now).actions;
    assert ExpireAll(once, b, now).audit == ExpireAll(db, a + b, now).audit;
  }

  // Expired rows are not stale any more; the others stay as they were.
  lemma StaleAfter(db: Tables, done: set<ActionId>, locked: set<ActionId>, now: Time)
    requires done <= StaleIds(db, locked, now)
    ensures forall id :: Stale(ExpireAll(db, done, now), locked, id, now) <==> id in StaleIds(db, locked, now) && id !in done
  {
  }

  lemma {:induction false} DistinctCount(ids: seq<ActionId>)
    requires forall i, j :: 0 <= i < j < |ids| ==> ids[i] != ids[j]
    ensures |SetOf(ids)| == |ids|
  {
    if ids != [] {
      var init, last := ids[..|ids| - 1], ids[|ids| - 1];
      DistinctCount(init);
      assert ids == init + [last];
      assert last !in SetOf(init);
      assert SetOf(ids) == SetOf(init) + {last};
    }
  }

  // What one batch contributes.
  lemma SweepProgress(db: Tables, done: set<ActionId>, ids: seq<ActionId>, locked: set<ActionId>, now: Time)
    requires done <= StaleIds(db, locked, now)
    requires forall i, j :: 0 <= i < j < |ids| ==> ids[i] != ids[j]
    requires forall id <- ids :: Stale(ExpireAll(db, done, now), locked, id, now)
    ensures forall id <- ids :: id in ExpireAll(db, done, now).actions
    ensures var batch := SetOf(ids);
            var done' := done + batch;
            && done' <= StaleIds(db, locked, now)
            && |done'| == |done| + |ids|
            && ExpireAll(ExpireAll(db, done, now), batch, now) == ExpireAll(db, done', now)
            && (ids != [] ==> |StaleIds(db, locked, now) - done'| < |StaleIds(db, locked, now) - done|)
            && ((forall id :: Stale(ExpireAll(db, done, now), locked, id, now) ==> id in ids) ==>
                  done' == StaleIds(db, locked, now))
  {
    StaleAfter(db, done, locked, now);
    hide ExpireAll;
    var batch := SetOf(ids);
    assert batch <= StaleIds(db, locked, now) && batch !! done;
    ExpireTwice(db, done, batch, now);
    DistinctCount(ids);
    Shrinks(StaleIds(db, locked, now), done + batch, batch);
    assert done + batch - batch == done;
  }

  lemma UnlockedIsStale(db: Tables, locked: set<ActionId>, now: Time)
    ensures forall id :: Stale(db, locked, id, now) ==> Stale(db, {}, id, now)
  {
  }

  // What the last batch left was locked.
  lemma SkippedIsLocked(db: Tables, done: set<ActionId>, ids: seq<ActionId>, locked: set<ActionId>, now: Time)
    requires done <= StaleIds(db, {}, now) && SetOf(ids) <= StaleIds(db, {}, now)
    requires forall id :: Stale(ExpireAll(db, done, now), locked, id, now) ==> id in ids
    ensures var skipped := StaleIds(db, {}, now) - (done + SetOf(ids));
            skipped <= locked && StaleIds(db, skipped, now) == done + SetOf(ids)
  {
    var skipped := StaleIds(db, {}, now) - (done + SetOf(ids));
    StaleAfter(db, done, {}, now);
    forall id <- skipped ensures id in locked {
      assert Stale(ExpireAll(db, done, now), {}, id, now);
      assert Stale(ExpireAll(db, done, now), locked, id, now) ==> id in ids;
    }
  }

  lemma Shrinks(all: set<ActionId>, done: set<ActionId>, batch: set<ActionId>)
    requires batch <= done <= all
    ensures |all - (done - batch)| == |all - done| + |batch|
  {
    assert all - (done - batch) == (all - done) + batch;
  }
}
