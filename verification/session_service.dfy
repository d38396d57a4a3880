/** The session service and its cleaner as methods over one session table. */
module SessionService {
  import opened Wrappers
  import opened AuthSessions

  datatype RefreshOutcome =
    | TokenPair(session: Id)
    | TokenRevoked
    | TokenExpired
    | TokenReplay
    | UserUnavailable

  class SessionTable {
    var rows: map<Id, Session>
    var nextId: Id
    var nextFamily: Family
    ghost var created: map<Id, Session>
    ghost var exchanges: seq<(Id, Id)>

    constructor ()
      ensures rows == map[] && nextId == 0 && nextFamily == 0 && created == map[] && exchanges == []
    {
      rows, nextId, nextFamily, created, exchanges := map[], 0, 0, map[], [];
    }

    /** This table as a protocol state at a given time. */
    ghost function At(clock: int): State
      reads this
    {
      State(rows, nextId, nextFamily, clock, map[], created, exchanges)
    }

    ghost predicate Valid()
      reads this
    {
      forall id | id in rows :: id < nextId
    }

    method CreateRefreshSession(user: nat, family: Family, parent: Option<Id>, now: int) returns (id: Id)
      modifies this`rows, this`nextId, this`created
      ensures id == old(nextId)
      ensures At(now) == Insert(old(At(now)), NewSession(user, family, parent, now))
    {
      id := nextId;
      var session := Session(user, family, parent, now + REFRESH_TOKEN_TTL, false, None, false);
      rows := rows[id := session];
      created := created[id := session];
      nextId := nextId + 1;
    }

    method IssueTokenPair(user: nat, now: int) returns (id: Id)
      modifies this
      ensures At(now) == Next(old(At(now)), Issue(user))
      ensures id == old(nextId)
      ensures rows == old(rows)[id := Session(user, old(nextFamily), None, now + REFRESH_TOKEN_TTL, false, None, false)]
    {
      var family := nextFamily;
      nextFamily := nextFamily + 1;
      id := CreateRefreshSession(user, family, None, now);
    }

    /** UPDATE ... WHERE id AND revoked_at IS NULL: the number of rows it changed. */
    method RevokeSession(id: Id) returns (updatedRows: nat)
      modifies this`rows
      ensures rows == RevokeWhere(old(rows), (i, row: Session) => i == id)
      ensures updatedRows == if id in old(rows) && !old(rows)[id].revoked then 1 else 0
    {
      if id in rows && !rows[id].revoked {
        rows := rows[id := rows[id].(revoked := true)];
        return 1;
      }
      return 0;
    }

    method RevokeFamily(family: Family)
      modifies this`rows
      ensures rows == FamilyRevoked(old(rows), family)
    {
      rows := map id | id in rows ::
        if rows[id].family == family && !rows[id].revoked then rows[id].(revoked := true) else rows[id];
    }

    /** The transaction of refreshTokenPair after its read of `session`. */
    method RefreshTokenPair(id: Id, session: Session, userAvailable: bool, readAt: int, now: int)
      returns (outcome: RefreshOutcome)
      requires Valid() && id < nextId
      modifies this
      ensures Valid()
      ensures At(now) == CommitRefresh(old(At(now)), Refresh(id, session, readAt), userAvailable)
      ensures outcome.TokenPair? <==> exchanges == old(exchanges) + [(id, old(nextId))]
      ensures outcome.TokenPair? ==>
                && outcome.session == old(nextId) && outcome.session in rows
                && rows[outcome.session]
                   == Session(session.user, session.family, Some(id), now + REFRESH_TOKEN_TTL, false, None, false)
                && rows[id] == old(rows)[id].(rotated := true, replacedBy := Some(outcome.session))
                && forall i | i in old(rows) && i != id :: i in rows && rows[i] == old(rows)[i]
      ensures outcome.TokenPair? <==>
                && !session.revoked && session.expiresAt >= readAt && !session.rotated && session.replacedBy.None?
                && userAvailable && id in old(rows)
                && !old(rows)[id].revoked && !old(rows)[id].rotated && old(rows)[id].replacedBy.None?
      ensures session.revoked ==> outcome.TokenRevoked? && rows == old(rows)
      ensures !session.revoked && session.expiresAt < readAt ==>
                && outcome.TokenExpired? && nextId == old(nextId) && created == old(created) && exchanges == old(exchanges)
                && rows.Keys == old(rows).Keys
                && forall i | i in rows :: rows[i] == if i == id then old(rows)[i].(revoked := true) else old(rows)[i]
      ensures !session.revoked && session.expiresAt >= readAt && !outcome.TokenPair? ==>
                && (outcome.UserUnavailable? <==> !session.rotated && session.replacedBy.None? && !userAvailable)
                && (outcome.TokenReplay? || outcome.UserUnavailable?)
                && (forall i | i in rows && rows[i].family == session.family :: rows[i].revoked)
                && (forall i | i in old(rows) && old(rows)[i].family != session.family :: i in rows && rows[i] == old(rows)[i])
    {
      if session.revoked { return TokenRevoked; }
      if session.expiresAt < readAt {
        var _ := RevokeSession(id);
        return TokenExpired;
      }
      if session.rotated || session.replacedBy.Some? {
        RevokeFamily(session.family);
        return TokenReplay;
      }
      if !userAvailable {
        RevokeFamily(session.family);
        return UserUnavailable;
      }
      var next := CreateRefreshSession(session.user, session.family, Some(id), now);
      var updatedRows := 0;
      if id in rows && !rows[id].revoked && !rows[id].rotated && rows[id].replacedBy.None? {
        rows := rows[id := rows[id].(rotated := true, replacedBy := Some(next))];
        updatedRows := 1;
      }
      if updatedRows == 0 {
        RevokeFamily(session.family);
        return TokenReplay;
      }
      exchanges := exchanges + [(id, next)];
      return TokenPair(next);
    }

    // ---------- The cleaner ----------

    /** SELECT id ... WHERE expires_at < cutoff ORDER BY expires_at, id LIMIT limit. */
    method SelectExpired(cutoff: int, limit: nat) returns (ids: set<Id>)
      ensures IsBatch(rows, cutoff, limit, ids)
    {
      ids := {};
      var candidates := Prunable(rows, cutoff);
      while candidates != {} && |ids| < limit
        invariant ids !! candidates && ids + candidates == Prunable(rows, cutoff)
        invariant |ids| <= limit
        invariant forall a, b | a in ids && b in candidates :: Before(rows, a, b)
        decreases |candidates|
      {
        var oldest := Oldest(candidates);
        ids := ids + {oldest};
        candidates := candidates - {oldest};
      }
    }

    method Oldest(candidates: set<Id>) returns (oldest: Id)
      requires candidates != {} && forall id | id in candidates :: id in rows
      ensures oldest in candidates
      ensures forall b | b in candidates && b != oldest :: Before(rows, oldest, b)
    {
      oldest :| oldest in candidates;
      var rest := candidates - {oldest};
      while rest != {}
        invariant oldest in candidates && oldest !in rest && rest <= candidates
        invariant forall b | b in candidates && b !in rest && b != oldest :: Before(rows, oldest, b)
        decreases |rest|
      {
        var id :| id in rest;
        rest := rest - {id};
        if rows[id].expiresAt < rows[oldest].expiresAt || (rows[id].expiresAt == rows[oldest].expiresAt && id < oldest) {
          oldest := id;
        }
      }
    }

    /** One cleaner transaction: null both kinds of links to the selected rows, then delete them. */
    method PruneBatchOnce(cutoff: int, batchSize: nat) returns (ids: set<Id>)
      modifies this`rows
      ensures IsBatch(old(rows), cutoff, batchSize, ids)
      ensures rows == Pruned(old(rows), ids)
    {
      ids := SelectExpired(cutoff, batchSize);
      if ids == {} {
        assert rows == Pruned(rows, {});
        return;
      }
      rows := map id | id in rows :: if rows[id].parent.Some? && rows[id].parent.value in ids then rows[id].(parent := None)
                                     else rows[id];
      rows := map id | id in rows ::
        if rows[id].replacedBy.Some? && rows[id].replacedBy.value in ids then rows[id].(replacedBy := None) else rows[id];
      rows := map id | id in rows && id !in ids :: rows[id];
      assert rows == Pruned(old(rows), ids);
    }

    /**
     * prune(): the limits are clamped (zero asks for the default), and only tokens more than seven days past their
     * expiry go, at most ten thousand of them; fewer than the limit are all there are.
     */
    method Clean(batchSize: int, maxBatches: int, now: int) returns (removed: nat, ghost gone: set<Id>)
      modifies this`rows
      ensures rows == Pruned(old(rows), gone) && removed == |gone| <= 10_000
      ensures forall id | id in gone :: id in old(rows) && now - old(rows)[id].expiresAt > 7 * 24 * 60 * 60 * 1000
      ensures removed == 0 ==> forall id | id in old(rows) :: now - old(rows)[id].expiresAt <= 7 * 24 * 60 * 60 * 1000
    {
      var size := Min(1000, Max(1, if batchSize == 0 then 1000 else batchSize));
      var batches := Min(10, Max(1, if maxBatches == 0 then 10 else maxBatches));
      LimitsProduct(size, batches);
      hide IsBatch, Pruned;
      removed, gone := Prune(now - RETENTION, size, batches);
      BatchFacts(old(rows), now - RETENTION, size * batches, gone);
    }

    /**
     * Bounded batches compose: together they delete what one batch of batchSize * maxBatches rows
     * would have deleted, oldest first.
     */
    method Prune(cutoff: int, batchSize: nat, maxBatches: nat) returns (removed: nat, ghost gone: set<Id>)
      requires batchSize > 0
      modifies this`rows
      ensures IsBatch(old(rows), cutoff, batchSize * maxBatches, gone)
      ensures rows == Pruned(old(rows), gone)
      ensures removed == |gone|
    {
      removed, gone := 0, {};
      assert rows == Pruned(rows, {});
      var batch := 0;
      while batch < maxBatches
        invariant 0 <= batch <= maxBatches
        invariant |gone| == removed == batchSize * batch
        invariant IsBatch(old(rows), cutoff, batchSize * batch, gone)
        invariant rows == Pruned(old(rows), gone)
      {
        var ids := PruneBatchOnce(cutoff, batchSize);
        ghost var first := gone;
        gone := gone + ids;
        BatchesTotal(batchSize, batch, maxBatches);
        hide IsBatch, Pruned;
        ComposeBatches(old(rows), cutoff, batchSize * batch, batchSize, first, ids);
        removed := removed + |ids|;
        if |ids| < batchSize {
          LastBatch(old(rows), cutoff, batchSize * batch + batchSize, batchSize * maxBatches, gone);
          return;
        }
        batch := batch + 1;
      }
    }
  }

  /** Of two batches with the same limit, the one that came out short holds every expired row. */
  lemma BatchFacts(rows: map<Id, Session>, cutoff: int, limit: nat, ids: set<Id>)
    requires IsBatch(rows, cutoff, limit, ids)
    ensures |ids| <= limit && forall id | id in ids :: id in rows && rows[id].expiresAt < cutoff
    ensures |ids| < limit ==> forall id | id in rows && rows[id].expiresAt < cutoff :: id in ids
  {
    assert forall id | id in ids :: id in Prunable(rows, cutoff);
    assert forall id | id in rows && rows[id].expiresAt < cutoff :: id in Prunable(rows, cutoff);
  }

  lemma BatchesTotal(batchSize: nat, batch: nat, maxBatches: nat)
    requires batch < maxBatches
    ensures batchSize * (batch + 1) == batchSize * batch + batchSize <= batchSize * maxBatches
  {
    assert batchSize * maxBatches == batchSize * (batch + 1) + batchSize * (maxBatches - batch - 1);
  }

  lemma LimitsProduct(size: nat, batches: nat)
    requires 1 <= size <= 1000 && 1 <= batches <= 10
    ensures 1 <= size * batches <= 10_000
  {
  }

  lemma PrunedTwice(rows: map<Id, Session>, first: set<Id>, second: set<Id>)
    ensures Pruned(Pruned(rows, first), second) == Pruned(rows, first + second)
  {
  }

  lemma PrunableRest(rows: map<Id, Session>, cutoff: int, first: set<Id>)
    ensures Prunable(Pruned(rows, first), cutoff) == Prunable(rows, cutoff) - first
  {
  }

  lemma BeforeRest(rows: map<Id, Session>, first: set<Id>, a: Id, b: Id)
    requires a in Pruned(rows, first) && b in Pruned(rows, first)
    ensures Before(Pruned(rows, first), a, b) == Before(rows, a, b)
  {
  }

  /** The batch after a full batch of n rows completes a batch of n + m rows. */
  lemma {:induction false} ComposeBatches(rows: map<Id, Session>, cutoff: int, n: nat, m: nat, first: set<Id>, second: set<Id>)
    requires IsBatch(rows, cutoff, n, first) && |first| == n
    requires IsBatch(Pruned(rows, first), cutoff, m, second)
    ensures IsBatch(rows, cutoff, n + m, first + second)
    ensures |first + second| == n + |second|
    ensures Pruned(Pruned(rows, first), second) == Pruned(rows, first + second)
  {
    PrunedTwice(rows, first, second);
    PrunableRest(rows, cutoff, first);
    var rest := Pruned(rows, first);
    assert rest.Keys == rows.Keys - first;
    assert |first + second| == |first| + |second|;
    forall a, b | a in first + second && b in rows && rows[b].expiresAt < cutoff && b !in first + second
      ensures Before(rows, a, b)
    {
      if a !in first {
        assert b in Prunable(rest, cutoff);
        BeforeRest(rows, first, a, b);
      }
    }
    hide Pruned, Before;
  }

  /** A batch that came out short holds everything, so it is also a batch for any larger limit. */
  lemma LastBatch(rows: map<Id, Session>, cutoff: int, n: nat, wide: nat, ids: set<Id>)
    requires IsBatch(rows, cutoff, n, ids) && |ids| < n <= wide
    ensures IsBatch(rows, cutoff, wide, ids)
  {
  }
}
