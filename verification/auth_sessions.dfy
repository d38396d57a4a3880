/**
 * Refresh-token sessions: rotation by compare-and-swap, replay detection, family revocation and the
 * expiry cleaner, interleaved at the granularity of committed transactions. A refresh reads its
 * session first and commits later, so it may act on a stale row. (RFC 6819, section 5.2.2.3.)
 */
module AuthSessions {
  import opened Wrappers

  type Id = nat
  type Family = nat

  const DAY_MS := 86_400_000
  const REFRESH_TOKEN_TTL := 30 * DAY_MS
  const RETENTION := 7 * DAY_MS

  datatype Session = Session(
    user: nat,
    family: Family,
    parent: Option<Id>,
    expiresAt: int,
    rotated: bool,
    replacedBy: Option<Id>,
    revoked: bool)

  /** A refresh between its read and its commit; `readAt` is when the expiry was judged. */
  datatype Refresh = Refresh(id: Id, row: Session, readAt: int)

  datatype State = State(
    rows: map<Id, Session>,
    nextId: Id,
    nextFamily: Family,
    clock: int,
    pending: map<nat, Refresh>,
    created: map<Id, Session>,     // history: every row as it was inserted
    exchanges: seq<(Id, Id)>)      // history: token exchanged, token handed out

  datatype Event =
    | Tick(now: int)
    | Issue(user: nat)
    | Read(refresh: nat, id: Id)
    | Commit(refresh: nat, userAvailable: bool)
    | RollBack(refresh: nat)
    | RevokeSession(id: Id)
    | RevokeFamily(family: Family)
    | RevokeUser(user: nat)
    | RevokeOthers(user: nat, keep: Family)
    | PruneBatch(cutoff: int, ids: set<Id>, batchSize: nat)

  // ---------- Statements ----------

  function NewSession(user: nat, family: Family, parent: Option<Id>, now: int): Session {
    Session(user, family, parent, now + REFRESH_TOKEN_TTL, false, None, false)
  }

  function Insert(s: State, row: Session): State {
    s.(rows := s.rows[s.nextId := row], created := s.created[s.nextId := row], nextId := s.nextId + 1)
  }

  function RevokeWhere(rows: map<Id, Session>, p: (Id, Session) -> bool): map<Id, Session> {
    map id | id in rows :: if p(id, rows[id]) then rows[id].(revoked := true) else rows[id]
  }

  function FamilyRevoked(rows: map<Id, Session>, family: Family): map<Id, Session> {
    RevokeWhere(rows, (id, row: Session) => row.family == family)
  }

  /** The conditional rotation patch matches only a row that is still unused and unrevoked. */
  predicate Rotatable(rows: map<Id, Session>, id: Id) {
    id in rows && !rows[id].revoked && !rows[id].rotated && rows[id].replacedBy.None?
  }

  datatype Verdict = Revoked | Expired | Replayed | Usable

  function VerdictOf(row: Session, now: int): Verdict {
    if row.revoked then Revoked
    else if row.expiresAt < now then Expired
    else if row.rotated || row.replacedBy.Some? then Replayed
    else Usable
  }

  /** The transaction of refreshTokenPair, decided on the row it read. */
  function CommitRefresh(s: State, refresh: Refresh, userAvailable: bool): (r: State)
    ensures r.pending == s.pending
  {
    match VerdictOf(refresh.row, refresh.readAt)
    case Revoked => s
    case Expired => s.(rows := RevokeWhere(s.rows, (id, row: Session) => id == refresh.id))
    case Replayed => s.(rows := FamilyRevoked(s.rows, refresh.row.family))
    case Usable =>
      if !userAvailable then s.(rows := FamilyRevoked(s.rows, refresh.row.family))
      else
        var next := s.nextId;
        var inserted := Insert(s, NewSession(refresh.row.user, refresh.row.family, Some(refresh.id), s.clock));
        if Rotatable(s.rows, refresh.id) then
          inserted.(rows := inserted.rows[refresh.id := s.rows[refresh.id].(rotated := true, replacedBy := Some(next))],
                    exchanges := s.exchanges + [(refresh.id, next)])
        else inserted.(rows := FamilyRevoked(inserted.rows, refresh.row.family))
  }

  function Prunable(rows: map<Id, Session>, cutoff: int): set<Id> {
    set id | id in rows && rows[id].expiresAt < cutoff
  }

  predicate Before(rows: map<Id, Session>, a: Id, b: Id)
    requires a in rows && b in rows
  {
    rows[a].expiresAt < rows[b].expiresAt || (rows[a].expiresAt == rows[b].expiresAt && a < b)
  }

  /** What SELECT ... ORDER BY expires_at, id LIMIT batchSize returns. */
  ghost predicate IsBatch(rows: map<Id, Session>, cutoff: int, batchSize: nat, ids: set<Id>) {
    && ids <= Prunable(rows, cutoff)
    && |ids| <= batchSize
    && (|ids| < batchSize ==> ids == Prunable(rows, cutoff))
    && (forall a, b | a in ids && b in rows && rows[b].expiresAt < cutoff && b !in ids :: Before(rows, a, b))
  }

  function Unlinked(row: Session, ids: set<Id>): Session {
    row.(parent := if row.parent.Some? && row.parent.value in ids then None else row.parent,
         replacedBy := if row.replacedBy.Some? && row.replacedBy.value in ids then None else row.replacedBy)
  }

  function Pruned(rows: map<Id, Session>, ids: set<Id>): map<Id, Session> {
    map id | id in rows && id !in ids :: Unlinked(rows[id], ids)
  }

  // ---------- Steps and runs ----------

  ghost function Next(s: State, e: Event): State {
    match e
    case Tick(now) => if s.clock <= now then s.(clock := now) else s
    case Issue(user) =>
      Insert(s, NewSession(user, s.nextFamily, None, s.clock)).(nextFamily := s.nextFamily + 1)
    case Read(r, id) =>
      if id in s.rows then s.(pending := s.pending[r := Refresh(id, s.rows[id], s.clock)]) else s
    case Commit(r, userAvailable) =>
      if r in s.pending then CommitRefresh(s, s.pending[r], userAvailable).(pending := s.pending - {r}) else s
    case RollBack(r) => s.(pending := s.pending - {r})
    case RevokeSession(id) => s.(rows := RevokeWhere(s.rows, (i, row: Session) => i == id))
    case RevokeFamily(family) => s.(rows := FamilyRevoked(s.rows, family))
    case RevokeUser(user) => s.(rows := RevokeWhere(s.rows, (i, row: Session) => row.user == user))
    case RevokeOthers(user, keep) =>
      s.(rows := RevokeWhere(s.rows, (i, row: Session) => row.user == user && row.family != keep))
    case PruneBatch(cutoff, ids, batchSize) =>
      if cutoff <= s.clock - RETENTION && IsBatch(s.rows, cutoff, batchSize, ids) then
        s.(rows := Pruned(s.rows, ids))
      else s
  }

  const Init := State(map[], 0, 0, 0, map[], map[], [])

  ghost function Run(s: State, events: seq<Event>): State
    decreases |events|
  {
    if |events| == 0 then s else Next(Run(s, events[..|events| - 1]), events[|events| - 1])
  }

  // ---------- Invariant ----------

  predicate Live(row: Session) {
    !row.revoked && !row.rotated
  }

  ghost predicate RowsInv(s: State) {
    && (forall id | id in s.rows :: id in s.created && id < s.nextId && s.rows[id].family < s.nextFamily)
    && (forall id | id in s.rows :: s.rows[id].replacedBy.Some? ==> s.rows[id].rotated)
    && (forall id | id in s.rows ::
          && s.rows[id].user == s.created[id].user && s.rows[id].family == s.created[id].family
          && s.rows[id].expiresAt == s.created[id].expiresAt)
    && (forall a, b | a in s.rows && b in s.rows && Live(s.rows[a]) && Live(s.rows[b]) && s.rows[a].family == s.rows[b].family ::
          a == b)
  }

  /** With a clock that never runs backwards, later rows never expire earlier. */
  ghost predicate CreatedInv(s: State) {
    && (forall id | id in s.created :: id < s.nextId && s.created[id].expiresAt <= s.clock + REFRESH_TOKEN_TTL)
    && (forall a, b | a in s.created && b in s.created && a < b :: s.created[a].expiresAt <= s.created[b].expiresAt)
  }

  /** The cleaner deletes oldest first, so the survivors are the most recent rows. */
  ghost predicate SuffixInv(s: State) {
    forall a, b | a in s.rows && b in s.created && a < b :: b in s.rows
  }

  /** A snapshot is an earlier version of its row: flags are only ever set. */
  ghost predicate ReadsInv(s: State) {
    forall r | r in s.pending ::
      var refresh := s.pending[r];
      && refresh.id < s.nextId
      && refresh.readAt <= s.clock
      && refresh.row.family < s.nextFamily
      && (refresh.row.replacedBy.Some? ==> refresh.row.rotated)
      && (refresh.id in s.rows ==>
            && s.rows[refresh.id].user == refresh.row.user && s.rows[refresh.id].family == refresh.row.family
            && s.rows[refresh.id].expiresAt == refresh.row.expiresAt
            && (refresh.row.revoked ==> s.rows[refresh.id].revoked)
            && (refresh.row.rotated ==> s.rows[refresh.id].rotated))
  }

  ghost predicate ExchangeInv(s: State) {
    && (forall i | 0 <= i < |s.exchanges| :: s.exchanges[i].0 < s.nextId && s.exchanges[i].1 < s.nextId)
    && (forall i | 0 <= i < |s.exchanges| && s.exchanges[i].0 in s.rows :: s.rows[s.exchanges[i].0].rotated)
    && (forall i, j | 0 <= i < j < |s.exchanges| :: s.exchanges[i].0 != s.exchanges[j].0)
    && (forall i | 0 <= i < |s.exchanges| ::
          s.exchanges[i].1 in s.created && s.created[s.exchanges[i].1].parent == Some(s.exchanges[i].0)
          && s.exchanges[i].0 < s.exchanges[i].1)
  }

  ghost predicate Inv(s: State) {
    RowsInv(s) && CreatedInv(s) && SuffixInv(s) && ReadsInv(s) && ExchangeInv(s)
  }

  // ---------- Every step keeps the invariant ----------

  /** Setting `revoked` on any rows. */
  lemma RevokeInv(s: State, p: (Id, Session) -> bool)
    requires Inv(s)
    ensures Inv(s.(rows := RevokeWhere(s.rows, p)))
  {
    var t := s.(rows := RevokeWhere(s.rows, p));
    RevokeRows(s, p);
    RevokeReads(s, p);
    hide RowsInv, ReadsInv;
    assert t.rows.Keys == s.rows.Keys;
  }

  lemma RevokeRows(s: State, p: (Id, Session) -> bool)
    requires RowsInv(s)
    ensures RowsInv(s.(rows := RevokeWhere(s.rows, p)))
  {
  }

  lemma RevokeReads(s: State, p: (Id, Session) -> bool)
    requires ReadsInv(s)
    ensures ReadsInv(s.(rows := RevokeWhere(s.rows, p)))
  {
  }

  lemma InsertInv(s: State, row: Session)
    requires Inv(s) && row.family < s.nextFamily && row.replacedBy.None? && row.expiresAt == s.clock + REFRESH_TOKEN_TTL
    requires Live(row) ==> forall id | id in s.rows && s.rows[id].family == row.family :: !Live(s.rows[id])
    ensures Inv(Insert(s, row))
  {
    InsertRows(s, row);
    InsertCreated(s, row);
    InsertSuffix(s, row);
    InsertReads(s, row);
    InsertExchange(s, row);
    hide RowsInv, CreatedInv, SuffixInv, ReadsInv, ExchangeInv;
  }

  lemma InsertRows(s: State, row: Session)
    requires RowsInv(s) && row.family < s.nextFamily && row.replacedBy.None?
    requires Live(row) ==> forall id | id in s.rows && s.rows[id].family == row.family :: !Live(s.rows[id])
    ensures RowsInv(Insert(s, row))
  {
  }

  lemma InsertCreated(s: State, row: Session)
    requires CreatedInv(s) && row.expiresAt == s.clock + REFRESH_TOKEN_TTL
    ensures CreatedInv(Insert(s, row))
  {
  }

  lemma InsertSuffix(s: State, row: Session)
    requires SuffixInv(s) && RowsInv(s) && CreatedInv(s)
    ensures SuffixInv(Insert(s, row))
  {
  }

  lemma InsertReads(s: State, row: Session)
    requires ReadsInv(s)
    ensures ReadsInv(Insert(s, row))
  {
  }

  lemma InsertExchange(s: State, row: Session)
    requires ExchangeInv(s)
    ensures ExchangeInv(Insert(s, row))
  {
  }

  lemma MarkRotatedInv(s: State, id: Id, next: Id)
    requires Inv(s) && Rotatable(s.rows, id)
    ensures var s' := s.(rows := s.rows[id := s.rows[id].(rotated := true, replacedBy := Some(next))]);
            && Inv(s')
            && (forall a | a in s'.rows && s'.rows[a].family == s.rows[id].family :: !Live(s'.rows[a]))
    ensures id < s.nextId && s.rows[id].family < s.nextFamily
    ensures forall i | 0 <= i < |s.exchanges| :: s.exchanges[i].0 != id
  {
  }

  lemma RotateInv(s: State, refresh: Refresh)
    requires Inv(s) && Rotatable(s.rows, refresh.id) && refresh.row.family == s.rows[refresh.id].family
    ensures var next := s.nextId;
            var row := NewSession(refresh.row.user, refresh.row.family, Some(refresh.id), s.clock);
            var inserted := Insert(s, row);
            Inv(inserted.(rows := inserted.rows[refresh.id := s.rows[refresh.id].(rotated := true, replacedBy := Some(next))],
                          exchanges := s.exchanges + [(refresh.id, next)]))
  {
    hide RowsInv, CreatedInv, SuffixInv, ReadsInv, ExchangeInv;
    var next := s.nextId;
    MarkRotatedInv(s, refresh.id, next);
    var rotated := s.(rows := s.rows[refresh.id := s.rows[refresh.id].(rotated := true, replacedBy := Some(next))]);
    var row := NewSession(refresh.row.user, refresh.row.family, Some(refresh.id), s.clock);
    InsertInv(rotated, row);
    var inserted := Insert(rotated, row);
    assert Insert(s, row).rows[refresh.id := rotated.rows[refresh.id]] == inserted.rows;
    RecordInv(inserted, refresh.id, next);
  }

  lemma RecordInv(s: State, old_: Id, next: Id)
    requires Inv(s) && old_ < next < s.nextId && next in s.created && s.created[next].parent == Some(old_)
    requires old_ in s.rows && s.rows[old_].rotated
    requires forall i | 0 <= i < |s.exchanges| :: s.exchanges[i].0 != old_
    ensures Inv(s.(exchanges := s.exchanges + [(old_, next)]))
  {
    RecordExchange(s, old_, next);
    hide ExchangeInv;
  }

  lemma RecordExchange(s: State, old_: Id, next: Id)
    requires ExchangeInv(s) && old_ < next < s.nextId && next in s.created && s.created[next].parent == Some(old_)
    requires old_ in s.rows ==> s.rows[old_].rotated
    requires forall i | 0 <= i < |s.exchanges| :: s.exchanges[i].0 != old_
    ensures ExchangeInv(s.(exchanges := s.exchanges + [(old_, next)]))
  {
  }

  /** The losing refresh inserts its successor and revokes it with the rest of the family. */
  lemma LoseRaceInv(s: State, refresh: Refresh)
    requires Inv(s) && refresh.row.family < s.nextFamily
    ensures var inserted := Insert(s, NewSession(refresh.row.user, refresh.row.family, Some(refresh.id), s.clock));
            Inv(inserted.(rows := FamilyRevoked(inserted.rows, refresh.row.family)))
  {
    hide RowsInv, CreatedInv, SuffixInv, ReadsInv, ExchangeInv;
    var ofFamily := (id, row: Session) => row.family == refresh.row.family;
    RevokeInv(s, ofFamily);
    var quiet := s.(rows := FamilyRevoked(s.rows, refresh.row.family));
    var row := NewSession(refresh.row.user, refresh.row.family, Some(refresh.id), s.clock);
    InsertInv(quiet, row);
    RevokeInv(Insert(quiet, row), ofFamily);
    var inserted := Insert(s, row);
    assert FamilyRevoked(inserted.rows, refresh.row.family) == FamilyRevoked(Insert(quiet, row).rows, refresh.row.family);
  }

  lemma CommitInv(s: State, r: nat, userAvailable: bool)
    requires Inv(s) && r in s.pending
    ensures Inv(CommitRefresh(s, s.pending[r], userAvailable))
  {
    var refresh := s.pending[r];
    assert refresh.row.family < s.nextFamily;
    match VerdictOf(refresh.row, refresh.readAt)
    case Revoked =>
    case Expired => RevokeInv(s, (id, row: Session) => id == refresh.id);
    case Replayed => RevokeInv(s, (id, row: Session) => row.family == refresh.row.family);
    case Usable =>
      if !userAvailable {
        RevokeInv(s, (id, row: Session) => row.family == refresh.row.family);
      } else if Rotatable(s.rows, refresh.id) {
        RotateInv(s, refresh);
      } else {
        LoseRaceInv(s, refresh);
      }
  }

  /** A batch never skips an older row. */
  lemma OldestFirst(rows: map<Id, Session>, cutoff: int, batchSize: nat, ids: set<Id>, a: Id, b: Id)
    requires IsBatch(rows, cutoff, batchSize, ids) && b in ids && a in rows && Before(rows, a, b)
    ensures a in ids
  {
  }

  lemma PruneSuffix(s: State, cutoff: int, ids: set<Id>, batchSize: nat)
    requires RowsInv(s) && CreatedInv(s) && SuffixInv(s) && IsBatch(s.rows, cutoff, batchSize, ids)
    ensures SuffixInv(s.(rows := Pruned(s.rows, ids)))
  {
    var s' := s.(rows := Pruned(s.rows, ids));
    forall a, b | a in s'.rows && b in s'.created && a < b
      ensures b in s'.rows
    {
      assert b in s.rows;
      assert s.rows[a].expiresAt <= s.rows[b].expiresAt;
      if b in ids { OldestFirst(s.rows, cutoff, batchSize, ids, a, b); }
    }
  }

  lemma PruneRows(s: State, ids: set<Id>)
    requires RowsInv(s)
    ensures RowsInv(s.(rows := Pruned(s.rows, ids)))
  {
  }

  lemma PruneReads(s: State, ids: set<Id>)
    requires ReadsInv(s)
    ensures ReadsInv(s.(rows := Pruned(s.rows, ids)))
  {
  }

  lemma PruneExchanges(s: State, ids: set<Id>)
    requires ExchangeInv(s)
    ensures ExchangeInv(s.(rows := Pruned(s.rows, ids)))
  {
  }

  lemma PruneInv(s: State, cutoff: int, ids: set<Id>, batchSize: nat)
    requires Inv(s) && IsBatch(s.rows, cutoff, batchSize, ids)
    ensures Inv(s.(rows := Pruned(s.rows, ids)))
  {
    hide RowsInv, ReadsInv, ExchangeInv, SuffixInv, IsBatch;
    PruneSuffix(s, cutoff, ids, batchSize);
    PruneRows(s, ids);
    PruneReads(s, ids);
    PruneExchanges(s, ids);
  }

  lemma ClockAndReadInv(s: State, e: Event)
    requires Inv(s) && (e.Tick? || e.Read? || e.RollBack?)
    ensures Inv(Next(s, e))
  {
  }

  lemma WiderInv(s: State)
    requires Inv(s)
    ensures Inv(s.(nextFamily := s.nextFamily + 1))
    ensures forall id | id in s.rows :: s.rows[id].family != s.nextFamily
  {
  }

  lemma NextInv(s: State, e: Event)
    requires Inv(s)
    ensures Inv(Next(s, e))
  {
    hide RowsInv, CreatedInv, SuffixInv, ReadsInv, ExchangeInv, CommitRefresh;
    match e
    case Issue(user) =>
      WiderInv(s);
      InsertInv(s.(nextFamily := s.nextFamily + 1), NewSession(user, s.nextFamily, None, s.clock));
    case Commit(r, userAvailable) =>
      if r in s.pending {
        CommitInv(s, r, userAvailable);
        ClockAndReadInv(CommitRefresh(s, s.pending[r], userAvailable), RollBack(r));
      }
    case RevokeSession(id) => RevokeInv(s, (i, row: Session) => i == id);
    case RevokeFamily(family) => RevokeInv(s, (i, row: Session) => row.family == family);
    case RevokeUser(user) => RevokeInv(s, (i, row: Session) => row.user == user);
    case RevokeOthers(user, keep) => RevokeInv(s, (i, row: Session) => row.user == user && row.family != keep);
    case PruneBatch(cutoff, ids, batchSize) =>
      if cutoff <= s.clock - RETENTION && IsBatch(s.rows, cutoff, batchSize, ids) { PruneInv(s, cutoff, ids, batchSize); }
    case _ => ClockAndReadInv(s, e);
  }
}
