/** What token rotation, revocation and cleaning promise over every run. */
module AuthPromises {
  import opened Wrappers
  import opened AuthSessions

  // ---------- Theorems about every run ----------

  /** The row, snapshot and exchange facts hold in every interleaving. */
  lemma {:induction false} RunInv(events: seq<Event>)
    ensures Inv(Run(Init, events))
    decreases |events|
  {
    if |events| > 0 {
      RunInv(events[..|events| - 1]);
      NextInv(Run(Init, events[..|events| - 1]), events[|events| - 1]);
    }
  }

  /** A family has at most one session that is neither revoked nor rotated. */
  lemma {:induction false} SingleLiveSession(events: seq<Event>, a: Id, b: Id)
    requires var s := Run(Init, events);
             a in s.rows && b in s.rows && Live(s.rows[a]) && Live(s.rows[b]) && s.rows[a].family == s.rows[b].family
    ensures a == b
  {
    RunInv(events);
  }

  /** No token is ever exchanged twice. */
  lemma {:induction false} ExchangedAtMostOnce(events: seq<Event>)
    ensures var exchanges := Run(Init, events).exchanges;
            forall i, j | 0 <= i < j < |exchanges| :: exchanges[i].0 != exchanges[j].0
  {
    RunInv(events);
    hide Run;
  }

  // ---------- Only valid tokens are exchanged ----------

  /** A refresh acts on what its row was at an earlier moment, and judges the expiry at that moment. */
  ghost predicate ReadAt(events: seq<Event>, j: nat, r: nat, refresh: Refresh)
    requires j < |events|
  {
    var s := Run(Init, events[..j]);
    events[j] == Read(r, refresh.id) && refresh.id in s.rows && refresh.row == s.rows[refresh.id] && refresh.readAt == s.clock
  }

  lemma PendingKept(s: State, e: Event, r: nat)
    requires r in Next(s, e).pending && !(e.Read? && e.refresh == r && e.id in s.rows)
    ensures r in s.pending && Next(s, e).pending[r] == s.pending[r]
  {
  }

  lemma {:induction false} PendingWasRead(events: seq<Event>, r: nat) returns (j: nat)
    requires r in Run(Init, events).pending
    ensures j < |events| && ReadAt(events, j, r, Run(Init, events).pending[r])
    decreases |events|
  {
    var front, e := events[..|events| - 1], events[|events| - 1];
    var s := Run(Init, front);
    if e.Read? && e.refresh == r && e.id in s.rows {
      j := |events| - 1;
    } else {
      PendingKept(s, e, r);
      j := PendingWasRead(front, r);
      assert front[..j] == events[..j];
    }
  }

  /** The exchange of `given` for `next` by the commit at step k of a refresh that read at step j. */
  ghost predicate ExchangedBy(events: seq<Event>, j: nat, k: nat, given: Id, next: Id)
    requires j < k < |events|
  {
    var read, s := Run(Init, events[..j]), Run(Init, events[..k]);
    && events[k].Commit? && events[k].userAvailable && events[j] == Read(events[k].refresh, given)
    && given in read.rows && given in s.rows && given in s.created && next == s.nextId
    && read.rows[given].expiresAt == s.created[given].expiresAt >= read.clock
    && !read.rows[given].revoked && !read.rows[given].rotated && read.rows[given].replacedBy.None?
    && !s.rows[given].revoked && !s.rows[given].rotated && s.rows[given].replacedBy.None?
    && var granted := Run(Init, events[..k + 1]).created;
       next in granted && granted[next]
         == Session(s.created[given].user, s.created[given].family, Some(given), s.clock + REFRESH_TOKEN_TTL, false, None, false)
  }

  /** A commit adds at most the exchange of its own token, and only for a usable one. */
  lemma CommitExchanges(s: State, r: nat, userAvailable: bool)
    requires r in s.pending
    ensures var refresh := s.pending[r];
            var s' := Next(s, Commit(r, userAvailable));
            s'.exchanges != s.exchanges ==>
              && userAvailable && s'.exchanges == s.exchanges + [(refresh.id, s.nextId)]
              && !refresh.row.revoked && refresh.row.expiresAt >= refresh.readAt
              && !refresh.row.rotated && refresh.row.replacedBy.None?
              && refresh.id in s.rows && !s.rows[refresh.id].revoked && !s.rows[refresh.id].rotated
              && s.rows[refresh.id].replacedBy.None?
              && s.nextId in s'.created && s'.created[s.nextId]
                   == Session(refresh.row.user, refresh.row.family, Some(refresh.id), s.clock + REFRESH_TOKEN_TTL, false, None, false)
  {
  }

  lemma OtherExchanges(s: State, e: Event)
    requires !e.Commit? || e.refresh !in s.pending
    ensures Next(s, e).exchanges == s.exchanges
  {
  }

  lemma ExchangedEarlier(front: seq<Event>, events: seq<Event>, j: nat, k: nat, given: Id, next: Id)
    requires front <= events && j < k < |front| && ExchangedBy(front, j, k, given, next)
    ensures ExchangedBy(events, j, k, given, next)
  {
    hide Run;
    assert front[..j] == events[..j] && front[..k] == events[..k] && front[..k + 1] == events[..k + 1];
  }

  /** Exchanges are only ever added, at most one at a time. */
  lemma ExchangesGrow(s: State, e: Event)
    ensures Next(s, e).exchanges == s.exchanges || (s.exchanges < Next(s, e).exchanges && |Next(s, e).exchanges| == |s.exchanges| + 1)
  {
    if e.Commit? && e.refresh in s.pending { CommitExchanges(s, e.refresh, e.userAvailable); } else { OtherExchanges(s, e); }
    hide Next;
  }

  /** What the invariant says of the row a refresh still finds. */
  lemma ReadFacts(s: State, r: nat)
    requires Inv(s) && r in s.pending
    ensures var refresh := s.pending[r];
            refresh.id in s.rows ==>
              && refresh.id in s.created
              && s.created[refresh.id].user == refresh.row.user && s.created[refresh.id].family == refresh.row.family
              && s.created[refresh.id].expiresAt == refresh.row.expiresAt
  {
    hide CreatedInv, SuffixInv, ExchangeInv;
  }

  /** The exchange the last event of a run adds. */
  lemma CommitWasRead(front: seq<Event>, e: Event) returns (j: nat)
    requires Next(Run(Init, front), e).exchanges != Run(Init, front).exchanges
    ensures j < |front|
    ensures var s, t := Run(Init, front), Next(Run(Init, front), e);
            && |t.exchanges| == |s.exchanges| + 1
            && ExchangedBy(front + [e], j, |front|, t.exchanges[|s.exchanges|].0, t.exchanges[|s.exchanges|].1)
  {
    var s := Run(Init, front);
    var events := front + [e];
    assert events[..|front|] == front && events[..|front| + 1] == events;
    assert Run(Init, events) == Next(s, e);
    hide Next;
    RunInv(front);
    if !e.Commit? || e.refresh !in s.pending { OtherExchanges(s, e); }
    CommitExchanges(s, e.refresh, e.userAvailable);
    j := PendingWasRead(front, e.refresh);
    assert front[..j] == events[..j];
    ReadFacts(s, e.refresh);
    hide Inv, Run;
  }

  /**
   * Over every run each recorded exchange was committed by a refresh that had read its token unused, unrevoked and
   * not past its expiry, and found it so again; it handed out one session of the same user and family.
   */
  lemma {:induction false} OnlyUsableTokensAreExchanged(events: seq<Event>, i: nat) returns (j: nat, k: nat)
    requires i < |Run(Init, events).exchanges|
    ensures j < k < |events|
    ensures var (given, next) := Run(Init, events).exchanges[i]; ExchangedBy(events, j, k, given, next)
    decreases |events|
  {
    var front, e := events[..|events| - 1], events[|events| - 1];
    var s := Run(Init, front);
    hide Next, ExchangedBy;
    ExchangesGrow(s, e);
    if i < |s.exchanges| {
      j, k := OnlyUsableTokensAreExchanged(front, i);
      ExchangedEarlier(front, events, j, k, s.exchanges[i].0, s.exchanges[i].1);
    } else {
      k := |events| - 1;
      j := CommitWasRead(front, e);
      assert events == front + [e];
    }
  }

  // ---------- Replays and revocation ----------

  ghost predicate FamilyDead(s: State, family: Family) {
    family < s.nextFamily && forall id | id in s.rows && s.rows[id].family == family :: s.rows[id].revoked
  }

  /**
   * Presenting a rotated, unrevoked token revokes its whole family, whichever earlier version of the
   * row the refresh had read, as long as that version was neither revoked nor expired.
   */
  lemma {:induction false} ReplayRevokesFamily(events: seq<Event>, r: nat, userAvailable: bool)
    requires var s := Run(Init, events);
             && r in s.pending && s.pending[r].id in s.rows
             && s.rows[s.pending[r].id].rotated && !s.rows[s.pending[r].id].revoked
             && s.pending[r].row.expiresAt >= s.pending[r].readAt
    ensures var s := Run(Init, events);
            var s' := Next(s, Commit(r, userAvailable));
            && FamilyDead(s', s.pending[r].row.family)
            && s'.exchanges == s.exchanges
  {
    RunInv(events);
  }

  /** What the invariant says of the rows, and of a row a refresh still finds. */
  lemma DeadFacts(s: State)
    requires Inv(s)
    ensures s.nextId !in s.rows
    ensures forall r | r in s.pending && s.pending[r].id in s.rows :: s.rows[s.pending[r].id].family == s.pending[r].row.family
    ensures forall id | id in s.rows :: s.rows[id].family < s.nextFamily
    ensures forall r | r in s.pending :: s.pending[r].row.family < s.nextFamily
  {
    hide CreatedInv, SuffixInv, ExchangeInv;
  }

  lemma DeadCommit(s: State, r: nat, userAvailable: bool, family: Family)
    requires r in s.pending && FamilyDead(s, family) && s.nextId !in s.rows
    requires s.pending[r].id in s.rows ==> s.rows[s.pending[r].id].family == s.pending[r].row.family
    ensures var t := Next(s, Commit(r, userAvailable));
            && FamilyDead(t, family)
            && (t.exchanges == s.exchanges
                || (|t.exchanges| == |s.exchanges| + 1 && t.exchanges[|s.exchanges|].0 in s.rows
                    && s.rows[t.exchanges[|s.exchanges|].0].family != family))
  {
  }

  lemma DeadOther(s: State, e: Event, family: Family)
    requires FamilyDead(s, family) && (!e.Commit? || e.refresh !in s.pending)
    ensures FamilyDead(Next(s, e), family) && Next(s, e).exchanges == s.exchanges
  {
  }

  lemma {:induction false} DeadStep(s: State, e: Event, family: Family)
    requires Inv(s) && FamilyDead(s, family)
    ensures FamilyDead(Next(s, e), family)
    ensures Next(s, e).exchanges == s.exchanges || |Next(s, e).exchanges| == |s.exchanges| + 1
    ensures |Next(s, e).exchanges| == |s.exchanges| + 1 ==>
              var exchanged := Next(s, e).exchanges[|s.exchanges|].0;
              exchanged in s.rows && s.rows[exchanged].family != family
  {
    DeadFacts(s);
    hide Inv, FamilyDead;
    if e.Commit? && e.refresh in s.pending {
      DeadCommit(s, e.refresh, e.userAvailable, family);
    } else {
      DeadOther(s, e, family);
    }
  }

  /** A fully revoked family stays revoked: no later refresh, however stale its read, revives it. */
  lemma {:induction false} RevokedFamilyStaysRevoked(before: seq<Event>, after: seq<Event>, family: Family)
    requires FamilyDead(Run(Init, before), family)
    ensures FamilyDead(Run(Run(Init, before), after), family)
    ensures Inv(Run(Run(Init, before), after))
    decreases |after|
  {
    RunInv(before);
    hide Inv, FamilyDead;
    if |after| > 0 {
      RevokedFamilyStaysRevoked(before, after[..|after| - 1], family);
      var s := Run(Run(Init, before), after[..|after| - 1]);
      NextInv(s, after[|after| - 1]);
      DeadStep(s, after[|after| - 1], family);
    }
  }

  // ---------- Signing out ----------

  /** A family belongs to one user, also in what pending refreshes have read. */
  ghost predicate UserInv(s: State) {
    && (forall a, b | a in s.created && b in s.created && s.created[a].family == s.created[b].family ::
          s.created[a].user == s.created[b].user)
    && (forall a | a in s.created :: s.created[a].family < s.nextFamily)
    && (forall r | r in s.pending ::
          s.pending[r].id in s.created && s.created[s.pending[r].id].user == s.pending[r].row.user
          && s.created[s.pending[r].id].family == s.pending[r].row.family)
  }

  /** What a step may add to the history of sessions, and to the pending reads. */
  lemma CreatedBy(s: State, e: Event)
    ensures var t := Next(s, e);
            && (t.created == s.created
                || (t.created == s.created[s.nextId := t.created[s.nextId]]
                    && ((t.created[s.nextId].family == s.nextFamily && t.nextFamily == s.nextFamily + 1)
                        || (e.Commit? && e.refresh in s.pending
                            && t.created[s.nextId].user == s.pending[e.refresh].row.user
                            && t.created[s.nextId].family == s.pending[e.refresh].row.family))))
            && s.nextFamily <= t.nextFamily
            && (forall r | r in t.pending ::
                  || (r in s.pending && t.pending[r] == s.pending[r])
                  || (t.pending[r].id in s.rows && t.pending[r].row == s.rows[t.pending[r].id]))
  {
  }

  lemma RowFacts(s: State)
    requires Inv(s)
    ensures s.nextId !in s.created
    ensures forall id | id in s.rows ::
              id in s.created && s.created[id].user == s.rows[id].user && s.created[id].family == s.rows[id].family
  {
  }

  lemma NextUser(s: State, e: Event)
    requires Inv(s) && UserInv(s)
    ensures UserInv(Next(s, e))
  {
    hide Inv, Next;
    CreatedBy(s, e);
    RowFacts(s);
  }

  lemma {:induction false} RunUser(events: seq<Event>)
    ensures UserInv(Run(Init, events))
    decreases |events|
  {
    if |events| > 0 {
      RunUser(events[..|events| - 1]);
      RunInv(events[..|events| - 1]);
      hide UserInv, Inv, Next;
      NextUser(Run(Init, events[..|events| - 1]), events[|events| - 1]);
    }
  }

  /** A changed password ends all sessions of its user, ending the others all but one family, a logout one. */
  predicate SignsOut(e: Event, user: nat, family: Family) {
    || e == RevokeUser(user)
    || (e.RevokeOthers? && e.user == user && e.keep != family)
    || e == RevokeFamily(family)
  }

  lemma SignOutKills(s: State, e: Event, id: Id)
    requires Inv(s) && UserInv(s) && id in s.created && SignsOut(e, s.created[id].user, s.created[id].family)
    ensures FamilyDead(Next(s, e), s.created[id].family) && Next(s, e).exchanges == s.exchanges && Next(s, e).created == s.created
  {
    hide CreatedInv, SuffixInv, ReadsInv, ExchangeInv;
  }

  lemma CreatedRows(s: State)
    requires Inv(s)
    ensures forall id | id in s.rows :: id in s.created && s.created[id].family == s.rows[id].family
  {
  }

  lemma HistoryGrows(s: State, e: Event)
    requires Inv(s)
    ensures s.exchanges <= Next(s, e).exchanges
    ensures forall id | id in s.created :: id in Next(s, e).created && Next(s, e).created[id] == s.created[id]
  {
    CreatedBy(s, e);
    assert s.nextId !in s.created;
    if e.Commit? && e.refresh in s.pending { CommitExchanges(s, e.refresh, e.userAvailable); } else { OtherExchanges(s, e); }
    hide Next;
  }

  /** No run from a dead family exchanges a token of it. */
  lemma {:induction false} DeadRun(s: State, after: seq<Event>, family: Family)
    requires Inv(s) && FamilyDead(s, family)
    ensures var t := Run(s, after);
            && Inv(t) && FamilyDead(t, family) && s.exchanges <= t.exchanges
            && forall i | |s.exchanges| <= i < |t.exchanges| ::
                 t.exchanges[i].0 in t.created && t.created[t.exchanges[i].0].family != family
    decreases |after|
  {
    hide Inv, FamilyDead, Next;
    if |after| > 0 {
      var t, e := Run(s, after[..|after| - 1]), after[|after| - 1];
      DeadRun(s, after[..|after| - 1], family);
      NextInv(t, e);
      DeadStep(t, e, family);
      HistoryGrows(t, e);
      assert forall id | id in t.rows :: id in t.created && t.created[id].family == t.rows[id].family by { CreatedRows(t); }
    }
  }

  /**
   * After a password change, a sign-out of the other devices or a logout, no token issued before to that user (outside
   * the kept family) or family is exchanged again in any continuation, whatever refreshes were under way.
   */
  lemma {:induction false} SignOutIsFinal(before: seq<Event>, e: Event, after: seq<Event>, id: Id)
    requires var s := Run(Init, before); id in s.created && SignsOut(e, s.created[id].user, s.created[id].family)
    ensures var s := Run(Init, before);
            var t := Run(Next(s, e), after);
            && FamilyDead(t, s.created[id].family)
            && s.exchanges <= t.exchanges
            && forall i | |s.exchanges| <= i < |t.exchanges| ::
                 t.exchanges[i].0 in t.created && t.created[t.exchanges[i].0].family != s.created[id].family
  {
    RunInv(before);
    RunUser(before);
    var s := Run(Init, before);
    hide Run, Inv, UserInv, FamilyDead, Next;
    SignOutKills(s, e, id);
    NextInv(s, e);
    DeadRun(Next(s, e), after, s.created[id].family);
  }

  // ---------- Pruning preserves verdicts ----------

  /**
   * Every surviving session gets the same verdict at every moment although its links are nulled, and
   * every deleted session would have been rejected at every moment from now on.
   */
  lemma {:induction false} PruningPreservesVerdicts(events: seq<Event>, cutoff: int, ids: set<Id>, batchSize: nat, now: int)
    requires var s := Run(Init, events);
             s.clock <= now && cutoff <= s.clock - RETENTION && IsBatch(s.rows, cutoff, batchSize, ids)
    ensures var s := Run(Init, events);
            var s' := Next(s, PruneBatch(cutoff, ids, batchSize));
            && s'.rows.Keys == s.rows.Keys - ids
            && (forall id | id in s'.rows :: VerdictOf(s'.rows[id], now) == VerdictOf(s.rows[id], now))
            && (forall id | id in ids :: VerdictOf(s.rows[id], now).Revoked? || VerdictOf(s.rows[id], now).Expired?)
  {
    RunInv(events);
    hide CreatedInv, SuffixInv, ReadsInv, ExchangeInv;
  }

  /** No step deletes a session before seven days after its expiry. */
  lemma {:induction false} NothingIsDeletedEarly(events: seq<Event>, e: Event, id: Id)
    requires id in Run(Init, events).rows && id !in Next(Run(Init, events), e).rows
    ensures e.PruneBatch? && Run(Init, events).clock - Run(Init, events).rows[id].expiresAt > 7 * 24 * 60 * 60 * 1000
  {
    hide Run;
    var s := Run(Init, events);
    assert e.PruneBatch? ==> id in e.ids;
    assert e.PruneBatch? && IsBatch(s.rows, e.cutoff, e.batchSize, e.ids) ==> id in Prunable(s.rows, e.cutoff);
  }

  /** No successor link dangles, and a parent link only in the session a lost race inserted, which is revoked. */
  ghost predicate LinksInv(s: State) {
    forall id | id in s.rows ::
      && (s.rows[id].replacedBy.Some? ==> s.rows[id].replacedBy.value in s.rows)
      && (s.rows[id].parent.Some? ==> s.rows[id].parent.value in s.rows || s.rows[id].revoked)
  }

  lemma RevokedLinks(s: State, p: (Id, Session) -> bool)
    requires LinksInv(s)
    ensures LinksInv(s.(rows := RevokeWhere(s.rows, p)))
  {
    assert RevokeWhere(s.rows, p).Keys == s.rows.Keys;
  }

  lemma CommitLinks(s: State, refresh: Refresh, userAvailable: bool)
    requires Inv(s) && LinksInv(s)
    ensures LinksInv(CommitRefresh(s, refresh, userAvailable))
  {
    assert s.nextId !in s.rows;
    hide Inv;
    match VerdictOf(refresh.row, refresh.readAt)
    case Revoked =>
    case Expired => RevokedLinks(s, (id, row: Session) => id == refresh.id);
    case Replayed => RevokedLinks(s, (id, row: Session) => row.family == refresh.row.family);
    case Usable =>
      if !userAvailable { RevokedLinks(s, (id, row: Session) => row.family == refresh.row.family); }
  }

  lemma PrunedLinks(s: State, ids: set<Id>)
    requires LinksInv(s)
    ensures LinksInv(s.(rows := Pruned(s.rows, ids)))
  {
  }

  lemma NextLinks(s: State, e: Event)
    requires Inv(s) && LinksInv(s)
    ensures LinksInv(Next(s, e))
  {
    assert s.nextId !in s.rows;
    hide Inv, CommitRefresh, RevokeWhere, Pruned;
    match e
    case Commit(r, userAvailable) => if r in s.pending { CommitLinks(s, s.pending[r], userAvailable); }
    case RevokeSession(id) => RevokedLinks(s, (i, row: Session) => i == id);
    case RevokeFamily(family) => RevokedLinks(s, (i, row: Session) => row.family == family);
    case RevokeUser(user) => RevokedLinks(s, (i, row: Session) => row.user == user);
    case RevokeOthers(user, keep) => RevokedLinks(s, (i, row: Session) => row.user == user && row.family != keep);
    case PruneBatch(_, ids, _) => PrunedLinks(s, ids);
    case _ =>
  }

  /** Over every run, cleaning included. */
  lemma {:induction false} LinksResolve(events: seq<Event>)
    ensures LinksInv(Run(Init, events))
    decreases |events|
  {
    if |events| > 0 {
      LinksResolve(events[..|events| - 1]);
      RunInv(events[..|events| - 1]);
      hide LinksInv, Inv, Next;
      NextLinks(Run(Init, events[..|events| - 1]), events[|events| - 1]);
    }
  }

  /** The surviving rows of a family are a suffix of its rotation chain. */
  lemma {:induction false} SurvivorsAreASuffix(events: seq<Event>)
    ensures var s := Run(Init, events);
            forall i | 0 <= i < |s.exchanges| && s.exchanges[i].0 in s.rows :: s.exchanges[i].1 in s.rows
  {
    RunInv(events);
    hide Run;
  }
}
