/** The invariant of the lease protocol and the proof that every step keeps it. */
module LeaseInvariant {
  import opened Types
  import opened OutboxRows
  import opened Backoff
  import opened Lease

  function Last(h: seq<Claim>): Claim
    requires h != []
  {
    h[|h| - 1]
  }

  /** The least time between claims number k and k + 1 of one message. */
  function Gap(c: Config, k: nat): Time
    requires 1 <= k
  {
    Min(Delay(c.policy, k), c.timeout - c.skew)
  }

  ghost predicate ClaimInv(clock: Time, cl: Claim) {
    cl.at <= clock && (cl.finish.Some? ==> cl.start.Some?) && (cl.ok ==> cl.finish.Some?)
  }

  ghost predicate Spaced(c: Config, h: seq<Claim>) {
    forall i, j | 0 <= i < j < |h| && j == i + 1 :: h[i].at + Gap(c, j) <= h[j].at
  }

  ghost predicate HistoryInv(c: Config, clock: Time, h: seq<Claim>) {
    && |h| <= c.policy.maxAttempts
    && (forall k | 0 <= k < |h| :: ClaimInv(clock, h[k]))
    && Spaced(c, h)
  }

  /** The next claim, if it reads `now` from this clock, keeps its distance from the last one. */
  ghost predicate Cooling(c: Config, clock: Time, r: Row, h: seq<Claim>)
    requires h != []
  {
    || (r.nextRetryAt.Some? && Last(h).at + Delay(c.policy, |h|) <= r.nextRetryAt.value)
    || Last(h).at + c.timeout < clock
  }

  /** The row tells the same story as the claim history. */
  ghost predicate Agrees(c: Config, clock: Time, r: Row, h: seq<Claim>) {
    && r.attempts == |h|
    && (r.status.Processing? ==> h != [] && r.claimedAt == Some(Last(h).at) && r.claimedBy == Some(Last(h).worker))
    && (r.status.Pending? && h != [] ==> Cooling(c, clock, r, h))
    && (r.status.Processed? ==> h != [] && Last(h).ok)
  }

  /** A draft written by a claim that is not committed yet: one attempt ahead of the history. */
  ghost predicate ClaimedDraft(c: Config, d: Row, h: seq<Claim>, w: WorkerId, now: Time) {
    && OwnedBy(d, w) && d.claimedAt == Some(now) && d.attempts == |h| + 1
    && (h != [] ==> Last(h).at + Gap(c, |h|) <= now)
  }

  ghost predicate DraftInv(c: Config, clock: Time, id: MessageId, m: Message, w: WorkerId, p: Phase)
    requires m.row.Some? && m.lock.Some?
  {
    var draft := m.lock.value.draft;
    if p.Purging? then
      draft.None? && Terminal(m.row.value)
    else
      && draft.Some?
      && RowInv(draft.value, c.policy.maxAttempts)
      && draft.value.createdAt == m.createdAt
      && !Terminal(m.row.value)
      && Rank(m.row.value) < Rank(draft.value)
      && (if p.Polling? && id in p.taken
          then ClaimedDraft(c, draft.value, m.claims, w, p.now)
          else Agrees(c, clock, draft.value, m.claims))
  }

  ghost predicate RowAgrees(c: Config, clock: Time, m: Message) {
    && (m.row.Some? ==>
          && RowInv(m.row.value, c.policy.maxAttempts)
          && m.row.value.createdAt == m.createdAt
          && Agrees(c, clock, m.row.value, m.claims)
          && (m.row.value.status.Dead? ==> m.died))
    && (m.row.None? ==> m.died || (m.claims != [] && Last(m.claims).ok))
  }

  /** Everything the invariant says about one message. */
  ghost predicate MessageOk(c: Config, clock: Time, id: MessageId, m: Message, ws: map<WorkerId, Phase>) {
    && HistoryInv(c, clock, m.claims)
    && RowAgrees(c, clock, m)
    && (m.lock.Some? ==>
          && m.row.Some?
          && m.lock.value.owner in ws
          && TxOpen(ws[m.lock.value.owner])
          && DraftInv(c, clock, id, m, m.lock.value.owner, ws[m.lock.value.owner]))
  }

  /** Entry `id -> k` of a batch: claim number k of the message is this worker's, and its latest one there. */
  ghost predicate EntryOk(ms: Messages, w: WorkerId, now: Time, id: MessageId, k: nat) {
    && id in ms
    && 1 <= k <= |ms[id].claims|
    && ms[id].claims[k - 1].worker == w
    && ms[id].claims[k - 1].at == now
    && forall j | k <= j < |ms[id].claims| :: ms[id].claims[j].worker != w
  }

  ghost predicate FinishedEntry(ms: Messages, id: MessageId, k: nat) {
    id in ms && 1 <= k <= |ms[id].claims| && ms[id].claims[k - 1].finish.Some?
  }

  /** Everything the invariant says about one worker. */
  ghost predicate PhaseOk(ms: Messages, clock: Time, w: WorkerId, p: Phase) {
    match p
    case Idle => true
    case Polling(now, stage, taken, passed) =>
      && now <= clock && stage <= 3 && taken !! passed
      && (stage < 3 ==> taken == {} && passed == {})
      && (forall id | id in taken :: id in ms && LockedBy(ms[id], w))
    case Publishing(now, batch) =>
      && now <= clock
      && (forall id | id in batch :: EntryOk(ms, w, now, id, batch[id]))
    case Marking(now, batch, left) =>
      && now <= clock
      && left <= batch.Keys
      && (forall id | id in batch :: EntryOk(ms, w, now, id, batch[id]))
      && (forall id | id in batch :: FinishedEntry(ms, id, batch[id]))
      && (forall id | id in left :: id in ms && !LockedBy(ms[id], w))
    case Purging(stage) => stage <= 2
  }

  ghost predicate MessagesOk(c: Config, s: State) {
    forall id | id in s.messages :: MessageOk(c, s.clock, id, s.messages[id], s.workers)
  }

  ghost predicate WorkersOk(s: State) {
    forall w | w in s.workers :: PhaseOk(s.messages, s.clock, w, s.workers[w])
  }

  ghost predicate Inv(c: Config, s: State) {
    MessagesOk(c, s) && WorkersOk(s)
  }

  // ---------------------------------------------------------------------------
  // Fencing
  // ---------------------------------------------------------------------------

  /** If a row still belongs to a worker that is recording its batch, then the lease is the one that batch
      took: same attempt number, same `now`, and the history's latest claim. */
  lemma LeaseIsFromThisBatch(c: Config, clock: Time, ms: Messages, ws: map<WorkerId, Phase>, w: WorkerId, id: MessageId)
    requires w in ws && ws[w].Marking? && id in ws[w].left && id in ms
    requires MessageOk(c, clock, id, ms[id], ws) && PhaseOk(ms, clock, w, ws[w])
    requires ms[id].row.Some? && OwnedBy(ms[id].row.value, w)
    ensures !LockedBy(ms[id], w)
    ensures ms[id].row.value.attempts == ws[w].batch[id] == |ms[id].claims|
    ensures ms[id].row.value.claimedAt == Some(ws[w].now)
    ensures ms[id].claims != [] && Last(ms[id].claims) == ms[id].claims[ws[w].batch[id] - 1]
    ensures Last(ms[id].claims).at == ws[w].now && Last(ms[id].claims).finish.Some?
  {
    assert EntryOk(ms, w, ws[w].now, id, ws[w].batch[id]);
    assert FinishedEntry(ms, id, ws[w].batch[id]);
    assert Last(ms[id].claims).worker == w;
  }

  // ---------------------------------------------------------------------------
  // One message, one statement
  // ---------------------------------------------------------------------------

  /** The shape of the acting worker's phase before and after a statement. */
  ghost predicate Issues(c: Config, clock: Time, p: Phase, st: Statement, p': Phase) {
    match st
    case ReleaseDead(now, timeout, max, _) =>
      p.Polling? && p'.Polling? && p.now == p'.now == now <= clock && timeout == c.timeout
      && max == c.policy.maxAttempts
      && p.taken == p'.taken == {}
    case ReleasePending(now, timeout, max) =>
      p.Polling? && p'.Polling? && p.now == p'.now == now <= clock && timeout == c.timeout
      && max == c.policy.maxAttempts
      && p.taken == p'.taken == {}
    case ClaimIds(ids, now, w) =>
      p.Polling? && p'.Polling? && p.now == p'.now == now <= clock <= now + c.skew && p.taken == {} && p'.taken == ids
    case MarkProcessed(_, _, _) => p.Marking? && p'.Marking?
    case MarkFailure(_, _, max, _, _) => p.Marking? && p'.Marking? && max == c.policy.maxAttempts
    case Reap(max, _) => p.Purging? && p'.Purging? && max == c.policy.maxAttempts
    case Purge(_) => p.Purging? && p'.Purging?
  }

  /** The row a statement of `w` sees is a reachable row that agrees with the history. */
  lemma ViewAgrees(c: Config, clock: Time, id: MessageId, m: Message, ws: map<WorkerId, Phase>, w: WorkerId)
    requires MessageOk(c, clock, id, m, ws) && w in ws
    requires ws[w].Polling? ==> ws[w].taken == {}
    requires View(m, w).Some?
    ensures var r := View(m, w).value;
            && RowInv(r, c.policy.maxAttempts)
            && r.createdAt == m.createdAt
            && Agrees(c, clock, r, m.claims)
            && m.row.Some?
            && Rank(m.row.value) <= Rank(r)
            && (!Terminal(r) ==> !Terminal(m.row.value))
  {
  }

  /** A row that is about to be claimed has kept its distance from the previous claim. */
  lemma ClaimKeepsDistance(c: Config, clock: Time, r: Row, h: seq<Claim>, now: Time)
    requires h != [] && Agrees(c, clock, r, h) && Eligible(r, now, c.policy.maxAttempts)
    requires clock <= now + c.skew
    ensures Last(h).at + Gap(c, |h|) <= now
  {
  }

  /** What a statement writes again agrees with the history, or is a claim one attempt ahead of it. */
  lemma WriteAgrees(c: Config, clock: Time, id: MessageId, r: Row, h: seq<Claim>, st: Statement, p: Phase, p': Phase)
    requires RowInv(r, c.policy.maxAttempts) && Agrees(c, clock, r, h)
    requires Matches(st, id, r) && Issues(c, clock, p, st, p')
    requires Issued(st, id, r, c.policy.maxAttempts)
    requires st.MarkProcessed? ==> h != [] && Last(h).ok
    requires st.MarkFailure? && st.retryAt.Some? ==> h != [] && Last(h).at + Delay(c.policy, |h|) <= st.retryAt.value
    requires st.MarkFailure? && st.retryAt.None? ==> r.attempts >= c.policy.maxAttempts
    ensures !st.Purge? && !st.ClaimIds? ==> Agrees(c, clock, Updated(st, r).value, h)
    ensures st.ClaimIds? ==> ClaimedDraft(c, Updated(st, r).value, h, st.worker, st.now)
  {
    if st.ClaimIds? && h != [] {
      ClaimKeepsDistance(c, clock, r, h, st.now);
    }
  }

  /** The result of a publish, as the history holds it, is what the mark writes. */
  ghost predicate TellsResult(c: Config, h: seq<Claim>, r: Row, st: Statement) {
    && (st.MarkProcessed? ==> h != [] && Last(h).ok)
    && (st.MarkFailure? && st.retryAt.Some? ==> h != [] && Last(h).at + Delay(c.policy, |h|) <= st.retryAt.value)
    && (st.MarkFailure? && st.retryAt.None? ==> r.attempts >= c.policy.maxAttempts)
  }

  lemma HitKeepsMessage(c: Config, clock: Time, id: MessageId, m: Message, ws: map<WorkerId, Phase>,
                        w: WorkerId, st: Statement, p': Phase)
    requires MessageOk(c, clock, id, m, ws) && w in ws && Issues(c, clock, ws[w], st, p')
    requires m.lock.None? || LockedBy(m, w)
    requires Hits(st, id, m, w)
    requires Issued(st, id, View(m, w).value, c.policy.maxAttempts)
    requires TellsResult(c, m.claims, View(m, w).value, st)
    requires st.ClaimIds? ==> st.worker == w
    ensures MessageOk(c, clock, id, Touch(st, id, m, w), ws[w := p'])
  {
    var r := View(m, w).value;
    ViewAgrees(c, clock, id, m, ws, w);
    StatementOnRow(st, id, r, c.policy.maxAttempts);
    WriteAgrees(c, clock, id, r, m.claims, st, ws[w], p');
    assert st.ClaimIds? ==> id in p'.taken;
  }

  lemma MissKeepsMessage(c: Config, clock: Time, id: MessageId, m: Message, ws: map<WorkerId, Phase>,
                         w: WorkerId, st: Statement, p': Phase)
    requires MessageOk(c, clock, id, m, ws) && w in ws && Issues(c, clock, ws[w], st, p')
    requires !Hits(st, id, m, w)
    requires st.ClaimIds? && id in st.ids ==> View(m, w).Some?
    ensures MessageOk(c, clock, id, m, ws[w := p'])
  {
  }

  lemma MarkTellsResult(c: Config, s: State, a: Action)
    requires ValidConfig(c) && Inv(c, s) && Enabled(c, s, a) && (a.MarkOk? || a.MarkFailed?)
    requires Hits(StatementOf(c, s, a).value, a.id, s.messages[a.id], a.w)
    ensures var m := s.messages[a.id];
            View(m, a.w).Some? && TellsResult(c, m.claims, View(m, a.w).value, StatementOf(c, s, a).value)
  {
    var p := s.workers[a.w];
    var m := s.messages[a.id];
    assert PhaseOk(s.messages, s.clock, a.w, p);
    assert MessageOk(c, s.clock, a.id, m, s.workers);
    LeaseIsFromThisBatch(c, s.clock, s.messages, s.workers, a.w, a.id);
    if a.MarkFailed? {
      RetryWindow(c.policy, p.batch[a.id], p.now, a.factor);
    }
  }

  lemma StatementIsIssued(c: Config, s: State, a: Action)
    requires ValidConfig(c) && Enabled(c, s, a) && IsStatement(a) && PhaseOk(s.messages, s.clock, a.w, s.workers[a.w])
    ensures Issues(c, s.clock, s.workers[a.w], StatementOf(c, s, a).value, Advanced(c, s, a))
  {
  }

  lemma TouchKeepsMessage(c: Config, s: State, a: Action, id: MessageId)
    requires ValidConfig(c) && Inv(c, s) && Enabled(c, s, a) && IsStatement(a) && id in s.messages
    ensures MessageOk(c, s.clock, id, Touch(StatementOf(c, s, a).value, id, s.messages[id], a.w),
                      s.workers[a.w := Advanced(c, s, a)])
  {
    var m := s.messages[id];
    var st := StatementOf(c, s, a).value;
    var p' := Advanced(c, s, a);
    assert MessageOk(c, s.clock, id, m, s.workers);
    assert PhaseOk(s.messages, s.clock, a.w, s.workers[a.w]);
    StatementIsIssued(c, s, a);
    if Hits(st, id, m, a.w) {
      if a.MarkOk? || a.MarkFailed? {
        MarkTellsResult(c, s, a);
      }
      HitKeepsMessage(c, s.clock, id, m, s.workers, a.w, st, p');
    } else {
      MissKeepsMessage(c, s.clock, id, m, s.workers, a.w, st, p');
    }
  }

  // ---------------------------------------------------------------------------
  // Frames: what a step leaves alone
  // ---------------------------------------------------------------------------

  /** The history of `m` grew or was filled in, but kept who claimed what and when, and which publishes ended. */
  ghost predicate GrewFrom(m: Message, m': Message) {
    && |m.claims| <= |m'.claims|
    && forall j | 0 <= j < |m.claims| ::
         && m'.claims[j].worker == m.claims[j].worker
         && m'.claims[j].at == m.claims[j].at
         && (m.claims[j].finish.Some? ==> m'.claims[j].finish.Some?)
  }

  ghost predicate NoNewClaimsBy(m: Message, m': Message, w: WorkerId) {
    forall j | |m.claims| <= j < |m'.claims| :: m'.claims[j].worker != w
  }

  ghost predicate SameFor(ms: Messages, ms': Messages, w: WorkerId) {
    forall id | id in ms :: id in ms' && GrewFrom(ms[id], ms'[id]) && NoNewClaimsBy(ms[id], ms'[id], w)
                            && LockedBy(ms'[id], w) == LockedBy(ms[id], w)
  }

  lemma PhaseFramed(ms: Messages, ms': Messages, clock: Time, clock': Time, w: WorkerId, p: Phase)
    requires PhaseOk(ms, clock, w, p) && SameFor(ms, ms', w) && clock <= clock'
    ensures PhaseOk(ms', clock', w, p)
  {
    if p.Publishing? || p.Marking? {
      forall id | id in p.batch
        ensures EntryOk(ms', w, p.now, id, p.batch[id])
        ensures FinishedEntry(ms, id, p.batch[id]) ==> FinishedEntry(ms', id, p.batch[id])
      {
        assert EntryOk(ms, w, p.now, id, p.batch[id]);
        assert GrewFrom(ms[id], ms'[id]);
      }
    }
  }

  lemma MessageFramed(c: Config, clock: Time, clock': Time, id: MessageId, m: Message,
                      ws: map<WorkerId, Phase>, ws': map<WorkerId, Phase>)
    requires MessageOk(c, clock, id, m, ws) && clock <= clock'
    requires m.lock.Some? ==> m.lock.value.owner in ws' && ws'[m.lock.value.owner] == ws[m.lock.value.owner]
    ensures MessageOk(c, clock', id, m, ws')
  {
  }

  // ---------------------------------------------------------------------------
  // Every step keeps the invariant
  // ---------------------------------------------------------------------------

  lemma OthersFramed(c: Config, s: State, s': State, actor: WorkerId)
    requires WorkersOk(s) && s.clock <= s'.clock
    requires forall w | w in s'.workers && w != actor :: w in s.workers && s'.workers[w] == s.workers[w]
    requires forall w | w in s'.workers && w != actor :: SameFor(s.messages, s'.messages, w)
    requires actor in s'.workers ==> PhaseOk(s'.messages, s'.clock, actor, s'.workers[actor])
    ensures WorkersOk(s')
  {
    forall w | w in s'.workers ensures PhaseOk(s'.messages, s'.clock, w, s'.workers[w]) {
      if w != actor {
        PhaseFramed(s.messages, s'.messages, s.clock, s'.clock, w, s.workers[w]);
      }
    }
  }

  lemma StatementSameFor(st: Statement, ms: Messages, actor: WorkerId, w: WorkerId)
    requires w != actor
    requires Unblocked(st, ms, actor)
    ensures SameFor(ms, RunStatement(st, ms, actor), w)
  {
  }

  lemma StatementKeepsInv(c: Config, s: State, a: Action)
    requires ValidConfig(c) && Inv(c, s) && Enabled(c, s, a) && IsStatement(a)
    ensures Inv(c, Apply(c, s, a))
  {
    var s' := Apply(c, s, a);
    var st := StatementOf(c, s, a).value;
    forall id | id in s'.messages ensures MessageOk(c, s'.clock, id, s'.messages[id], s'.workers) {
      TouchKeepsMessage(c, s, a, id);
    }
    forall w | w in s'.workers && w != a.w ensures SameFor(s.messages, s'.messages, w) {
      StatementSameFor(st, s.messages, a.w, w);
    }
    ActorAfterStatement(c, s, a);
    OthersFramed(c, s, s', a.w);
  }

  lemma ActorAfterStatement(c: Config, s: State, a: Action)
    requires ValidConfig(c) && Inv(c, s) && Enabled(c, s, a) && IsStatement(a)
    ensures PhaseOk(Apply(c, s, a).messages, s.clock, a.w, Advanced(c, s, a))
  {
    hide MessagesOk, Updated;
    var st := StatementOf(c, s, a).value;
    var p := s.workers[a.w];
    assert PhaseOk(s.messages, s.clock, a.w, p);
    if a.MarkOk? || a.MarkFailed? {
      ActorAfterMark(s.messages, s.clock, a.w, p, st, a.id);
    }
  }

  lemma ActorAfterMark(ms: Messages, clock: Time, w: WorkerId, p: Phase, st: Statement, id: MessageId)
    requires PhaseOk(ms, clock, w, p) && p.Marking?
    requires (st.MarkProcessed? || st.MarkFailure?) && st.id == id
    ensures PhaseOk(RunStatement(st, ms, w), clock, w, p.(left := p.left - {id}))
  {
    var ms' := RunStatement(st, ms, w);
    forall x | x in p.batch
      ensures EntryOk(ms', w, p.now, x, p.batch[x]) && FinishedEntry(ms', x, p.batch[x])
    {
      assert EntryOk(ms, w, p.now, x, p.batch[x]);
      assert FinishedEntry(ms, x, p.batch[x]);
      assert ms'[x].claims == ms[x].claims;
    }
  }

  lemma SettleKeepsMessage(c: Config, clock: Time, id: MessageId, m: Message, ws: map<WorkerId, Phase>, w: WorkerId,
                           p': Phase)
    requires MessageOk(c, clock, id, m, ws) && w in ws && ReadyToCommit(ws[w])
    requires ws[w].Polling? ==> ws[w].now <= clock
    requires ws[w].Polling? && id in ws[w].taken ==> LockedBy(m, w)
    ensures MessageOk(c, clock, id, Settle(id, m, w, ws[w]), ws[w := p'])
  {
    var p := ws[w];
    var m' := Settle(id, m, w, p);
    if p.Polling? && id in p.taken {
      assert ClaimedDraft(c, m.lock.value.draft.value, m.claims, w, p.now);
      assert m'.claims == m.claims + [Claim(w, p.now, None, None, false)];
    }
  }

  function Committed(ms: Messages, w: WorkerId, p: Phase): Messages {
    map id | id in ms :: Settle(id, ms[id], w, p)
  }

  lemma CommitSameFor(ms: Messages, actor: WorkerId, p: Phase, w: WorkerId)
    requires w != actor
    ensures SameFor(ms, Committed(ms, actor, p), w)
  {
  }

  /** A claimed message carries a draft one attempt ahead of its history. */
  lemma TakenIsClaimed(c: Config, s: State, w: WorkerId, id: MessageId)
    requires Inv(c, s) && w in s.workers && s.workers[w].Polling? && id in s.workers[w].taken
    ensures HasDraft(s.messages, w, id)
    ensures s.messages[id].lock.value.draft.value.attempts == |s.messages[id].claims| + 1
  {
    assert PhaseOk(s.messages, s.clock, w, s.workers[w]);
    assert MessageOk(c, s.clock, id, s.messages[id], s.workers);
  }

  lemma ActorAfterCommit(c: Config, s: State, w: WorkerId)
    requires Inv(c, s) && w in s.workers && ReadyToCommit(s.workers[w])
    ensures PhaseOk(Committed(s.messages, w, s.workers[w]), s.clock, w, AfterCommit(s.messages, w, s.workers[w]))
  {
    var p := s.workers[w];
    assert PhaseOk(s.messages, s.clock, w, p);
    if p.Polling? {
      forall id | id in p.taken
        ensures HasDraft(s.messages, w, id)
        ensures EntryOk(Committed(s.messages, w, p), w, p.now, id, s.messages[id].lock.value.draft.value.attempts)
      {
        TakenIsClaimed(c, s, w, id);
      }
    }
  }

  lemma CommitKeepsInv(c: Config, s: State, a: Action)
    requires ValidConfig(c) && Inv(c, s) && Enabled(c, s, a) && a.Commit?
    ensures Inv(c, Apply(c, s, a))
  {
    var s' := Apply(c, s, a);
    var p := s.workers[a.w];
    assert PhaseOk(s.messages, s.clock, a.w, p);
    assert s'.messages == Committed(s.messages, a.w, p);
    forall id | id in s'.messages ensures MessageOk(c, s'.clock, id, s'.messages[id], s'.workers) {
      SettleKeepsMessage(c, s.clock, id, s.messages[id], s.workers, a.w, AfterCommit(s.messages, a.w, p));
    }
    forall w | w in s'.workers && w != a.w ensures SameFor(s.messages, s'.messages, w) {
      CommitSameFor(s.messages, a.w, p, w);
    }
    ActorAfterCommit(c, s, a.w);
    OthersFramed(c, s, s', a.w);
  }

  lemma AbortKeepsInv(c: Config, s: State, a: Action)
    requires ValidConfig(c) && Inv(c, s) && Enabled(c, s, a) && a.Abort?
    ensures Inv(c, Apply(c, s, a))
  {
    var s' := Apply(c, s, a);
    forall id | id in s'.messages ensures MessageOk(c, s'.clock, id, s'.messages[id], s'.workers) {
      assert MessageOk(c, s.clock, id, s.messages[id], s.workers);
    }
    OthersFramed(c, s, s', a.w);
  }

  lemma CutOffKeepsHistory(c: Config, clock: Time, h: seq<Claim>, h': seq<Claim>, w: WorkerId)
    requires HistoryInv(c, clock, h)
    requires |h'| == |h| && forall k | 0 <= k < |h| :: h'[k] == CutOff(h[k], w, clock)
    ensures HistoryInv(c, clock, h')
    ensures h != [] ==> Last(h') == CutOff(Last(h), w, clock)
  {
  }

  lemma DropKeepsMessage(c: Config, clock: Time, id: MessageId, m: Message, ws: map<WorkerId, Phase>, w: WorkerId)
    requires MessageOk(c, clock, id, m, ws)
    ensures MessageOk(c, clock, id, Drop(m, w, clock), ws - {w})
  {
    CutOffKeepsHistory(c, clock, m.claims, Drop(m, w, clock).claims, w);
  }

  lemma CrashSameFor(ms: Messages, actor: WorkerId, clock: Time, w: WorkerId)
    requires w != actor
    ensures SameFor(ms, map id | id in ms :: Drop(ms[id], actor, clock), w)
  {
  }

  lemma CrashKeepsInv(c: Config, s: State, a: Action)
    requires ValidConfig(c) && Inv(c, s) && Enabled(c, s, a) && a.Crash?
    ensures Inv(c, Apply(c, s, a))
  {
    var s' := Apply(c, s, a);
    forall id | id in s'.messages ensures MessageOk(c, s'.clock, id, s'.messages[id], s'.workers) {
      DropKeepsMessage(c, s.clock, id, s.messages[id], s.workers, a.w);
    }
    forall w | w in s'.workers && w != a.w ensures SameFor(s.messages, s'.messages, w) {
      CrashSameFor(s.messages, a.w, s.clock, w);
    }
    OthersFramed(c, s, s', a.w);
  }

  /** Filling in one record of the history: same worker, same `now`, and a result only once it has ended. */
  lemma FillKeepsMessage(c: Config, clock: Time, id: MessageId, m: Message, ws: map<WorkerId, Phase>, k: nat, cl: Claim)
    requires MessageOk(c, clock, id, m, ws) && k < |m.claims|
    requires cl.worker == m.claims[k].worker && cl.at == m.claims[k].at && ClaimInv(clock, cl)
    requires m.claims[k].finish.None?
    ensures MessageOk(c, clock, id, m.(claims := m.claims[k := cl]), ws)
  {
    var h, h' := m.claims, m.claims[k := cl];
    assert forall j | 0 <= j < |h| :: h'[j].at == h[j].at && h'[j].worker == h[j].worker;
    assert Spaced(c, h');
    assert Last(h').ok || !Last(h).ok;
  }

  lemma FillSameFor(ms: Messages, id: MessageId, k: nat, cl: Claim, w: WorkerId)
    requires id in ms && k < |ms[id].claims|
    requires cl.worker == ms[id].claims[k].worker && cl.at == ms[id].claims[k].at && ms[id].claims[k].finish.None?
    ensures SameFor(ms, ms[id := ms[id].(claims := ms[id].claims[k := cl])], w)
  {
  }

  lemma FillKeepsMessages(c: Config, s: State, id: MessageId, k: nat, cl: Claim)
    requires MessagesOk(c, s) && id in s.messages && k < |s.messages[id].claims|
    requires cl.worker == s.messages[id].claims[k].worker && cl.at == s.messages[id].claims[k].at
    requires s.messages[id].claims[k].finish.None? && ClaimInv(s.clock, cl)
    ensures MessagesOk(c, s.(messages := s.messages[id := s.messages[id].(claims := s.messages[id].claims[k := cl])]))
  {
    FillKeepsMessage(c, s.clock, id, s.messages[id], s.workers, k, cl);
  }

  lemma FillKeepsWorkers(c: Config, s: State, id: MessageId, k: nat, cl: Claim)
    requires WorkersOk(s) && id in s.messages && k < |s.messages[id].claims|
    requires cl.worker == s.messages[id].claims[k].worker && cl.at == s.messages[id].claims[k].at
    requires s.messages[id].claims[k].finish.None?
    ensures WorkersOk(s.(messages := s.messages[id := s.messages[id].(claims := s.messages[id].claims[k := cl])]))
  {
    var s' := s.(messages := s.messages[id := s.messages[id].(claims := s.messages[id].claims[k := cl])]);
    forall w | w in s'.workers ensures PhaseOk(s'.messages, s'.clock, w, s'.workers[w]) {
      FillSameFor(s.messages, id, k, cl, w);
      PhaseFramed(s.messages, s'.messages, s.clock, s'.clock, w, s.workers[w]);
    }
  }

  lemma PublishKeepsInv(c: Config, s: State, a: Action)
    requires ValidConfig(c) && Inv(c, s) && Enabled(c, s, a) && (a.StartPublish? || a.FinishPublish?)
    ensures Inv(c, Apply(c, s, a))
  {
    hide MessagesOk, WorkersOk;
    var k := s.workers[a.w].batch[a.id] - 1;
    var before := Current(s, a.w, a.id);
    var cl := if a.StartPublish? then before.(start := Some(s.clock)) else before.(finish := Some(s.clock), ok := a.ok);
    RecordInv(c, s, a.id, k);
    FillKeepsMessages(c, s, a.id, k, cl);
    FillKeepsWorkers(c, s, a.id, k, cl);
  }

  lemma RecordInv(c: Config, s: State, id: MessageId, k: nat)
    requires MessagesOk(c, s) && id in s.messages && k < |s.messages[id].claims|
    ensures ClaimInv(s.clock, s.messages[id].claims[k])
  {
    assert MessageOk(c, s.clock, id, s.messages[id], s.workers);
  }

  lemma BeginMarkOk(c: Config, s: State, w: WorkerId)
    requires Inv(c, s) && Enabled(c, s, BeginMark(w))
    ensures PhaseOk(s.messages, s.clock, w, Marking(s.workers[w].now, s.workers[w].batch, s.workers[w].batch.Keys))
  {
    var p := s.workers[w];
    assert PhaseOk(s.messages, s.clock, w, p);
    forall id | id in p.batch
      ensures EntryOk(s.messages, w, p.now, id, p.batch[id]) && FinishedEntry(s.messages, id, p.batch[id])
      ensures !LockedBy(s.messages[id], w)
    {
      assert Running(s, w, id) && Current(s, w, id).finish.Some?;
      assert MessageOk(c, s.clock, id, s.messages[id], s.workers);
    }
  }

  /** Steps of one worker that touch no message, while it is outside any transaction. */
  lemma BeginKeepsInv(c: Config, s: State, a: Action)
    requires ValidConfig(c) && Inv(c, s) && Enabled(c, s, a)
    requires a.Join? || a.BeginPoll? || a.BeginMark? || a.BeginPurge?
    ensures Inv(c, Apply(c, s, a))
  {
    var s' := Apply(c, s, a);
    forall id | id in s'.messages ensures MessageOk(c, s'.clock, id, s'.messages[id], s'.workers) {
      assert MessageOk(c, s.clock, id, s.messages[id], s.workers);
      MessageFramed(c, s.clock, s'.clock, id, s.messages[id], s.workers, s'.workers);
    }
    if a.BeginMark? {
      BeginMarkOk(c, s, a.w);
    }
    OthersFramed(c, s, s', a.w);
  }

  /** Steps of the surroundings: a payment is created, time passes. */
  lemma OutsideKeepsInv(c: Config, s: State, a: Action)
    requires ValidConfig(c) && Inv(c, s) && Enabled(c, s, a)
    requires a.Insert? || a.Tick?
    ensures Inv(c, Apply(c, s, a))
  {
    var s' := Apply(c, s, a);
    forall id | id in s'.messages ensures MessageOk(c, s'.clock, id, s'.messages[id], s'.workers) {
      if id in s.messages {
        assert MessageOk(c, s.clock, id, s.messages[id], s.workers);
        MessageFramed(c, s.clock, s'.clock, id, s.messages[id], s.workers, s'.workers);
      }
    }
    forall w | w in s'.workers ensures PhaseOk(s'.messages, s'.clock, w, s'.workers[w]) {
      PhaseFramed(s.messages, s'.messages, s.clock, s'.clock, w, s.workers[w]);
    }
  }

  /** Every step of every worker, at every moment, keeps the invariant. */
  lemma StepKeepsInv(c: Config, s: State, a: Action)
    requires ValidConfig(c) && Inv(c, s) && Enabled(c, s, a)
    ensures Inv(c, Apply(c, s, a))
  {
    if IsStatement(a) {
      StatementKeepsInv(c, s, a);
    } else if a.Commit? {
      CommitKeepsInv(c, s, a);
    } else if a.Abort? {
      AbortKeepsInv(c, s, a);
    } else if a.Crash? {
      CrashKeepsInv(c, s, a);
    } else if a.StartPublish? || a.FinishPublish? {
      PublishKeepsInv(c, s, a);
    } else if a.Insert? || a.Tick? {
      OutsideKeepsInv(c, s, a);
    } else {
      BeginKeepsInv(c, s, a);
    }
  }
}
