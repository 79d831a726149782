/** The version-checked save of a session row and the retry loop around it:
    internal/realtime/service.go and the Create/Update statements of postgres_repository.go. */
module RealtimeService {
  import opened Common
  import opened RealtimeSession

  // ---------------------------------------------------------------------------
  // The table and one caller of it
  // ---------------------------------------------------------------------------

  /** The idempotent insert: a start request is identified by workspace and key, and its hash
      tells a replay from a conflicting request. */
  datatype StoredSession = StoredSession(session: Session, requestHash: string)

  datatype CreateOutcome =
    | Created(session: Session)
    | Replayed(session: Session)
    | IdempotencyConflict
    | InvalidReferences
    | InsertFailed

  /** The row that was created with the key in the workspace. */
  predicate Occupies(row: StoredSession, workspaceId: string, key: string) {
    row.session.workspaceId == workspaceId && row.session.idempotencyKey == key
  }

  /** A unique index other than that of the key refuses the session: its id is taken, or its client
      session is on record in the workspace. */
  ghost predicate Collides(rows: map<string, StoredSession>, s: Session) {
    || s.id in rows
    || exists id :: id in rows && rows[id].session.workspaceId == s.workspaceId
                    && rows[id].session.clientSessionId == s.clientSessionId
  }

  /** One row per (workspace, key) and per (workspace, client session), as the unique indexes demand. */
  ghost predicate KeysUnique(table: map<string, StoredSession>) {
    forall a, b :: a in table && b in table && a != b
                   && table[a].session.workspaceId == table[b].session.workspaceId ==>
      && table[a].session.idempotencyKey != table[b].session.idempotencyKey
      && table[a].session.clientSessionId != table[b].session.clientSessionId
  }

  ghost predicate TableOk(rows: map<string, StoredSession>) {
    && KeysUnique(rows)
    && forall id :: id in rows ==> rows[id].session.id == id && SessionInv(rows[id].session)
  }

  lemma ReplaceKeepsKeys(rows: map<string, StoredSession>, s: Session)
    requires KeysUnique(rows) && s.id in rows && SameIdentity(rows[s.id].session, s)
    ensures KeysUnique(Replace(rows, s.id, s))
  {
    var next := Replace(rows, s.id, s);
    forall a, b | a in next && b in next && a != b && next[a].session.workspaceId == next[b].session.workspaceId
      ensures next[a].session.idempotencyKey != next[b].session.idempotencyKey
      ensures next[a].session.clientSessionId != next[b].session.clientSessionId
    {
      assert rows[a].session.workspaceId == rows[b].session.workspaceId;
    }
  }

  lemma ReplaceKeepsTable(rows: map<string, StoredSession>, s: Session)
    requires TableOk(rows) && s.id in rows && SameIdentity(rows[s.id].session, s) && SessionInv(s)
    ensures TableOk(Replace(rows, s.id, s))
  {
    ReplaceKeepsKeys(rows, s);
  }

  class SessionTable {
    var rows: map<string, StoredSession>

    ghost predicate Valid() reads this { TableOk(rows) }

    constructor ()
      ensures Valid() && rows == map[]
    {
      rows := map[];
    }

    /** Create: replay the stored session when its key was used before in the workspace for the same
        request, and refuse when for another; else insert, unless a referenced profile or hotword
        set is not valid, another unique index refuses, or a column check fails, which for a new
        session is that of the language alone. */
    method Create(session: Session, requestHash: string, referencesValid: bool) returns (r: CreateOutcome)
      requires Valid() && SessionInv(session) && CanonicalSha256(requestHash)
      modifies this
      ensures Valid()
      ensures forall id :: id in old(rows) && Occupies(old(rows)[id], session.workspaceId, session.idempotencyKey) ==>
                && rows == old(rows)
                && r == if rows[id].requestHash == requestHash then Replayed(rows[id].session) else IdempotencyConflict
      ensures (forall id :: id in old(rows) ==>
               !Occupies(old(rows)[id], session.workspaceId, session.idempotencyKey)) ==>
                if !referencesValid then r == InvalidReferences && rows == old(rows)
                else if Collides(old(rows), session) then r == IdempotencyConflict && rows == old(rows)
                else if !SchemaAccepts(ToRow(session, requestHash)) then r == InsertFailed && rows == old(rows)
                else r == Created(session) && rows == old(rows)[session.id := StoredSession(session, requestHash)]
    {
      var existing := FindByKey(session.workspaceId, session.idempotencyKey);
      if existing.Some? {
        if rows[existing.value].requestHash != requestHash { return IdempotencyConflict; }
        return Replayed(rows[existing.value].session);
      }
      if !referencesValid { return InvalidReferences; }
      var taken := FindByClient(session.workspaceId, session.clientSessionId);
      if session.id in rows || taken.Some? { return IdempotencyConflict; }
      SchemaAcceptsIffLanguagesFit(session, requestHash);
      if !LanguageColumnsFit(session) { return InsertFailed; }
      rows := rows[session.id := StoredSession(session, requestHash)];
      return Created(session);
    }

    method FindByKey(workspaceId: string, key: string) returns (r: Option<string>)
      requires Valid()
      ensures r.Some? ==> r.value in rows && Occupies(rows[r.value], workspaceId, key)
                          && forall id :: id in rows && Occupies(rows[id], workspaceId, key) ==> id == r.value
      ensures r.None? ==> forall id :: id in rows ==> !Occupies(rows[id], workspaceId, key)
    {
      var todo := rows.Keys;
      while todo != {}
        invariant todo <= rows.Keys && forall id :: id in rows && id !in todo ==> !Occupies(rows[id], workspaceId, key)
      {
        var id :| id in todo;
        if rows[id].session.workspaceId == workspaceId && rows[id].session.idempotencyKey == key {
          return Some(id);
        }
        todo := todo - {id};
      }
      return None;
    }

    method FindByClient(workspaceId: string, clientSessionId: string) returns (r: Option<string>)
      ensures r.Some? ==>
              r.value in rows && rows[r.value].session.workspaceId == workspaceId
              && rows[r.value].session.clientSessionId == clientSessionId
      ensures r.None? ==> forall id :: id in rows ==>
              rows[id].session.workspaceId != workspaceId || rows[id].session.clientSessionId != clientSessionId
    {
      var todo := rows.Keys;
      while todo != {}
        invariant todo <= rows.Keys
        invariant forall id :: id in rows && id !in todo ==>
                    rows[id].session.workspaceId != workspaceId || rows[id].session.clientSessionId != clientSessionId
      {
        var id :| id in todo;
        if rows[id].session.workspaceId == workspaceId && rows[id].session.clientSessionId == clientSessionId {
          return Some(id);
        }
        todo := todo - {id};
      }
      return None;
    }

    method Get(id: string) returns (r: Result<Session, Error>)
      ensures r == if id in rows then Ok(rows[id].session) else Err(NotFound)
    {
      if id !in rows { return Err(NotFound); }
      return Ok(rows[id].session);
    }

    /** Update writes the row if the stored version is the expected one and the new version the next;
        the database sets the time of the update. */
    method Update(expectedVersion: int, session: Session, clock: Time) returns (r: Result<Session, Error>)
      modifies this
      ensures if && session.version == expectedVersion + 1 && session.id in old(rows)
                 && old(rows)[session.id].session.workspaceId == session.workspaceId
                 && old(rows)[session.id].session.version == expectedVersion
              then r == Ok(Stamped(session, clock)) && rows == Replace(old(rows), session.id, Stamped(session, clock))
              else r == Err(VersionConflict) && rows == old(rows)
    {
      if session.version != expectedVersion + 1 { return Err(VersionConflict); }
      if session.id !in rows { return Err(VersionConflict); }
      var stored := rows[session.id].session;
      if stored.workspaceId != session.workspaceId || stored.version != expectedVersion { return Err(VersionConflict); }
      var updated := Stamped(session, clock);
      rows := Replace(rows, session.id, updated);
      return Ok(updated);
    }

    /** Other callers change the row meanwhile. */
    method Interfere(id: string, row: Session)
      requires id in rows
      modifies this
      ensures rows == Replace(old(rows), id, row)
    {
      rows := Replace(rows, id, row);
    }
  }

  function Replace(rows: map<string, StoredSession>, id: string, s: Session): map<string, StoredSession>
    requires id in rows
  {
    rows[id := StoredSession(s, rows[id].requestHash)]
  }

  /** The columns Update never writes. */
  predicate SameIdentity(a: Session, b: Session) {
    && a.id == b.id && a.workspaceId == b.workspaceId && a.createdBy == b.createdBy
       && a.idempotencyKey == b.idempotencyKey
    && a.clientSessionId == b.clientSessionId && a.startedAt == b.startedAt && a.expiresAt == b.expiresAt
  }

  lemma TransitionKeepsIdentity(s: Session, t: Transition)
    ensures SameIdentity(s, After(s, t))
  {}

  /** The row may have moved on, but an unchanged version means an unchanged row, and it is still
      the row of the same session. */
  predicate Evolves(before: Session, after: Session) {
    && before.version <= after.version && (before.version == after.version ==> before == after)
    && SameIdentity(before, after)
  }

  /** What other callers save: transitions, each stamped by the database. */
  datatype Saved = Saved(transition: Transition, clock: Time)

  function SavedBy(s: Session, saves: seq<Saved>): Session
    decreases |saves|
  {
    if saves == [] then s
    else
      var before := SavedBy(s, saves[..|saves| - 1]);
      var last := saves[|saves| - 1];
      var after := After(before, last.transition);
      if after == before then before else Stamped(after, last.clock)
  }

  /** Whatever sequence of transitions the other callers save, the row evolves. */
  lemma {:induction false} SavesEvolve(s: Session, saves: seq<Saved>)
    ensures Evolves(s, SavedBy(s, saves))
    decreases |saves|
  {
    if saves != [] {
      var front, last := saves[..|saves| - 1], saves[|saves| - 1];
      SavesEvolve(s, front);
      ChangeBumpsVersion(SavedBy(s, front), last.transition);
      TransitionKeepsIdentity(SavedBy(s, front), last.transition);
    }
  }

  datatype AudioOutcome = Outcome(session: Session, disposition: Disposition)

  /** The row round k reads: the one the others left behind in the round before. */
  function Found(start: Session, during: seq<Session>, k: nat): Session
    requires k <= |during|
  {
    if k == 0 then start else during[k - 1]
  }

  /** during[k] is the row at the moment round k saves. */
  ghost predicate Schedule(start: Session, during: seq<Session>) {
    forall k :: 0 <= k < |during| ==> Evolves(Found(start, during, k), during[k])
  }

  /** Every schedule in which the others save transitions between the rounds is one: the rows in
      between evolve from one another. */
  lemma {:induction false} SavesMakeSchedule(start: Session, saves: seq<seq<Saved>>, during: seq<Session>)
    requires |during| == |saves| && forall k :: 0 <= k < |during| ==>
             during[k] == SavedBy(Found(start, during, k), saves[k])
    ensures Schedule(start, during)
  {
    forall k | 0 <= k < |during|
      ensures Evolves(Found(start, during, k), during[k])
    {
      SavesEvolve(Found(start, during, k), saves[k]);
    }
  }

  /** What AcceptAudio reports when it stops in round k (3 when every round was lost), and the
      row it leaves behind. */
  ghost predicate StopsAt(start: Session, e: AudioEvent, now: seq<Time>, clock: seq<Time>, during: seq<Session>, k: nat,
                          r: Result<AudioOutcome, Error>, row: Session)
    requires |now| == |clock| == |during| == 3 && k <= 3
  {
    var found := Found(start, during, k);
    // every earlier round was lost to a change somebody else saved meanwhile
    && (forall j :: 0 <= j < k ==> during[j] != Found(start, during, j))
    && if k == 3 then r == Err(VersionConflict) && row == found
       else match ApplyAudio(found, e, now[k])
         case Err(error) => r == Err(error) && row == found
         case Ok((_, Duplicate)) => r == Ok(Outcome(found, Duplicate)) && row == found
         case Ok((updated, Accepted)) =>
           // nobody changed the row during the round, so the save is on top of exactly what was read
           r == Ok(Outcome(row, Accepted)) && row == Stamped(updated, clock[k]) && during[k] == found
  }

  datatype Round = Stop(result: Result<AudioOutcome, Error>) | Lost

  /** One round: read, apply, save against the version read. */
  ghost predicate RoundOutcome(found: Session, e: AudioEvent, now: Time, clock: Time, during: Session, r: Round,
                               row: Session) {
    match ApplyAudio(found, e, now)
    case Err(error) => r == Stop(Err(error)) && row == found
    case Ok((_, Duplicate)) => r == Stop(Ok(Outcome(found, Duplicate))) && row == found
    case Ok((updated, Accepted)) =>
      if during == found then r == Stop(Ok(Outcome(row, Accepted))) && row == Stamped(updated, clock)
      else r == Lost && row == during
  }

  lemma AcceptedNextVersion(s: Session, e: AudioEvent, now: Time)
    requires ApplyAudio(s, e, now).Ok? && ApplyAudio(s, e, now).value.1.Accepted?
    ensures var u := ApplyAudio(s, e, now).value.0;
            u.version == s.version + 1 && u.id == s.id == e.sessionId
            && SameIdentity(s, u)
    ensures ApplyAudio(s, e, now) == Ok((ApplyAudio(s, e, now).value.0, Accepted))
  {}

  lemma DuplicateKeepsRow(s: Session, e: AudioEvent, now: Time)
    requires ApplyAudio(s, e, now).Ok? && ApplyAudio(s, e, now).value.1.Duplicate?
    ensures ApplyAudio(s, e, now) == Ok((s, Duplicate))
  {}

  method TryRound(table: SessionTable, e: AudioEvent, now: Time, clock: Time, during: Session) returns (r: Round)
    requires e.sessionId in table.rows && Evolves(table.rows[e.sessionId].session, during)
    requires SameIdentity(table.rows[e.sessionId].session, during)
    modifies table
    ensures e.sessionId in table.rows
    ensures table.rows == Replace(old(table.rows), e.sessionId, table.rows[e.sessionId].session)
    ensures RoundOutcome(old(table.rows)[e.sessionId].session, e, now, clock, during, r,
                         table.rows[e.sessionId].session)
  {
    var read := table.Get(e.sessionId);
    var current := read.value;
    var applied := ApplyAudio(current, e, now);
    if applied.Err? { return Stop(Err(applied.error)); }
    var (updated, disposition) := applied.value;
    if disposition.Duplicate? {
      DuplicateKeepsRow(current, e, now);
      return Stop(Ok(Outcome(current, Duplicate)));
    }
    AcceptedNextVersion(current, e, now);
    table.Interfere(e.sessionId, during);
    var saved := table.Update(current.version, updated, clock);
    if saved.Ok? { return Stop(Ok(Outcome(saved.value, Accepted))); }
    return Lost;
  }

  /** AcceptAudio: at most three rounds; now[k] is the server's clock in round k, clock[k] the database's. */
  method AcceptAudio(table: SessionTable, e: AudioEvent, now: seq<Time>, clock: seq<Time>, during: seq<Session>)
    returns (r: Result<AudioOutcome, Error>, ghost round: nat)
    requires |now| == |clock| == |during| == 3
    requires e.sessionId in table.rows ==> Schedule(table.rows[e.sessionId].session, during)
    modifies table
    ensures e.sessionId !in old(table.rows) ==> r == Err(NotFound) && table.rows == old(table.rows)
    ensures e.sessionId in old(table.rows) ==>
              && e.sessionId in table.rows
              && table.rows == Replace(old(table.rows), e.sessionId, table.rows[e.sessionId].session)
              && round <= 3
              && StopsAt(old(table.rows)[e.sessionId].session, e, now, clock, during, round, r,
                         table.rows[e.sessionId].session)
  {
    round := 0;
    if e.sessionId !in table.rows { return Err(NotFound), 0; }
    ghost var start := table.rows[e.sessionId].session;
    for attempt := 0 to 3
      invariant round == attempt
      invariant e.sessionId in table.rows
      invariant table.rows == Replace(old(table.rows), e.sessionId, Found(start, during, attempt))
      invariant forall j :: 0 <= j < attempt ==> during[j] != Found(start, during, j)
    {
      var outcome := TryRound(table, e, now[attempt], clock[attempt], during[attempt]);
      if outcome.Stop? { return outcome.result, attempt; }
      round := attempt + 1;
    }
    return Err(VersionConflict), 3;
  }

  /** So whatever AcceptAudio does to a table whose other writers keep it valid, it stays valid. */
  lemma AcceptAudioKeepsTable(rows: map<string, StoredSession>, e: AudioEvent, now: seq<Time>, clock: seq<Time>,
                              during: seq<Session>, k: nat,
                              r: Result<AudioOutcome, Error>, row: Session)
    requires TableOk(rows) && e.sessionId in rows && |now| == |clock| == |during| == 3 && k <= 3
    requires forall i :: 0 <= i < 3 ==> SessionInv(during[i]) && SameIdentity(rows[e.sessionId].session, during[i])
    requires StopsAt(rows[e.sessionId].session, e, now, clock, during, k, r, row)
    ensures TableOk(Replace(rows, e.sessionId, row))
  {
    var found := Found(rows[e.sessionId].session, during, k);
    if k < 3 && ApplyAudio(found, e, now[k]).Ok? && ApplyAudio(found, e, now[k]).value.1.Accepted? {
      AudioKeepsInv(found, e, now[k]);
      AcceptedNextVersion(found, e, now[k]);
      StampKeepsInv(ApplyAudio(found, e, now[k]).value.0, clock[k], []);
    } else if k < 3 && ApplyAudio(found, e, now[k]).Ok? {
      DuplicateKeepsRow(found, e, now[k]);
    }
    ReplaceKeepsTable(rows, row);
  }

  // ---------------------------------------------------------------------------
  // Every interleaving of callers
  // ---------------------------------------------------------------------------

  datatype Phase =
    | Reading
    | Saving(snapshot: Session, updated: Session)
    | ReportedAccepted(sequence: int)
    | ReportedDuplicate(sequence: int)
    | ReportedGap(sequence: int)
    | ReportedOther

  /** A call in progress: an AcceptAudio call has three attempts, any other transition has one. */
  datatype Caller = Caller(transition: Transition, attempt: nat, phase: Phase)

  function AttemptLimit(t: Transition): nat { if t.Audio? then 3 else 1 }

  /** The row, the frames saved so far with the caller that saved each, and all calls. */
  datatype System = System(
    row: Session, saves: nat, frames: seq<AudioEvent>, savers: seq<nat>, callers: map<nat, Caller>)

  datatype Event = Begin(caller: nat, transition: Transition) | Read(caller: nat, now: Time)
      | Save(caller: nat, clock: Time)

  predicate Enabled(y: System, ev: Event) {
    match ev
    case Begin(c, _) => c !in y.callers
    case Read(c, _) => c in y.callers && y.callers[c].phase.Reading?
    case Save(c, _) => c in y.callers && y.callers[c].phase.Saving?
  }

  /** The transition with the clock read for this attempt. */
  function At(t: Transition, now: Time): Transition {
    match t
    case Audio(e, _) => Audio(e, now)
    case Interruption(_, w) => Interruption(now, w)
    case Resumption(e, _) => Resumption(e, now)
    case Finalization(e, _) => Finalization(e, now)
    case Completion(r, _) => Completion(r, now)
    case Failure(code) => t
    case Expiry(_) => Expiry(now)
  }

  /** What a call does once it has read the row: save the outcome, or report why there is none. */
  function AfterRead(row: Session, t: Transition, now: Time): Phase {
    if t.Audio? then
      match ApplyAudio(row, t.audio, now)
      case Ok((updated, Accepted)) => Saving(row, updated)
      case Ok((_, Duplicate)) => ReportedDuplicate(t.audio.sequence)
      case Err(error) => if error.SequenceGap? then ReportedGap(t.audio.sequence) else ReportedOther
    else
      match Apply(row, At(t, now))
      case Ok(updated) => Saving(row, updated)
      case Err(_) => ReportedOther
  }

  function Step(y: System, ev: Event): System
    requires Enabled(y, ev)
  {
    match ev
    case Begin(c, t) => y.(callers := y.callers[c := Caller(t, 0, Reading)])
    case Read(c, now) =>
      var call := y.callers[c];
      y.(callers := y.callers[c := call.(phase := AfterRead(y.row, call.transition, now))])
    case Save(c, clock) =>
      var call := y.callers[c];
      var updated := Stamped(call.phase.updated, clock);
      if updated.version == call.phase.snapshot.version + 1 && y.row.version == call.phase.snapshot.version then
        if call.transition.Audio? then
          System(updated, y.saves + 1, y.frames + [call.transition.audio], y.savers + [c],
                 y.callers[c := call.(phase := ReportedAccepted(call.transition.audio.sequence))])
        else
          y.(row := updated, saves := y.saves + 1, callers := y.callers[c := call.(phase := ReportedOther)])
      else
        var next := if call.attempt + 1 < AttemptLimit(call.transition) then Reading else ReportedOther;
        y.(callers := y.callers[c := call.(attempt := call.attempt + 1, phase := next)])
  }

  /** A pending save was computed from a row of this session, and from the present one if the
      version has not moved since. */
  ghost predicate SnapshotOk(y: System, call: Caller) {
    call.phase.Saving? ==>
      var s, u := call.phase.snapshot, call.phase.updated;
      && s.version <= y.row.version
      && (s.version == y.row.version ==> s == y.row)
      && Yields(s, call.transition, u)
  }

  /** u is what the transition makes of s at some time, and differs from it. */
  ghost predicate Yields(s: Session, t: Transition, u: Session) {
    u != s && exists now :: Apply(s, At(t, now)) == Ok(u)
  }

  lemma YieldedAudio(s: Session, frames: seq<AudioEvent>, t: Transition, u: Session)
    requires SessionInv(s) && Counts(s, frames) && t.Audio? && Yields(s, t, u)
    ensures SessionInv(u) && u.version == s.version + 1
    ensures Counts(u, frames + [t.audio]) && t.audio.sequence == |frames|
  {
    var now :| Apply(s, At(t, now)) == Ok(u);
    AppliedAudio(s, t.audio, now, u);
    AudioKeepsInv(s, t.audio, now);
    AcceptedFrameExtends(s, frames, t.audio, now);
  }

  lemma CountsDependOnCounters(s: Session, frames: seq<AudioEvent>, u: Session)
    requires Counts(s, frames)
    requires u.nextSequence == s.nextSequence && u.receivedBytes == s.receivedBytes
             && u.lastCapturedAtMs == s.lastCapturedAtMs
    requires MaximumFrameBytes(u) == MaximumFrameBytes(s)
    ensures Counts(u, frames)
  {}

  lemma YieldedOther(s: Session, frames: seq<AudioEvent>, t: Transition, u: Session)
    requires SessionInv(s) && Counts(s, frames) && !t.Audio? && Yields(s, t, u)
    ensures SessionInv(u) && u.version == s.version + 1 && Counts(u, frames)
  {
    var now :| Apply(s, At(t, now)) == Ok(u);
    StepKeepsInv(s, At(t, now));
    ChangeBumpsVersion(s, At(t, now));
    OtherStepsKeepFrames(s, At(t, now));
    CountsDependOnCounters(s, frames, u);
  }

  ghost predicate SystemInv(y: System) {
    && SessionInv(y.row)
    && y.row.version == 1 + y.saves
    && Counts(y.row, y.frames)
    && ReportsOk(y)
    && (forall c :: c in y.callers ==> SnapshotOk(y, y.callers[c]))
  }

  /** Frame i was saved by exactly the call that reports number i as accepted. */
  ghost predicate ReportsOk(y: System) {
    && |y.savers| == |y.frames|
    && (forall i :: 0 <= i < |y.savers| ==>
          && y.savers[i] in y.callers
          && y.callers[y.savers[i]].transition.Audio?
          && y.callers[y.savers[i]].transition.audio == y.frames[i]
          && y.callers[y.savers[i]].phase == ReportedAccepted(i))
    && (forall c :: c in y.callers && y.callers[c].phase.ReportedAccepted? ==>
          var n := y.callers[c].phase.sequence;
          0 <= n < |y.savers| && y.savers[n] == c)
    && (forall c :: c in y.callers && y.callers[c].phase.ReportedDuplicate? ==>
          0 <= y.callers[c].phase.sequence < |y.savers|)
  }

  lemma AppliedAudio(s: Session, e: AudioEvent, now: Time, updated: Session)
    requires Apply(s, Audio(e, now)) == Ok(updated) && updated != s
    ensures ApplyAudio(s, e, now) == Ok((updated, Accepted)) && e.sequence == s.nextSequence
  {}

  /** A call reports a duplicate only of a number that is counted, a gap only of one that is not. */
  lemma ReportsAreTrue(row: Session, t: Transition, now: Time)
    ensures var phase := AfterRead(row, t, now);
            && (phase.ReportedDuplicate? ==> t.Audio? && phase.sequence == t.audio.sequence
                                             && 0 <= phase.sequence < row.nextSequence)
            && (phase.ReportedGap? ==> t.Audio? && phase.sequence == t.audio.sequence > row.nextSequence)
            && !phase.ReportedAccepted?
  {}

  lemma BeginOrReadReports(y: System, ev: Event)
    requires SessionInv(y.row) && |y.frames| == y.row.nextSequence && ReportsOk(y) && Enabled(y, ev) && !ev.Save?
    ensures ReportsOk(Step(y, ev))
  {
    if ev.Read? {
      ReportsAreTrue(y.row, y.callers[ev.caller].transition, ev.now);
    }
  }

  lemma ReadSnapshots(y: System, c: nat, now: Time)
    requires Enabled(y, Read(c, now))
    ensures SnapshotOk(y, Step(y, Read(c, now)).callers[c])
  {}

  lemma BeginOrReadKeepsInv(y: System, ev: Event)
    requires SystemInv(y) && Enabled(y, ev) && !ev.Save?
    ensures SystemInv(Step(y, ev))
  {
    var next := Step(y, ev);
    BeginOrReadReports(y, ev);
    forall c | c in next.callers
      ensures SnapshotOk(next, next.callers[c])
    {
      if ev.Read? && c == ev.caller {
        ReadSnapshots(y, c, ev.now);
      } else if c != ev.caller {
        assert SnapshotOk(y, y.callers[c]);
      }
    }
  }

  /** A save that succeeds moves the version past every other pending snapshot. */
  lemma SnapshotsSurviveSave(y: System, ev: Event)
    requires SystemInv(y) && Enabled(y, ev) && ev.Save?
    requires Step(y, ev).row.version == y.row.version + 1
    ensures forall c :: c in Step(y, ev).callers ==> SnapshotOk(Step(y, ev), Step(y, ev).callers[c])
  {
    var next := Step(y, ev);
    forall c | c in next.callers
      ensures SnapshotOk(next, next.callers[c])
    {
      assert c in y.callers && SnapshotOk(y, y.callers[c]);
    }
  }

  predicate Saves(y: System, ev: Event) {
    Enabled(y, ev) && ev.Save? &&
    var phase := y.callers[ev.caller].phase;
    phase.updated.version == phase.snapshot.version + 1 && y.row.version == phase.snapshot.version
  }

  lemma AudioSaveReports(y: System, ev: Event)
    requires ReportsOk(y) && Saves(y, ev) && y.callers[ev.caller].transition.Audio?
    requires y.callers[ev.caller].transition.audio.sequence == |y.frames|
    ensures ReportsOk(Step(y, ev))
  {}

  lemma AudioSaveKeepsInv(y: System, ev: Event)
    requires SystemInv(y) && Saves(y, ev) && y.callers[ev.caller].transition.Audio?
    ensures SystemInv(Step(y, ev))
  {
    var call := y.callers[ev.caller];
    assert SnapshotOk(y, call);
    YieldedAudio(y.row, y.frames, call.transition, call.phase.updated);
    StampKeepsInv(call.phase.updated, ev.clock, y.frames + [call.transition.audio]);
    SnapshotsSurviveSave(y, ev);
    AudioSaveReports(y, ev);
  }

  lemma OtherSaveKeepsInv(y: System, ev: Event)
    requires SystemInv(y) && Saves(y, ev) && !y.callers[ev.caller].transition.Audio?
    ensures SystemInv(Step(y, ev))
  {
    var call := y.callers[ev.caller];
    assert SnapshotOk(y, call);
    YieldedOther(y.row, y.frames, call.transition, call.phase.updated);
    StampKeepsInv(call.phase.updated, ev.clock, y.frames);
    SnapshotsSurviveSave(y, ev);
  }

  lemma LostSaveKeepsInv(y: System, ev: Event)
    requires SystemInv(y) && Enabled(y, ev) && ev.Save? && !Saves(y, ev)
    ensures SystemInv(Step(y, ev))
  {
    var next := Step(y, ev);
    forall c | c in next.callers
      ensures SnapshotOk(next, next.callers[c])
    {
      assert SnapshotOk(y, y.callers[c]);
    }
  }

  lemma SaveKeepsInv(y: System, ev: Event)
    requires SystemInv(y) && Enabled(y, ev) && ev.Save?
    ensures SystemInv(Step(y, ev))
  {
    if !Saves(y, ev) {
      LostSaveKeepsInv(y, ev);
    } else if y.callers[ev.caller].transition.Audio? {
      AudioSaveKeepsInv(y, ev);
    } else {
      OtherSaveKeepsInv(y, ev);
    }
  }

  ghost predicate IsExecution(ys: seq<System>, evs: seq<Event>) {
    && |ys| == |evs| + 1
    && (forall i :: 0 <= i < |evs| ==> Enabled(ys[i], evs[i]) && ys[i + 1] == Step(ys[i], evs[i]))
  }

  /** Where a session starts: just created, nobody calling. */
  ghost predicate Initial(y: System) {
    && SessionInv(y.row) && y.row.version == 1 && y.row.nextSequence == 0 && y.row.receivedBytes == 0
    && y.saves == 0 && y.frames == [] && y.savers == [] && y.callers == map[]
  }

  lemma {:induction false} ExecutionKeepsInv(ys: seq<System>, evs: seq<Event>, n: nat)
    requires IsExecution(ys, evs) && Initial(ys[0]) && n < |ys|
    ensures SystemInv(ys[n])
    decreases n
  {
    if n > 0 {
      ExecutionKeepsInv(ys, evs, n - 1);
      if evs[n - 1].Save? {
        SaveKeepsInv(ys[n - 1], evs[n - 1]);
      } else {
        BeginOrReadKeepsInv(ys[n - 1], evs[n - 1]);
      }
    }
  }

  /** Callers that report sequence number k as accepted. */
  ghost function Reporters(y: System, k: int): set<nat> {
    set c | c in y.callers && y.callers[c].phase == ReportedAccepted(k)
  }

  /** Under every interleaving of concurrent AcceptAudio calls and other transitions: each number
      below NextSequence is reported accepted by exactly one call and no other number by any; the
      row holds that call's frames in order; Version is one plus the number of saved updates; and
      ReceivedBytes is the byte sum of the accepted frames. */
  lemma ExactlyOneCallAcceptsEachFrame(ys: seq<System>, evs: seq<Event>, n: nat)
    requires IsExecution(ys, evs) && Initial(ys[0]) && n < |ys|
    ensures var y := ys[n];
            && |y.savers| == |y.frames| == y.row.nextSequence
            && (forall k :: 0 <= k < y.row.nextSequence ==>
                  && Reporters(y, k) == {y.savers[k]}
                  && y.callers[y.savers[k]].transition.Audio?
                  && y.callers[y.savers[k]].transition.audio == y.frames[k])
            && (forall k :: k < 0 || k >= y.row.nextSequence ==> Reporters(y, k) == {})
            && InOrder(y.frames)
            && y.row.receivedBytes == ByteSum(y.frames)
            && y.row.version == 1 + y.saves
  {
    ExecutionKeepsInv(ys, evs, n);
    var y := ys[n];
    forall k | 0 <= k < y.row.nextSequence
      ensures Reporters(y, k) == {y.savers[k]}
    {
      assert y.callers[y.savers[k]].phase == ReportedAccepted(k);
    }
  }

  /** A frame is reported as a duplicate only when exactly one other call reports it as accepted: what
      the client is told is stored, is stored. */
  lemma DuplicatesWereAccepted(ys: seq<System>, evs: seq<Event>, n: nat, c: nat)
    requires IsExecution(ys, evs) && Initial(ys[0]) && n < |ys|
    requires c in ys[n].callers && ys[n].callers[c].phase.ReportedDuplicate?
    ensures var y, k := ys[n], ys[n].callers[c].phase.sequence;
            0 <= k < |y.savers| && Reporters(y, k) == {y.savers[k]} && y.savers[k] != c
  {
    ExecutionKeepsInv(ys, evs, n);
    ExactlyOneCallAcceptsEachFrame(ys, evs, n);
    var k := ys[n].callers[c].phase.sequence;
    assert 0 <= k < |ys[n].savers|;
    assert ys[n].callers[ys[n].savers[k]].phase == ReportedAccepted(k);
  }

  /** And as a gap only when no call has reported it as accepted, nor the number before it. */
  lemma GapsWereMissing(ys: seq<System>, evs: seq<Event>, n: nat)
    requires IsExecution(ys, evs) && Initial(ys[0]) && n < |evs| && evs[n].Read?
    requires ys[n + 1].callers[evs[n].caller].phase.ReportedGap?
    ensures var y, k := ys[n], ys[n + 1].callers[evs[n].caller].phase.sequence;
            k > y.row.nextSequence && Reporters(y, k) == {} && Reporters(y, k - 1) == {}
  {
    ExecutionKeepsInv(ys, evs, n);
    ExactlyOneCallAcceptsEachFrame(ys, evs, n);
    ReportsAreTrue(ys[n].row, ys[n].callers[evs[n].caller].transition, evs[n].now);
  }

  /** A frame that is ahead of the count is answered so, and one that is behind it as a duplicate, by
      every call that reads the row in time. */
  lemma ReadersAnswerAll(row: Session, e: AudioEvent, now: Time)
    requires row.state.Streaming? && ValidAudio(e) && e.sessionId == row.id && now != ZERO_TIME && now < row.expiresAt
    ensures AfterRead(row, Audio(e, now), now).ReportedDuplicate? <==> e.sequence < row.nextSequence
    ensures AfterRead(row, Audio(e, now), now).ReportedGap? <==> e.sequence > row.nextSequence
  {}
}
