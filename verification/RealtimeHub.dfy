/** The in-process hub of provider streams, internal/realtime/stream_hub.go: the operations on one
    managed stream, the hub and lease objects, and every run of the hub under arbitrary clients. */
module RealtimeHub {
  import opened Common
  import opened RealtimeSession
  import opened RealtimeProvider

  datatype HubError = Attached | Unavailable | Stale | Provider(error: StreamError)

  /** One managed stream. `ended` is lifetimeCtx.Err() != nil: the lifetime ran out or was canceled. */
  datatype Entry = Entry(
    expiresAt: Time, reconnectBy: Time, lease: nat, attached: bool, closed: bool, ended: bool, stream: Provider)

  function FreshEntry(expiresAt: Time, stream: Provider): Entry {
    Entry(expiresAt, ZERO_TIME, 1, true, false, false, stream)
  }

  /** Whether the holder of lease number `lease` may push, detach or finish. */
  predicate Usable(e: Entry, lease: nat) { !e.closed && e.attached && e.lease == lease }

  function ResumeEntry(e: Entry, now: Time): Result<Entry, HubError> {
    if e.closed || e.ended || now >= e.expiresAt || (e.reconnectBy != ZERO_TIME && now > e.reconnectBy)
        then Err(Unavailable)
    else if e.attached then Err(Attached)
    else Ok(e.(lease := e.lease + 1, attached := true, reconnectBy := ZERO_TIME))
  }

  function PushEntry(e: Entry, lease: nat, f: AudioEvent, canceled: bool): Result<(Entry, Option<Update>), HubError>
    requires WellFormed(e.stream)
  {
    if !Usable(e, lease) then Err(Stale)
    else if e.ended then Err(Unavailable)
    else match Push(e.stream, f, canceled)
      case Err(error) => Err(HubError.Provider(error))
      case Ok(p) => Ok((e.(stream := p.0), p.1))
  }

  function DetachEntry(e: Entry, lease: nat, reconnectBy: Time): Result<Entry, HubError> {
    if reconnectBy == ZERO_TIME || !Usable(e, lease) then Err(Stale)
    else Ok(e.(attached := false, reconnectBy := Min(reconnectBy, e.expiresAt)))
  }

  /** Finish closes the stream whether or not the provider accepts it. */
  function FinishEntry(e: Entry, lease: nat, canceled: bool): Result<(Entry, Option<StreamError>), HubError> {
    if !Usable(e, lease) then Err(Stale)
    else
      var finished := Finish(e.stream, canceled);
      Ok((e.(closed := true, ended := true, stream := Close(finished.0)), finished.1))
  }

  function CloseEntry(e: Entry, lease: nat): Result<Entry, HubError> {
    if e.closed || e.lease != lease then Err(Stale)
    else Ok(e.(closed := true, ended := true, stream := Close(e.stream)))
  }

  predicate Overdue(e: Entry, now: Time) {
    now >= e.expiresAt || (!e.attached && e.reconnectBy != ZERO_TIME && now > e.reconnectBy)
  }

  function ReapEntry(e: Entry, now: Time): Entry {
    if !e.closed && Overdue(e, now) then e.(closed := true, ended := true, stream := Close(e.stream)) else e
  }

  /** A detached stream can be resumed up to its deadline and before its expiry, and Reap closes it
      exactly from the moment on at which it no longer can (unless its lifetime was ended). */
  lemma ReapAgreesWithResume(e: Entry, lease: nat, deadline: Time, now: Time)
    requires DetachEntry(e, lease, deadline).Ok?
    ensures var f := DetachEntry(e, lease, deadline).value;
            && (ResumeEntry(f, now).Ok? <==> !f.ended && now < e.expiresAt && now <= deadline)
            && (ReapEntry(f, now).closed <==> !(now < e.expiresAt && now <= deadline))
            && (ResumeEntry(f, now).Ok? ==>
                Usable(ResumeEntry(f, now).value, lease + 1) && !Usable(ResumeEntry(f, now).value, lease))
  {}

  // ---------------------------------------------------------------------------
  // Every run of the hub
  // ---------------------------------------------------------------------------

  /** A StreamLease: the entry it points to and its number. */
  datatype Handle = Handle(entry: nat, lease: nat)

  /** entries holds every stream ever opened, in opening order; streams is the hub's map; issued is
      history: every lease ever handed out, in order. */
  datatype Hub = Hub(streams: map<string, nat>, entries: seq<Entry>, issued: seq<Handle>)

  datatype HubOp =
    | Publish(sessionId: string, expiresAt: Time, stream: Provider)
    | Resume(entry: nat, now: Time)
    | PushFrame(handle: Handle, frame: AudioEvent, canceled: bool)
    | Detach(handle: Handle, reconnectBy: Time)
    | FinishStream(handle: Handle, canceled: bool)
    | CloseStream(handle: Handle)
    | Reap(entry: nat, now: Time)
    | Remove(sessionId: string, entry: nat)
    | LifetimeEnds(entry: nat)

  predicate FreshStream(p: Provider) {
    WellFormed(p) && !p.closed && !p.finished && p.finishes == 0 && p.closes == 0
  }

  /** Operations a client of the hub can perform: leases it was given, entries that exist, streams
      just opened, and removal only of entries already closed, as each caller of remove does. */
  predicate Possible(h: Hub, op: HubOp) {
    match op
    case Publish(_, _, p) => FreshStream(p)
    case Resume(i, _) => i < |h.entries|
    case PushFrame(l, _, _) => l in h.issued
    case Detach(l, _) => l in h.issued
    case FinishStream(l, _) => l in h.issued
    case CloseStream(l) => l in h.issued
    case Reap(i, _) => i < |h.entries|
    case Remove(_, i) => i < |h.entries| && h.entries[i].closed
    case LifetimeEnds(i) => i < |h.entries|
  }

  ghost predicate EntryInv(e: Entry) {
    && WellFormed(e.stream)
    && e.stream.closed == e.closed
    && (e.stream.finished ==> e.closed)
    && e.stream.closes == (if e.closed then 1 else 0)
    && e.stream.finishes <= e.stream.closes
    && (e.closed ==> e.ended) && (e.attached ==> e.reconnectBy == ZERO_TIME)
  }

  ghost predicate HubInv(h: Hub) {
    && (forall i :: 0 <= i < |h.entries| ==> EntryInv(h.entries[i]))
    && (forall l :: l in h.issued ==> l.entry < |h.entries| && l.lease <= h.entries[l.entry].lease)
    && (forall i, j :: 0 <= i < j < |h.issued| ==> h.issued[i] != h.issued[j])
    && (forall id :: id in h.streams ==> h.streams[id] < |h.entries|)
    && (forall i :: 0 <= i < |h.entries| && !h.entries[i].closed ==> i in h.streams.Values)
  }

  function HubStep(h: Hub, op: HubOp): Hub
    requires HubInv(h) && Possible(h, op)
  {
    match op
    case Publish(id, expiresAt, p) =>
      if id in h.streams
      then h.(entries := h.entries + [CloseEntry(FreshEntry(expiresAt, p), 1).value])
      else Hub(h.streams[id := |h.entries|], h.entries + [FreshEntry(expiresAt, p)],
               h.issued + [Handle(|h.entries|, 1)])
    case Resume(i, now) =>
      (match ResumeEntry(h.entries[i], now)
       case Ok(e) => h.(entries := h.entries[i := e], issued := h.issued + [Handle(i, e.lease)])
       case Err(_) => h)
    case PushFrame(l, f, canceled) =>
      (match PushEntry(h.entries[l.entry], l.lease, f, canceled)
       case Ok(p) => h.(entries := h.entries[l.entry := p.0])
       case Err(_) => h)
    case Detach(l, deadline) =>
      (match DetachEntry(h.entries[l.entry], l.lease, deadline)
       case Ok(e) => h.(entries := h.entries[l.entry := e])
       case Err(_) => h)
    case FinishStream(l, canceled) =>
      (match FinishEntry(h.entries[l.entry], l.lease, canceled)
       case Ok(p) => h.(entries := h.entries[l.entry := p.0])
       case Err(_) => h)
    case CloseStream(l) =>
      (match CloseEntry(h.entries[l.entry], l.lease)
       case Ok(e) => h.(entries := h.entries[l.entry := e])
       case Err(_) => h)
    case Reap(i, now) => h.(entries := h.entries[i := ReapEntry(h.entries[i], now)])
    case Remove(id, i) => if id in h.streams && h.streams[id] == i then h.(streams := h.streams - {id}) else h
    case LifetimeEnds(i) => h.(entries := h.entries[i := h.entries[i].(ended := true)])
  }

  const EMPTY_HUB: Hub := Hub(map[], [], [])

  lemma PublishKeepsInv(h: Hub, op: HubOp)
    requires HubInv(h) && Possible(h, op) && op.Publish?
    ensures HubInv(HubStep(h, op))
  {
    var next := HubStep(h, op);
    forall i | 0 <= i < |next.entries| && !next.entries[i].closed
      ensures i in next.streams.Values
    {
      if i < |h.entries| {
        var id :| id in h.streams && h.streams[id] == i;
        assert id in next.streams && next.streams[id] == i;
      } else {
        assert next.streams[op.sessionId] == i;
      }
    }
  }

  lemma RemoveKeepsInv(h: Hub, op: HubOp)
    requires HubInv(h) && Possible(h, op) && op.Remove?
    ensures HubInv(HubStep(h, op))
  {
    var next := HubStep(h, op);
    forall i | 0 <= i < |next.entries| && !next.entries[i].closed
      ensures i in next.streams.Values
    {
      var id :| id in h.streams && h.streams[id] == i;
      assert id in next.streams && next.streams[id] == i;
    }
  }

  /** An entry may change to e: sound, not reopened, its lease number not lowered. */
  ghost predicate MayBecome(before: Entry, e: Entry) {
    EntryInv(e) && before.lease <= e.lease && (before.closed ==> e.closed)
  }

  lemma EntryUpdateKeepsInv(h: Hub, i: nat, e: Entry)
    requires HubInv(h) && i < |h.entries| && MayBecome(h.entries[i], e)
    ensures HubInv(h.(entries := h.entries[i := e]))
  {}

  lemma ResumeKeepsInv(h: Hub, i: nat, now: Time)
    requires HubInv(h) && i < |h.entries|
    ensures HubInv(HubStep(h, Resume(i, now)))
  {
    if ResumeEntry(h.entries[i], now).Ok? {
      EntryUpdateKeepsInv(h, i, ResumeEntry(h.entries[i], now).value);
    }
  }

  lemma PushMayBecome(e: Entry, lease: nat, f: AudioEvent, canceled: bool)
    requires EntryInv(e) && PushEntry(e, lease, f, canceled).Ok?
    ensures MayBecome(e, PushEntry(e, lease, f, canceled).value.0)
  {}

  lemma HubStepKeepsInv(h: Hub, op: HubOp)
    requires HubInv(h) && Possible(h, op)
    ensures HubInv(HubStep(h, op))
  {
    match op
    case Publish(_, _, _) => PublishKeepsInv(h, op);
    case Remove(_, _) => RemoveKeepsInv(h, op);
    case Resume(i, now) => ResumeKeepsInv(h, i, now);
    case PushFrame(l, f, canceled) =>
      if PushEntry(h.entries[l.entry], l.lease, f, canceled).Ok? {
        PushMayBecome(h.entries[l.entry], l.lease, f, canceled);
        EntryUpdateKeepsInv(h, l.entry, PushEntry(h.entries[l.entry], l.lease, f, canceled).value.0);
      }
    case _ => PlainOpKeepsInv(h, op);
  }

  lemma PlainOpKeepsInv(h: Hub, op: HubOp)
    requires HubInv(h) && Possible(h, op)
             && (op.Detach? || op.FinishStream? || op.CloseStream? || op.Reap? || op.LifetimeEnds?)
    ensures HubInv(HubStep(h, op))
  {
    var i := if op.Reap? || op.LifetimeEnds? then op.entry else op.handle.entry;
    var next := HubStep(h, op);
    if next.entries != h.entries {
      assert next == h.(entries := h.entries[i := next.entries[i]]);
      EntryUpdateKeepsInv(h, i, next.entries[i]);
    }
  }

  /** ops is a run of the hub from h. */
  ghost predicate IsRun(h: Hub, ops: seq<HubOp>)
    requires HubInv(h)
    decreases |ops|
  {
    ops == [] || (Possible(h, ops[0]) && (HubStepKeepsInv(h, ops[0]); IsRun(HubStep(h, ops[0]), ops[1..])))
  }

  ghost function HubRun(h: Hub, ops: seq<HubOp>): Hub
    requires HubInv(h) && IsRun(h, ops)
    decreases |ops|
  {
    if ops == [] then h else (HubStepKeepsInv(h, ops[0]); HubRun(HubStep(h, ops[0]), ops[1..]))
  }

  lemma {:induction false} HubRunKeepsInv(h: Hub, ops: seq<HubOp>)
    requires HubInv(h) && IsRun(h, ops)
    ensures HubInv(HubRun(h, ops))
    decreases |ops|
  {
    if ops != [] {
      HubStepKeepsInv(h, ops[0]);
      HubRunKeepsInv(HubStep(h, ops[0]), ops[1..]);
    }
  }

  predicate HandleUsable(h: Hub, l: Handle) {
    l.entry < |h.entries| && Usable(h.entries[l.entry], l.lease)
  }

  /** In every reachable hub at most one of all the leases ever handed out for a managed stream can
      push, detach or finish: no number is handed out twice, and only the last one is usable. */
  lemma AtMostOneUsableLease(ops: seq<HubOp>, i: nat, j: nat)
    requires IsRun(EMPTY_HUB, ops)
    requires var issued := HubRun(EMPTY_HUB, ops).issued; i < j < |issued| && issued[i].entry == issued[j].entry
    ensures var h := HubRun(EMPTY_HUB, ops);
            !HandleUsable(h, h.issued[i]) || !HandleUsable(h, h.issued[j])
  {
    HubRunKeepsInv(EMPTY_HUB, ops);
    var issued := HubRun(EMPTY_HUB, ops).issued;
    assert issued[i] != issued[j];
  }

  lemma ResumeIssuesNewNumber(ops: seq<HubOp>, i: nat, now: Time)
    requires IsRun(EMPTY_HUB, ops)
    requires i < |HubRun(EMPTY_HUB, ops).entries|
    ensures HubInv(HubRun(EMPTY_HUB, ops))
    ensures var h := HubRun(EMPTY_HUB, ops);
            ResumeEntry(h.entries[i], now).Ok? ==>
              && Handle(i, ResumeEntry(h.entries[i], now).value.lease) !in h.issued
              && (forall l :: l in h.issued && l.entry == i ==>
                  !HandleUsable(h, l) && !HandleUsable(HubStep(h, Resume(i, now)), l))
  {
    HubRunKeepsInv(EMPTY_HUB, ops);
  }

  /** A lease that is not usable now never becomes usable, whatever happens later. */
  lemma {:induction false} UnusableForever(h: Hub, ops: seq<HubOp>, l: Handle)
    requires HubInv(h) && IsRun(h, ops)
    requires l in h.issued && !HandleUsable(h, l)
    ensures l in HubRun(h, ops).issued && !HandleUsable(HubRun(h, ops), l)
    decreases |ops|
  {
    if ops != [] {
      HubStepKeepsInv(h, ops[0]);
      UnusableForever(HubStep(h, ops[0]), ops[1..], l);
    }
  }

  /** So a superseded, detached or closed lease can never push or finish again, in any continuation. */
  lemma StaleLeaseRefusedForever(h: Hub, ops: seq<HubOp>, l: Handle, f: AudioEvent, canceled: bool)
    requires HubInv(h) && IsRun(h, ops)
    requires l in h.issued && !HandleUsable(h, l)
    ensures HubInv(HubRun(h, ops))
    ensures var end := HubRun(h, ops);
            && l.entry < |end.entries|
            && PushEntry(end.entries[l.entry], l.lease, f, canceled) == Err(Stale)
            && FinishEntry(end.entries[l.entry], l.lease, canceled) == Err(Stale)
  {
    UnusableForever(h, ops, l);
    HubRunKeepsInv(h, ops);
  }

  /** In every reachable hub each stream was finished at most once and closed at most once, a
      stream that is no longer registered was closed exactly once, and no closed stream reopens. */
  lemma StreamsCloseExactlyOnce(ops: seq<HubOp>, i: nat)
    requires IsRun(EMPTY_HUB, ops) && i < |HubRun(EMPTY_HUB, ops).entries|
    ensures var h := HubRun(EMPTY_HUB, ops);
            var p := h.entries[i].stream;
            && p.finishes <= 1 && p.closes <= 1
            && (i !in h.streams.Values ==> p.closes == 1 && h.entries[i].closed)
  {
    HubRunKeepsInv(EMPTY_HUB, ops);
  }

  lemma {:induction false} ClosedForever(h: Hub, ops: seq<HubOp>, i: nat)
    requires HubInv(h) && IsRun(h, ops) && i < |h.entries| && h.entries[i].closed
    ensures i < |HubRun(h, ops).entries| && HubRun(h, ops).entries[i].closed
    ensures HubRun(h, ops).entries[i].stream == h.entries[i].stream
    decreases |ops|
  {
    if ops != [] {
      HubStepKeepsInv(h, ops[0]);
      ClosedForever(HubStep(h, ops[0]), ops[1..], i);
    }
  }

  // ---------------------------------------------------------------------------
  // The objects
  // ---------------------------------------------------------------------------

  /** A managed stream and its mutable state; the provider behind it is represented by its state,
      which RealtimeProvider.MockStream implements in place. Leases share the object with the hub. */
  class ManagedStream {
    ghost const sessionId: string
    var state: Entry

    constructor (sessionId: string, expiresAt: Time, stream: Provider)
      ensures this.sessionId == sessionId && state == FreshEntry(expiresAt, stream)
    {
      this.sessionId := sessionId;
      state := FreshEntry(expiresAt, stream);
    }

    method Reattach(now: Time) returns (r: Result<nat, HubError>)
      modifies this
      ensures match ResumeEntry(old(state), now)
              case Ok(e) => r == Ok(e.lease) && state == e
              case Err(error) => r == Err(error) && state == old(state)
    {
      if state.closed || state.ended || now >= state.expiresAt
          || (state.reconnectBy != ZERO_TIME && now > state.reconnectBy) {
        return Err(Unavailable);
      }
      if state.attached { return Err(Attached); }
      state := state.(lease := state.lease + 1, attached := true, reconnectBy := ZERO_TIME);
      return Ok(state.lease);
    }

    method Shut()
      modifies this
      ensures state == old(state).(closed := true, ended := true, stream := Close(old(state).stream))
    {
      state := state.(closed := true);
      state := state.(stream := Close(state.stream));
      state := state.(ended := true);
    }
  }

  /** A connection's hold on a managed stream. It keeps pointing to the stream after the hub
      has dropped it; its number decides whether it may still act. */
  class StreamLease {
    const hub: StreamHub
    const sessionId: string
    const lease: nat
    const entry: ManagedStream

    constructor (hub: StreamHub, sessionId: string, lease: nat, entry: ManagedStream)
      ensures this.hub == hub && this.sessionId == sessionId && this.lease == lease && this.entry == entry
    {
      this.hub := hub;
      this.sessionId := sessionId;
      this.lease := lease;
      this.entry := entry;
    }

    method PushFrame(f: AudioEvent, canceled: bool) returns (r: Result<Option<Update>, HubError>)
      requires WellFormed(entry.state.stream)
      modifies entry
      ensures match PushEntry(old(entry.state), lease, f, canceled)
              case Ok(p) => r == Ok(p.1) && entry.state == p.0
              case Err(error) => r == Err(error) && entry.state == old(entry.state)
    {
      if entry.state.closed || !entry.state.attached || entry.state.lease != lease { return Err(Stale); }
      if entry.state.ended { return Err(Unavailable); }
      match Push(entry.state.stream, f, canceled)
      case Ok(p) =>
        entry.state := entry.state.(stream := p.0);
        return Ok(p.1);
      case Err(error) =>
        return Err(HubError.Provider(error));
    }

    method Detach(reconnectBy: Time) returns (failure: Option<HubError>)
      modifies entry
      ensures match DetachEntry(old(entry.state), lease, reconnectBy)
              case Ok(e) => failure == None && entry.state == e
              case Err(error) => failure == Some(error) && entry.state == old(entry.state)
    {
      if reconnectBy == ZERO_TIME { return Some(Stale); }
      if entry.state.closed || !entry.state.attached || entry.state.lease != lease { return Some(Stale); }
      var deadline := if reconnectBy > entry.state.expiresAt then entry.state.expiresAt else reconnectBy;
      entry.state := entry.state.(attached := false, reconnectBy := deadline);
      return None;
    }

    method FinishLease(canceled: bool) returns (r: Result<Option<StreamError>, HubError>)
      requires hub.Valid()
      modifies entry, hub
      ensures hub.Valid()
      ensures match FinishEntry(old(entry.state), lease, canceled)
              case Ok(p) => r == Ok(p.1) && entry.state == p.0
                  && hub.streams == Without(old(hub.streams), sessionId, entry)
              case Err(error) => r == Err(error) && entry.state == old(entry.state) && hub.streams == old(hub.streams)
    {
      if entry.state.closed || !entry.state.attached || entry.state.lease != lease { return Err(Stale); }
      entry.state := entry.state.(closed := true);
      var finished := Finish(entry.state.stream, canceled);
      entry.state := entry.state.(stream := Close(finished.0));
      entry.state := entry.state.(ended := true);
      hub.Remove(sessionId, entry);
      return Ok(finished.1);
    }

    method CloseLease() returns (failure: Option<HubError>)
      requires hub.Valid()
      modifies entry, hub
      ensures hub.Valid()
      ensures match CloseEntry(old(entry.state), lease)
              case Ok(e) => failure == None && entry.state == e
                  && hub.streams == Without(old(hub.streams), sessionId, entry)
              case Err(error) =>
                  failure == Some(error) && entry.state == old(entry.state)
                  && hub.streams == old(hub.streams)
    {
      if entry.state.closed || entry.state.lease != lease { return Some(Stale); }
      entry.Shut();
      hub.Remove(sessionId, entry);
      return None;
    }
  }

  /** The map without the given entry, when it is the one registered under that session. */
  ghost function Without(streams: map<string, ManagedStream>, sessionId: string,
                         entry: ManagedStream): map<string, ManagedStream> {
    if sessionId in streams && streams[sessionId] == entry then streams - {sessionId} else streams
  }

  /** The sessions whose streams are open and overdue. */
  ghost function Due(states: map<string, Entry>, now: Time): set<string> {
    set id | id in states && !states[id].closed && Overdue(states[id], now)
  }

  lemma CountOne<T>(due: set<T>, pending: set<T>, x: T, counted: bool)
    requires x in pending && (counted <==> x in due)
    ensures |due - (pending - {x})| == |due - pending| + (if counted then 1 else 0)
  {
    if counted {
      assert due - (pending - {x}) == (due - pending) + {x};
    } else {
      assert due - (pending - {x}) == due - pending;
    }
  }

  class StreamHub {
    var streams: map<string, ManagedStream>

    /** Every stream is registered under the session it was opened for. */
    ghost predicate Valid() reads this {
      forall id :: id in streams ==> streams[id].sessionId == id
    }

    constructor ()
      ensures Valid() && streams == map[]
    {
      streams := map[];
    }

    method Remove(sessionId: string, entry: ManagedStream)
      requires Valid()
      modifies this
      ensures Valid() && streams == Without(old(streams), sessionId, entry)
    {
      if sessionId in streams && streams[sessionId] == entry {
        streams := streams - {sessionId};
      }
    }

    /** The second half of Start: register a stream just opened, or close it when another
        connection registered one for the same session meanwhile. */
    method Publish(sessionId: string, entry: ManagedStream) returns (r: Result<StreamLease, HubError>)
      requires Valid() && !entry.state.closed && entry.state.lease == 1 && entry.sessionId == sessionId
      modifies this, entry
      ensures Valid()
      ensures if sessionId in old(streams)
              then r == Err(Attached) && streams == old(streams) && Ok(entry.state) == CloseEntry(old(entry.state), 1)
              else && streams == old(streams)[sessionId := entry] && entry.state == old(entry.state)
                   && r.Ok? && r.value.entry == entry && r.value.lease == 1 && r.value.sessionId == sessionId
                      && r.value.hub == this
    {
      if sessionId in streams {
        entry.Shut();
        return Err(Attached);
      }
      streams := streams[sessionId := entry];
      var lease := new StreamLease(this, sessionId, 1, entry);
      return Ok(lease);
    }

    method Start(s: Session, now: Time, segments: seq<Segment>, chinese: bool)
      returns (r: Result<StreamLease, HubError>)
      requires Valid()
      modifies this
      ensures Valid()
      ensures r.Ok? <==>
                && CanonicalUuid(s.id) && now != ZERO_TIME && s.state.Streaming? && now < s.expiresAt
                && s.id !in old(streams) && OpenStream(s, segments, chinese).Some?
      ensures r.Ok? ==> && fresh(r.value.entry) && streams == old(streams)[s.id := r.value.entry] && r.value.lease == 1
                        && r.value.entry.state == FreshEntry(s.expiresAt, OpenStream(s, segments, chinese).value)
      ensures r.Err? ==> streams == old(streams)
    {
      if !CanonicalUuid(s.id) || now == ZERO_TIME || !s.state.Streaming? || now >= s.expiresAt {
        return Err(Unavailable);
      }
      if s.id in streams { return Err(Attached); }
      var stream := OpenStream(s, segments, chinese);
      if stream.None? { return Err(Unavailable); }
      var entry := new ManagedStream(s.id, s.expiresAt, stream.value);
      r := Publish(s.id, entry);
    }

    method Resume(s: Session, now: Time) returns (r: Result<StreamLease, HubError>)
      requires Valid()
      modifies if s.id in streams then {streams[s.id]} else {}
      ensures streams == old(streams)
      ensures r.Ok? <==>
                && now != ZERO_TIME && (s.state.Interrupted? || s.state.Streaming?)
                && s.id in streams && ResumeEntry(old(streams[s.id].state), now).Ok?
      ensures r.Ok? ==> && r.value.entry == streams[s.id] && r.value.sessionId == s.id && r.value.hub == this
                        && Ok(r.value.entry.state) == ResumeEntry(old(streams[s.id].state), now)
                        && r.value.lease == r.value.entry.state.lease
      ensures r.Err? && s.id in streams ==> streams[s.id].state == old(streams[s.id].state)
    {
      if now == ZERO_TIME || (!s.state.Interrupted? && !s.state.Streaming?) { return Err(Unavailable); }
      if s.id !in streams { return Err(Unavailable); }
      var entry := streams[s.id];
      var number := entry.Reattach(now);
      if number.Err? { return Err(number.error); }
      var lease := new StreamLease(this, s.id, number.value, entry);
      return Ok(lease);
    }

    /** One round of Reap: close the entry if it is overdue and drop it if it is closed. */
    method ReapOne(id: string, entry: ManagedStream, now: Time) returns (closedNow: bool)
      requires Valid() && id in streams && streams[id] == entry
      modifies this, entry
      ensures Valid()
      ensures entry.state == ReapEntry(old(entry.state), now)
      ensures closedNow <==> !old(entry.state.closed) && Overdue(old(entry.state), now)
      ensures streams == if entry.state.closed then old(streams) - {id} else old(streams)
    {
      var expired := now >= entry.state.expiresAt ||
                     (!entry.state.attached && entry.state.reconnectBy != ZERO_TIME && now > entry.state.reconnectBy);
      closedNow := !entry.state.closed && expired;
      if closedNow {
        entry.Shut();
      }
      if entry.state.closed {
        Remove(id, entry);
      }
    }

    /** Reap under way: the pending streams are as they were, the others have been seen to. */
    ghost predicate Reaping(before: map<string, Entry>, snapshot: map<string, ManagedStream>, pending: set<string>,
                            now: Time)
      reads this, snapshot.Values
    {
      && before.Keys == snapshot.Keys && pending <= snapshot.Keys
      && (forall id :: id in snapshot ==> snapshot[id].sessionId == id)
      && (forall id :: id in snapshot ==>
            snapshot[id].state == if id in pending then before[id] else ReapEntry(before[id], now))
      && (forall id :: id in streams <==> id in snapshot && (id in pending || !ReapEntry(before[id], now).closed))
      && (forall id :: id in streams ==> streams[id] == snapshot[id])
    }

    method ReapNext(id: string, snapshot: map<string, ManagedStream>, now: Time,
                    ghost before: map<string, Entry>, ghost pending: set<string>) returns (closedNow: bool)
      requires Reaping(before, snapshot, pending, now) && id in pending
      modifies this, snapshot[id]
      ensures Reaping(before, snapshot, pending - {id}, now)
      ensures closedNow <==> id in Due(before, now)
    {
      closedNow := ReapOne(id, snapshot[id], now);
    }

    /** Reap closes every overdue stream of its snapshot, counts them, drops every closed one from
        the map and leaves the rest untouched; the order of the visits does not matter. */
    method Reap(now: Time) returns (reaped: nat)
      requires Valid()
      modifies this, streams.Values
      ensures Valid()
      ensures now == ZERO_TIME ==> streams == old(streams) && reaped == 0
      ensures now != ZERO_TIME ==> forall id :: id in old(streams) ==>
              old(streams)[id].state == ReapEntry(old(streams[id].state), now)
      ensures now != ZERO_TIME ==> forall id :: id in streams <==> id in old(streams) && !old(streams)[id].state.closed
      ensures forall id :: id in streams ==> id in old(streams) && streams[id] == old(streams)[id]
      ensures now != ZERO_TIME ==> reaped == |Due(old(States()), now)|
    {
      reaped := 0;
      if now == ZERO_TIME { return; }
      var snapshot := streams;
      var pending := snapshot.Keys;
      ghost var before := States();
      assert Due(before, now) - pending == {};
      while pending != {}
        invariant Reaping(before, snapshot, pending, now) && reaped == |Due(before, now) - pending|
        decreases pending
      {
        var id :| id in pending;
        var closedNow := ReapNext(id, snapshot, now, before, pending);
        if closedNow {
          reaped := reaped + 1;
        }
        CountOne(Due(before, now), pending, id, closedNow);
        pending := pending - {id};
      }
    }

    /** The state of every registered stream. */
    ghost function States(): map<string, Entry> reads this, streams.Values {
      map id | id in streams :: streams[id].state
    }
  }
}
