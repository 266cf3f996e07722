/**
 Session recovery of the AWS MCP proxy. Any number of requests run at once; each
 await of an upstream call or of the session lock is a point where others run.
 A schedule interleaves them and chooses every upstream response; an action that
 is not enabled leaves the state unchanged.
 */
module AwsProxy {
  import opened Common

  type RequestId = nat
  type SessionId = nat
  type Body = string

  datatype Session = Session(id: SessionId, initPayload: Body)

  /**
   The parts of an upstream response the proxy looks at: the status code, the
   `mcp-session-id` header, and whether it is a JSON body that reports a session
   error.
   */
  datatype Response = Response(status: nat, sessionId: Option<SessionId>, sessionError: bool) | Unreachable

  datatype Request = Request(key: string, initialize: bool, body: Body, calls: nat, phase: Phase)

  datatype Phase =
    | Forwarded(sent: Option<SessionId>)
    | WantsLock(failed: Option<SessionId>)
    | Reinitializing(stale: SessionId, captured: Session)
    | Retrying(after: Option<SessionId>, retry: SessionId)
    | Finished

  /**
   What is kept under one session key: the stored session, the holder of the lock,
   and, as history, how often each session was replaced by a successful
   re-initialise and which initialize bodies clients have sent.
   */
  datatype Slot = Slot(
    session: Option<Session>,
    holder: Option<RequestId>,
    renewals: multiset<SessionId>,
    initBodies: set<Body>)

  /** `seen` holds every session id that has appeared anywhere. */
  datatype State = State(slots: map<string, Slot>, requests: map<RequestId, Request>, seen: set<SessionId>)

  datatype Action =
    | Arrive(r: RequestId, accessKey: string, region: string, initialize: bool, body: Body, header: Option<SessionId>)
    | Answer(r: RequestId, response: Response)
    | Acquire(r: RequestId)

  const EMPTY_SLOT := Slot(None, None, multiset{}, {})
  const INITIAL := State(map[], map[], {})

  function SessionKey(accessKey: string, region: string): string {
    accessKey + ":" + region
  }

  function SlotOf(s: State, key: string): Slot {
    if key in s.slots then s.slots[key] else EMPTY_SLOT
  }

  function StoredId(slot: Slot): Option<SessionId> {
    if slot.session.Some? then Some(slot.session.value.id) else None
  }

  function Put(s: State, r: RequestId, q: Request, slot: Slot): State {
    s.(requests := s.requests[r := q], slots := s.slots[q.key := slot])
  }

  /** The first upstream call: an initialize carries no session id, other requests the stored one. */
  function ArriveStep(s: State, r: RequestId, key: string, initialize: bool, body: Body,
          header: Option<SessionId>): State {
    var slot := SlotOf(s, key);
    var sent := if initialize then None else if slot.session.Some? then StoredId(slot) else header;
    Put(s, r, Request(key, initialize, body, 1, Forwarded(sent)),
        if initialize then slot.(initBodies := slot.initBodies + {body}) else slot).
    (seen := if header.Some? then s.seen + {header.value} else s.seen)
  }

  /** The answer awaited is one to an initialize, by a client or replayed. */
  predicate AwaitsSession(q: Request) {
    q.phase.Reinitializing? || (q.phase.Forwarded? && q.initialize)
  }

  /** The session ids that answer an initialize are fresh; other answers may repeat known ones. */
  predicate Plausible(s: State, q: Request, response: Response) {
    AwaitsSession(q) && OpensSession(response) ==> response.sessionId.value !in s.seen
  }

  predicate OpensSession(response: Response) {
    response.Response? && response.status < 400 && response.sessionId.Some?
  }

  function Learn(s: State, response: Response): State {
    if OpensSession(response) then s.(seen := s.seen + {response.sessionId.value}) else s
  }

  function FirstAnswer(q: Request, slot: Slot, response: Response): (Request, Slot)
    requires q.phase.Forwarded?
  {
    if response.Response? && q.initialize then
      (q.(phase := Finished),
       if OpensSession(response) then slot.(session := Some(Session(response.sessionId.value, q.body))) else slot)
    else if response.Response? && response.sessionError then (q.(phase := WantsLock(q.phase.sent)), slot)
    else (q.(phase := Finished), slot)
  }

  /** Under the lock: reuse a session somebody else has renewed, re-initialise the failed one, or give up. */
  function LockTaken(r: RequestId, q: Request, slot: Slot): (Request, Slot)
    requires q.phase.WantsLock?
  {
    if slot.session.None? then (q.(phase := Finished), slot)
    else if StoredId(slot) != q.phase.failed then
      (q.(calls := q.calls + 1, phase := Retrying(q.phase.failed, slot.session.value.id)), slot)
    else
      (q.(calls := q.calls + 1, phase := Reinitializing(slot.session.value.id, slot.session.value)),
       slot.(holder := Some(r)))
  }

  function ReinitAnswer(q: Request, slot: Slot, response: Response): (Request, Slot)
    requires q.phase.Reinitializing?
  {
    if OpensSession(response) then
      var renewed := response.sessionId.value;
      (q.(calls := q.calls + 1, phase := Retrying(Some(q.phase.stale), renewed)),
       slot.(holder := None,
             session := Some(Session(renewed, q.phase.captured.initPayload)),
             renewals := slot.renewals + multiset{q.phase.stale}))
    else (q.(phase := Finished), slot.(holder := None))
  }

  /** The continuation of a request when its upstream call returns or raises. */
  function AnswerStep(s: State, r: RequestId, response: Response): State
    requires r in s.requests
  {
    var q := s.requests[r];
    var slot := SlotOf(s, q.key);
    match q.phase
    case Forwarded(_) => var (q', slot') := FirstAnswer(q, slot, response); Learn(Put(s, r, q', slot'), response)
    case Reinitializing(_, _) =>
      var (q', slot') := ReinitAnswer(q, slot, response);
      Learn(Put(s, r, q', slot'), response)
    case Retrying(_, _) => Put(s, r, q.(phase := Finished), slot)
    case _ => s
  }

  function AcquireStep(s: State, r: RequestId): State
    requires r in s.requests && s.requests[r].phase.WantsLock?
  {
    var (q, slot) := LockTaken(r, s.requests[r], SlotOf(s, s.requests[r].key));
    Put(s, r, q, slot)
  }

  predicate LockFree(s: State, r: RequestId)
    requires r in s.requests
  {
    SlotOf(s, s.requests[r].key).holder.None?
  }

  function Step(s: State, action: Action): State {
    match action
    case Arrive(r, accessKey, region, initialize, body, header) =>
      if r in s.requests then s else ArriveStep(s, r, SessionKey(accessKey, region), initialize, body, header)
    case Answer(r, response) =>
      if r in s.requests && Plausible(s, s.requests[r], response) then AnswerStep(s, r, response) else s
    case Acquire(r) =>
      if r in s.requests && s.requests[r].phase.WantsLock? && LockFree(s, r) then AcquireStep(s, r) else s
  }

  function Play(s: State, schedule: seq<Action>): State {
    if schedule == [] then s
    else Step(Play(s, schedule[..|schedule| - 1]), schedule[|schedule| - 1])
  }

  // ----------------------------------------------------------- the service itself

  /** A request that meets nobody else: its answers are `first` and, if it re-initialises, `reply`. */
  function Undisputed(key: string, slot: Slot, initialize: bool, body: Body, header: Option<SessionId>,
                      first: Response, reply: Response): (Request, Slot) {
    var sent := if initialize then None else if slot.session.Some? then StoredId(slot) else header;
    var (q, answered) := FirstAnswer(Request(key, initialize, body, 1, Forwarded(sent)), slot, first);
    if !q.phase.WantsLock? then (q, answered)
    else
      var (locked, taken) := LockTaken(0, q, answered);
      if locked.phase.Reinitializing? then ReinitAnswer(locked, taken, reply) else (locked, taken)
  }

  class AwsMcpProxy {
    var sessions: map<string, Session>

    constructor ()
      ensures sessions == map[]
    {
      sessions := map[];
    }

    ghost function View(key: string): Slot
      reads this
    {
      EMPTY_SLOT.(session := if key in sessions then Some(sessions[key]) else None)
    }

    /** Replays the stored initialize; only a successful answer replaces the session, and keeps its payload. */
    method ReinitializeSession(key: string, reply: Response) returns (renewed: Option<SessionId>)
      modifies this
      ensures
        if key in old(sessions) && OpensSession(reply) then
          && renewed == reply.sessionId
          && sessions == old(sessions)[key := Session(reply.sessionId.value, old(sessions)[key].initPayload)]
        else renewed == None && sessions == old(sessions)
    {
      if key !in sessions || !OpensSession(reply) { return None; }
      sessions := sessions[key := Session(reply.sessionId.value, sessions[key].initPayload)];
      return reply.sessionId;
    }

    /** Under the lock: a session that is not the failed one is reused as it is. */
    method HandleSessionError(key: string, failed: Option<SessionId>, reply: Response)
      returns (retry: Option<SessionId>)
      modifies this
      ensures
        if key in old(sessions) && Some(old(sessions)[key].id) != failed then
          retry == Some(old(sessions)[key].id) && sessions == old(sessions)
        else if key in old(sessions) && OpensSession(reply) then
          && retry == reply.sessionId
          && sessions == old(sessions)[key := Session(reply.sessionId.value, old(sessions)[key].initPayload)]
        else retry == None && sessions == old(sessions)
    {
      if key in sessions && Some(sessions[key].id) != failed {
        return Some(sessions[key].id);
      }
      retry := ReinitializeSession(key, reply);
    }

    /**
     The whole request, undisputed: the steps of the machine in their order. A session
     error of a stored session is met by a fresh one, with the payload kept, and by a
     retry under it; an initialize answered below 400 with an id stores that id and its
     own body; nothing else touches the store.
     */
    method HandleProxyRequest(key: string, initialize: bool, body: Body, header: Option<SessionId>, first: Response,
            reply: Response)
      returns (retry: Option<SessionId>)
      modifies this
      ensures
        var (q, slot) := Undisputed(key, old(View(key)), initialize, body, header, first, reply);
        && (if key in sessions then Some(sessions[key]) else None) == slot.session
        && retry == if q.phase.Retrying? then Some(q.phase.retry) else None
      ensures forall other :: other != key ==> View(other) == old(View(other))
      ensures
        var fails := first.Response? && first.sessionError && !initialize;
        var opens := first.Response? && first.status < 400 && first.sessionId.Some? && initialize;
        var reopens := reply.Response? && reply.status < 400 && reply.sessionId.Some?;
        if opens then retry == None && sessions == old(sessions)[key := Session(first.sessionId.value, body)]
        else if fails && key in old(sessions) && reopens then
          && retry == reply.sessionId
          && sessions == old(sessions)[key := Session(reply.sessionId.value, old(sessions)[key].initPayload)]
        else retry == None && sessions == old(sessions)
    {
      var sent := None;
      if !initialize {
        sent := if key in sessions then Some(sessions[key].id) else header;
      }
      if first.Unreachable? { return None; }
      if initialize && OpensSession(first) {
        sessions := sessions[key := Session(first.sessionId.value, body)];
      }
      if first.sessionError && !initialize {
        retry := HandleSessionError(key, sent, reply);
      } else {
        retry := None;
      }
    }
  }

  // ---------------------------------------------------------------- invariant

  predicate CallsOk(q: Request) {
    match q.phase
    case Forwarded(_) => q.calls == 1
    case WantsLock(_) => q.calls == 1 && !q.initialize
    case Reinitializing(_, _) => q.calls == 2 && !q.initialize
    case Retrying(_, _) => q.calls <= 3 && !q.initialize
    case Finished => q.calls <= 3
  }

  predicate RequestOk(r: RequestId, q: Request, slot: Slot, seen: set<SessionId>) {
    && CallsOk(q)
    && (q.phase.Reinitializing? <==> slot.holder == Some(r))
    && (q.phase.Forwarded? && q.phase.sent.Some? ==> q.phase.sent.value in seen)
    && (q.phase.WantsLock? && q.phase.failed.Some? ==> q.phase.failed.value in seen)
    && (q.phase.Reinitializing? ==>
          && q.phase.stale in seen
          && q.phase.stale !in slot.renewals
          && q.phase.captured.initPayload in slot.initBodies)
    && (q.phase.Retrying? ==> q.phase.after != Some(q.phase.retry))
    && (q.initialize && q.phase.Forwarded? ==> q.body in slot.initBodies)
  }

  ghost predicate SlotOk(slot: Slot, seen: set<SessionId>) {
    && (slot.session.Some? ==>
          && slot.session.value.id in seen
          && slot.session.value.id !in slot.renewals
          && slot.session.value.initPayload in slot.initBodies)
    && (forall x :: x in slot.renewals ==> x in seen && slot.renewals[x] == 1)
  }

  predicate RequestsOk(s: State) {
    forall r :: r in s.requests ==> RequestOk(r, s.requests[r], SlotOf(s, s.requests[r].key), s.seen)
  }

  ghost predicate SlotsOk(s: State) {
    forall key :: SlotOk(SlotOf(s, key), s.seen)
  }

  /** The holder of a lock is a request for that key. */
  ghost predicate HoldersOk(s: State) {
    forall key :: SlotOf(s, key).holder.Some? ==>
      SlotOf(s, key).holder.value in s.requests && s.requests[SlotOf(s, key).holder.value].key == key
  }

  ghost predicate Inv(s: State) {
    RequestsOk(s) && SlotsOk(s) && HoldersOk(s)
  }

  /** Whatever held of another request under the old slot holds under the new one. */
  ghost predicate Undisturbed(r: RequestId, old': Slot, new': Slot, seen: set<SessionId>) {
    forall p, q :: p != r && RequestOk(p, q, old', seen) ==> RequestOk(p, q, new', seen)
  }

  lemma PutKeepsRequests(s: State, r: RequestId, q: Request, slot: Slot, seen: set<SessionId>)
    requires RequestsOk(s) && s.seen <= seen
    requires RequestOk(r, q, slot, seen)
    requires Undisturbed(r, SlotOf(s, q.key), slot, s.seen)
    ensures RequestsOk(Put(s, r, q, slot).(seen := seen))
  {
    var t := Put(s, r, q, slot).(seen := seen);
    forall p | p in t.requests && p != r
      ensures RequestOk(p, t.requests[p], SlotOf(t, t.requests[p].key), t.seen)
    {
      assert RequestOk(p, s.requests[p], SlotOf(s, s.requests[p].key), s.seen);
      assert RequestOk(p, s.requests[p], SlotOf(t, s.requests[p].key), s.seen);
    }
  }

  lemma PutKeepsHolders(s: State, r: RequestId, q: Request, slot: Slot)
    requires HoldersOk(s)
    requires r in s.requests ==> s.requests[r].key == q.key
    requires slot.holder == SlotOf(s, q.key).holder || slot.holder == None || slot.holder == Some(r)
    ensures HoldersOk(Put(s, r, q, slot))
  {
    var t := Put(s, r, q, slot);
    forall key | SlotOf(t, key).holder.Some?
      ensures SlotOf(t, key).holder.value in t.requests && t.requests[SlotOf(t, key).holder.value].key == key
    {
      var p := SlotOf(t, key).holder.value;
      if p != r || key != q.key {
        assert SlotOf(s, key).holder == Some(p);
      }
    }
  }

  lemma PutKeepsInv(s: State, r: RequestId, q: Request, slot: Slot, seen: set<SessionId>)
    requires Inv(s) && s.seen <= seen
    requires r in s.requests ==> s.requests[r].key == q.key
    requires RequestOk(r, q, slot, seen) && SlotOk(slot, seen)
    requires slot.holder == SlotOf(s, q.key).holder || slot.holder == None || slot.holder == Some(r)
    requires Undisturbed(r, SlotOf(s, q.key), slot, s.seen)
    ensures Inv(Put(s, r, q, slot).(seen := seen))
  {
    var t := Put(s, r, q, slot).(seen := seen);
    PutKeepsRequests(s, r, q, slot, seen);
    PutKeepsHolders(s, r, q, slot);
    assert forall key :: SlotOf(t, key) == SlotOf(Put(s, r, q, slot), key);
    forall key
      ensures SlotOk(SlotOf(t, key), t.seen)
    {
      assert SlotOk(SlotOf(s, key), s.seen);
    }
  }

  lemma FirstAnswerOk(r: RequestId, q: Request, slot: Slot, seen: set<SessionId>, response: Response)
    requires RequestOk(r, q, slot, seen) && SlotOk(slot, seen) && q.phase.Forwarded?
    requires q.initialize && OpensSession(response) ==> response.sessionId.value !in seen
    ensures
      var (q', slot') := FirstAnswer(q, slot, response);
      var seen' := if OpensSession(response) then seen + {response.sessionId.value} else seen;
      && RequestOk(r, q', slot', seen') && SlotOk(slot', seen')
      && slot'.holder == slot.holder && Undisturbed(r, slot, slot', seen)
  {
  }

  lemma LockTakenOk(r: RequestId, q: Request, slot: Slot, seen: set<SessionId>)
    requires RequestOk(r, q, slot, seen) && SlotOk(slot, seen) && q.phase.WantsLock? && slot.holder.None?
    ensures
      var (q', slot') := LockTaken(r, q, slot);
      && RequestOk(r, q', slot', seen) && SlotOk(slot', seen)
      && (slot'.holder == None || slot'.holder == Some(r)) && Undisturbed(r, slot, slot', seen)
  {
  }

  lemma ReinitAnswerOk(r: RequestId, q: Request, slot: Slot, seen: set<SessionId>, response: Response)
    requires RequestOk(r, q, slot, seen) && SlotOk(slot, seen) && q.phase.Reinitializing?
    requires OpensSession(response) ==> response.sessionId.value !in seen
    ensures
      var (q', slot') := ReinitAnswer(q, slot, response);
      var seen' := if OpensSession(response) then seen + {response.sessionId.value} else seen;
      && RequestOk(r, q', slot', seen') && SlotOk(slot', seen')
      && slot'.holder == None && Undisturbed(r, slot, slot', seen)
  {
  }

  lemma AnswerKeepsInv(s: State, r: RequestId, response: Response)
    requires Inv(s) && r in s.requests && Plausible(s, s.requests[r], response)
    ensures Inv(AnswerStep(s, r, response))
  {
    var q := s.requests[r];
    var slot := SlotOf(s, q.key);
    var seen := if OpensSession(response) then s.seen + {response.sessionId.value} else s.seen;
    assert RequestOk(r, q, slot, s.seen);
    match q.phase
    case Forwarded(_) =>
      FirstAnswerOk(r, q, slot, s.seen, response);
      var (q', slot') := FirstAnswer(q, slot, response);
      PutKeepsInv(s, r, q', slot', seen);
    case Reinitializing(_, _) =>
      ReinitAnswerOk(r, q, slot, s.seen, response);
      var (q', slot') := ReinitAnswer(q, slot, response);
      PutKeepsInv(s, r, q', slot', seen);
    case Retrying(_, _) =>
      PutKeepsInv(s, r, q.(phase := Finished), slot, s.seen);
    case _ =>
  }

  lemma ArriveKeepsInv(s: State, r: RequestId, key: string, initialize: bool, body: Body, header: Option<SessionId>)
    requires Inv(s) && r !in s.requests
    ensures Inv(ArriveStep(s, r, key, initialize, body, header))
  {
    var t := ArriveStep(s, r, key, initialize, body, header);
    assert SlotOf(s, key).holder != Some(r);
    PutKeepsInv(s, r, t.requests[r], t.slots[key], t.seen);
  }

  lemma StepKeepsInv(s: State, action: Action)
    requires Inv(s)
    ensures Inv(Step(s, action))
  {
    match action
    case Arrive(r, accessKey, region, initialize, body, header) =>
      if r !in s.requests { ArriveKeepsInv(s, r, SessionKey(accessKey, region), initialize, body, header); }
    case Answer(r, response) =>
      if r in s.requests && Plausible(s, s.requests[r], response) { AnswerKeepsInv(s, r, response); }
    case Acquire(r) =>
      if r in s.requests && s.requests[r].phase.WantsLock? && LockFree(s, r) {
        var q := s.requests[r];
        LockTakenOk(r, q, SlotOf(s, q.key), s.seen);
        var (q', slot') := LockTaken(r, q, SlotOf(s, q.key));
        PutKeepsInv(s, r, q', slot', s.seen);
      }
  }

  lemma {:induction false} PlayKeepsInv(s: State, schedule: seq<Action>)
    requires Inv(s)
    ensures Inv(Play(s, schedule))
  {
    if schedule != [] {
      PlayKeepsInv(s, schedule[..|schedule| - 1]);
      StepKeepsInv(Play(s, schedule[..|schedule| - 1]), schedule[|schedule| - 1]);
    }
  }

  // ------------------------------------------------------------- main results

  /**
   Single flight: after any schedule, each session that went stale under a key has
   been replaced by at most one successful re-initialise.
   */
  lemma RenewedAtMostOnce(schedule: seq<Action>, key: string, stale: SessionId)
    ensures SlotOf(Play(INITIAL, schedule), key).renewals[stale] <= 1
  {
    PlayKeepsInv(INITIAL, schedule);
    assert SlotOk(SlotOf(Play(INITIAL, schedule), key), Play(INITIAL, schedule).seen);
  }

  /**
   Every later victim of a session that has been replaced reuses what is stored: on
   taking the lock it goes straight to its retry, and the stored session is neither
   touched nor the one that failed.
   */
  lemma LaterVictimReuses(schedule: seq<Action>, r: RequestId, stale: SessionId)
    requires
      var s := Play(INITIAL, schedule);
      && r in s.requests && s.requests[r].phase == WantsLock(Some(stale))
      && LockFree(s, r) && stale in SlotOf(s, s.requests[r].key).renewals
    ensures
      var s := Play(INITIAL, schedule);
      var t := Step(s, Acquire(r));
      && t.requests[r].phase.Retrying? && t.requests[r].calls == s.requests[r].calls + 1
      && Some(t.requests[r].phase.retry) == StoredId(SlotOf(s, s.requests[r].key))
      && t.requests[r].phase.retry != stale
      && SlotOf(t, s.requests[r].key) == SlotOf(s, s.requests[r].key)
  {
    var s := Play(INITIAL, schedule);
    PlayKeepsInv(INITIAL, schedule);
    assert SlotOk(SlotOf(s, s.requests[r].key), s.seen);
    RenewedKeyKeepsSession(schedule, s.requests[r].key, stale);
  }

  predicate Kept(slot: Slot) {
    slot.renewals != multiset{} ==> slot.session.Some?
  }

  lemma KeptStep(s: State, action: Action, key: string)
    requires Kept(SlotOf(s, key))
    ensures Kept(SlotOf(Step(s, action), key))
  {
    if action.Answer? && action.r in s.requests && s.requests[action.r].key == key {
      assert Step(s, action) == s || Kept(SlotOf(AnswerStep(s, action.r, action.response), key));
    }
  }

  lemma {:induction false} AllKept(schedule: seq<Action>, key: string)
    ensures Kept(SlotOf(Play(INITIAL, schedule), key))
  {
    if schedule != [] {
      AllKept(schedule[..|schedule| - 1], key);
      KeptStep(Play(INITIAL, schedule[..|schedule| - 1]), schedule[|schedule| - 1], key);
    }
  }

  /** A key whose session was ever replaced has a session stored. */
  lemma RenewedKeyKeepsSession(schedule: seq<Action>, key: string, stale: SessionId)
    requires stale in SlotOf(Play(INITIAL, schedule), key).renewals
    ensures SlotOf(Play(INITIAL, schedule), key).session.Some?
  {
    AllKept(schedule, key);
  }

  /** No request is retried with the session that just failed it, and none makes more than three upstream calls. */
  lemma RetriesAreBounded(schedule: seq<Action>, r: RequestId)
    ensures
      var s := Play(INITIAL, schedule);
      r in s.requests ==>
        && s.requests[r].calls <= 3
        && (s.requests[r].phase.Retrying? ==> s.requests[r].phase.after != Some(s.requests[r].phase.retry))
  {
    PlayKeepsInv(INITIAL, schedule);
    var s := Play(INITIAL, schedule);
    if r in s.requests {
      assert RequestOk(r, s.requests[r], SlotOf(s, s.requests[r].key), s.seen);
    }
  }

  /**
   The lock is never leaked: its holder is a request that waits for the answer to its
   re-initialise, and no other request re-initialises that key meanwhile.
   */
  lemma {:induction false} LockHolderReinitializes(schedule: seq<Action>, key: string, r: RequestId)
    ensures
      var s := Play(INITIAL, schedule);
      SlotOf(s, key).holder == Some(r) <==>
      r in s.requests && s.requests[r].key == key && s.requests[r].phase.Reinitializing?
  {
    PlayKeepsInv(INITIAL, schedule);
    var s := Play(INITIAL, schedule);
    if r in s.requests {
      assert RequestOk(r, s.requests[r], SlotOf(s, s.requests[r].key), s.seen);
    }
  }

  /** What a re-initialise replays is always the body of an initialize some client sent for that key. */
  lemma ReplayedPayloadIsAuthentic(schedule: seq<Action>, key: string)
    ensures
      var slot := SlotOf(Play(INITIAL, schedule), key);
      slot.session.Some? ==> slot.session.value.initPayload in slot.initBodies
  {
    PlayKeepsInv(INITIAL, schedule);
    assert SlotOk(SlotOf(Play(INITIAL, schedule), key), Play(INITIAL, schedule).seen);
  }

  /** A request is forwarded once, with the stored session, or else with the client's own; an initialize with none. */
  lemma RequestsCarryTheStoredSession(s: State, r: RequestId, accessKey: string, region: string, initialize: bool,
        body: Body, header: Option<SessionId>)
    requires r !in s.requests
    ensures
      var key := SessionKey(accessKey, region);
      var t := Step(s, Arrive(r, accessKey, region, initialize, body, header));
      var stored := SlotOf(s, key).session;
      && r in t.requests && t.requests[r].key == key && t.requests[r].calls == 1
      && t.requests[r].initialize == initialize && t.requests[r].body == body
      && t.requests[r].phase == Forwarded(
           if initialize then None else if stored.Some? then Some(stored.value.id) else header)
      && SlotOf(t, key) == SlotOf(s, key).(
           initBodies := SlotOf(s, key).initBodies + if initialize then {body} else {})
  {
    var bodies := SlotOf(s, SessionKey(accessKey, region)).initBodies;
    assert bodies + {} == bodies;
  }

  /**
   Whatever happens, the session stored under a key changes only when an answer below
   400 with an id comes to an initialize: to the client's own, whose body is then kept,
   or to a replayed one, whose payload is kept. And then it always does.
   */
  lemma StoredExactlyWhenOpened(s: State, r: RequestId, response: Response)
    requires r in s.requests && Plausible(s, s.requests[r], response)
    ensures
      var q := s.requests[r];
      var before := SlotOf(s, q.key).session;
      var after := SlotOf(Step(s, Answer(r, response)), q.key).session;
      var opens := response.Response? && response.status < 400 && response.sessionId.Some?;
      if q.phase.Forwarded? && q.initialize && opens then after == Some(Session(response.sessionId.value, q.body))
      else if q.phase.Reinitializing? && opens then
        after == Some(Session(response.sessionId.value, q.phase.captured.initPayload))
      else after == before
  {
  }

  /** Taking the lock stores nothing, and neither does anything under another key. */
  lemma OthersKeepTheirSession(s: State, action: Action, key: string)
    requires !action.Answer? || (action.r in s.requests ==> s.requests[action.r].key != key)
    ensures SlotOf(Step(s, action), key).session == SlotOf(s, key).session
  {
  }

  /** The request was sent with the stored session, and nobody holds the lock. */
  predicate AtStake(s: State, r: RequestId, first: Response) {
    && r in s.requests && s.requests[r].phase.Forwarded? && !s.requests[r].initialize
    && SlotOf(s, s.requests[r].key).session.Some? && SlotOf(s, s.requests[r].key).holder.None?
    && s.requests[r].phase.sent == Some(SlotOf(s, s.requests[r].key).session.value.id)
    && first.Response? && first.sessionError
  }

  /** When the upstream rejects that session, the request takes the lock and replays the stored initialize. */
  lemma RejectedSessionIsReplayed(s: State, r: RequestId, first: Response)
    requires AtStake(s, r, first)
    ensures
      var key := s.requests[r].key;
      var stale := SlotOf(s, key).session.value;
      var t := Step(Step(s, Answer(r, first)), Acquire(r));
      && r in t.requests
      && t.requests[r] == s.requests[r].(calls := s.requests[r].calls + 1, phase := Reinitializing(stale.id, stale))
      && SlotOf(t, key) == SlotOf(s, key).(holder := Some(r))
      && t.seen <= s.seen + if first.sessionId.Some? then {first.sessionId.value} else {}
  {
    var key := s.requests[r].key;
    var t := Step(s, Answer(r, first));
    assert t.requests[r] == s.requests[r].(phase := WantsLock(s.requests[r].phase.sent));
    assert SlotOf(t, key) == SlotOf(s, key);
  }

  /** And when that succeeds, the fresh session is stored with the same payload, and the request retried with it. */
  lemma RejectedSessionIsRenewed(s: State, r: RequestId, first: Response, reply: Response)
    requires AtStake(s, r, first)
    requires reply.Response? && reply.status < 400 && reply.sessionId.Some?
    requires reply.sessionId.value !in s.seen && first.sessionId != reply.sessionId
    ensures
      var key := s.requests[r].key;
      var stale := SlotOf(s, key).session.value;
      var t := Step(Step(Step(s, Answer(r, first)), Acquire(r)), Answer(r, reply));
      && r in t.requests && t.requests[r].calls == s.requests[r].calls + 2
      && t.requests[r].phase == Retrying(Some(stale.id), reply.sessionId.value)
      && SlotOf(t, key).session == Some(Session(reply.sessionId.value, stale.initPayload))
      && SlotOf(t, key).holder == None
      && SlotOf(t, key).renewals == SlotOf(s, key).renewals + multiset{stale.id}
  {
    RejectedSessionIsReplayed(s, r, first);
  }

  /** The retry is the last call: whatever it is answered, the request is over. */
  lemma RetryIsTheLast(s: State, r: RequestId, response: Response)
    requires r in s.requests && s.requests[r].phase.Retrying?
    ensures
      var t := Step(s, Answer(r, response));
      && t.requests[r] == s.requests[r].(phase := Finished)
      && SlotOf(t, s.requests[r].key) == SlotOf(s, s.requests[r].key)
  {
  }

  /** When the replayed initialize fails too, the session stays, the lock is free, and there is no retry. */
  lemma FailedRenewalKeepsTheSession(s: State, r: RequestId, response: Response)
    requires r in s.requests && s.requests[r].phase.Reinitializing?
    requires !(response.Response? && response.status < 400 && response.sessionId.Some?)
    ensures
      var key := s.requests[r].key;
      var t := Step(s, Answer(r, response));
      && t.requests[r].phase == Finished && t.requests[r].calls == s.requests[r].calls
      && SlotOf(t, key) == SlotOf(s, key).(holder := None)
  {
  }

  /** A victim that finds no session stored gives up at once; one that reports no session error is answered as it is. */
  lemma NothingToRenew(s: State, r: RequestId, response: Response)
    requires r in s.requests
    ensures
      s.requests[r].phase.WantsLock? && LockFree(s, r) && SlotOf(s, s.requests[r].key).session.None? ==>
      Step(s, Acquire(r)).requests[r].phase == Finished
    ensures
      s.requests[r].phase.Forwarded? && Plausible(s, s.requests[r], response) ==>
      Step(s, Answer(r, response)).requests[r].phase ==
        if !s.requests[r].initialize && response.Response? && response.sessionError
        then WantsLock(s.requests[r].phase.sent) else Finished
  {
  }

  lemma Then(schedule: seq<Action>, action: Action) returns (longer: seq<Action>)
    ensures longer == schedule + [action] && Play(INITIAL, longer) == Step(Play(INITIAL, schedule), action)
  {
    longer := schedule + [action];
    assert longer[..|schedule|] == schedule;
  }

  const KEY := "AK:region"
  const OPENED := Slot(Some(Session(1, "hello")), None, multiset{}, {"hello"})

  function Victim(phase: Phase): Request {
    Request(KEY, false, "call", 1, phase)
  }

  lemma FirstSession() returns (schedule: seq<Action>)
    ensures
      var s := Play(INITIAL, schedule);
      SlotOf(s, KEY) == OPENED && s.requests.Keys == {0} && s.seen == {1}
  {
    assert SessionKey("AK", "region") == KEY;
    schedule := Then([], Arrive(0, "AK", "region", true, "hello", None));
    var s := Play(INITIAL, schedule);
    assert s.requests == map[0 := Request(KEY, true, "hello", 1, Forwarded(None))] && s.seen == {};
    assert SlotOf(s, KEY).initBodies == {"hello"};
    assert SlotOf(s, KEY) == OPENED.(session := None);
    schedule := Then(schedule, Answer(0, Response(200, Some(1), false)));
  }

  lemma Sent(schedule: seq<Action>, r: RequestId) returns (longer: seq<Action>)
    requires r !in Play(INITIAL, schedule).requests && SlotOf(Play(INITIAL, schedule), KEY) == OPENED
    ensures
      var s := Play(INITIAL, schedule);
      && SlotOf(Play(INITIAL, longer), KEY) == OPENED && Play(INITIAL, longer).seen == s.seen
      && Play(INITIAL, longer).requests == s.requests[r := Victim(Forwarded(Some(1)))]
  {
    assert SessionKey("AK", "region") == KEY;
    longer := Then(schedule, Arrive(r, "AK", "region", false, "call", None));
  }

  lemma Rejected(schedule: seq<Action>, r: RequestId) returns (longer: seq<Action>)
    requires SlotOf(Play(INITIAL, schedule), KEY) == OPENED
    requires r in Play(INITIAL, schedule).requests
    requires Play(INITIAL, schedule).requests[r] == Victim(Forwarded(Some(1)))
    ensures
      var s := Play(INITIAL, schedule);
      && SlotOf(Play(INITIAL, longer), KEY) == OPENED && Play(INITIAL, longer).seen == s.seen
      && Play(INITIAL, longer).requests == s.requests[r := Victim(WantsLock(Some(1)))]
  {
    longer := Then(schedule, Answer(r, Response(404, None, true)));
  }

  /** A client has initialized, and two of its requests have failed with the session that it got. */
  lemma TwoVictims() returns (schedule: seq<Action>)
    ensures
      var s := Play(INITIAL, schedule);
      && SlotOf(s, KEY) == OPENED && s.requests.Keys == {0, 1, 2} && s.seen == {1}
      && s.requests[1] == s.requests[2] == Victim(WantsLock(Some(1)))
  {
    schedule := FirstSession();
    schedule := Sent(schedule, 1);
    schedule := Sent(schedule, 2);
    schedule := Rejected(schedule, 1);
    schedule := Rejected(schedule, 2);
  }

  /** The first of them renews the session, and the second reuses what the first has stored. */
  lemma OneRenewsTheOtherReuses() returns (schedule: seq<Action>)
    ensures
      var s := Play(INITIAL, schedule);
      && SlotOf(s, KEY) == Slot(Some(Session(2, "hello")), None, multiset{1}, {"hello"})
      && s.requests.Keys == {0, 1, 2}
      && s.requests[1].phase == Retrying(Some(1), 2) && s.requests[1].calls == 3
      && s.requests[2].phase == Retrying(Some(1), 2) && s.requests[2].calls == 2
  {
    schedule := TwoVictims();
    schedule := Then(schedule, Acquire(1));
    assert Play(INITIAL, schedule).requests[1].phase == Reinitializing(1, Session(1, "hello"));
    schedule := Then(schedule, Answer(1, Response(200, Some(2), false)));
    assert SlotOf(Play(INITIAL, schedule), KEY) == Slot(Some(Session(2, "hello")), None, multiset{1}, {"hello"});
    schedule := Then(schedule, Acquire(2));
  }

  /** Two callers share a session exactly when both parts of their key agree, as long as access keys have no colon. */
  lemma SessionKeyInjective(a: string, x: string, b: string, y: string)
    requires ':' !in a && ':' !in b
    ensures SessionKey(a, x) == SessionKey(b, y) <==> a == b && x == y
  {
    if SessionKey(a, x) == SessionKey(b, y) { CutAt(':', a, x, b, y); }
  }
}
