/**
 The human-in-the-loop approval protocol: the permission hook of the agent
 pipeline, the Redis gate it sleeps on, and the WebSocket handler that answers.

 Every database transaction, every Redis command and every stretch of Python
 between two of them is one atomic step. A schedule interleaves the steps of any
 number of hooks and handlers in any order; an action that is not enabled leaves
 the state unchanged, so every sequence of actions is a run.
 */
module ApprovalGate {
  import opened Common

  /** Approval ids are fresh UUIDs, so a hook is named by the row it created. */
  type ApprovalId = nat
  type HandlerId = nat
  type Payload = map<string, string>

  datatype RowStatus = Pending | Approved | Denied
  datatype Row = Row(status: RowStatus, response: Option<Payload>)
  datatype Decision = Decision(approved: bool, payload: Payload)

  datatype GateError = NotRegistered | NoDecision | TimedOut
  datatype Outcome = Decided(decision: Decision) | Broken(error: GateError)
  datatype Verdict = Allow | Deny(reason: string)

  /** Where a hook stands; each constructor is the point before its next step. */
  datatype HookPc =
    | Created
    | Flagged
    | Subscribed
    | Registered
    | Announced
    | Checking
    | Sleeping
    | Woken
    | Closing(outcome: Outcome)
    | Consumed(decision: Decision)
    | Cleaned(decision: Decision)
    | Restored(decision: Decision)
    | Returned(verdict: Verdict)
    | Raised(error: GateError)

  /**
   Everything that is stored under one approval id: the `task_approvals` row, the
   Redis decision key, the messages waiting in the wake subscription (when one is
   open), the entry of the `_pending` dictionary, and the hook itself.
   */
  datatype Approval = Approval(
    row: Row,
    key: Option<Decision>,
    channel: Option<nat>,
    pending: bool,
    pc: HookPc)

  datatype HandlerPc = Committed | Stored | Notified(receivers: nat)

  datatype Handler =
    | Answering(approval: ApprovalId, decision: Decision, pc: HandlerPc)
    | NotFound
    | Conflict

  datatype State = State(
    approvals: map<ApprovalId, Approval>,
    handlers: map<HandlerId, Handler>,
    taskStatus: TaskStatus)

  datatype Action =
    | Request(id: ApprovalId)
    | HookRuns(id: ApprovalId)
    | Expire(id: ApprovalId)
    | Respond(handler: HandlerId, approval: ApprovalId, decision: Decision)
    | HandlerRuns(handler: HandlerId)

  const INITIAL := State(map[], map[], Running)

  function Truncate(text: string, n: nat): string {
    if |text| <= n then text else text[..n]
  }

  function DenyReason(payload: Payload): string {
    Truncate(
      if "text" in payload && payload["text"] != "" then payload["text"] else "Tool use denied by user.",
      500)
  }

  function VerdictOf(d: Decision): Verdict {
    if d.approved then Allow else Deny(DenyReason(d.payload))
  }

  /** What a handler's transaction writes into the approval row. */
  function AnsweredRow(d: Decision): Row {
    Row(if d.approved then Approved else Denied, if d.payload == map[] then None else Some(d.payload))
  }

  /** The hook's own next step; only a hook that sleeps on an empty channel has none. */
  function HookStep(a: Approval): Approval {
    match a.pc
    case Created => a.(pc := Flagged)
    case Flagged => a.(channel := Some(0), pc := Subscribed)
    case Subscribed => a.(pending := true, pc := Registered)
    case Registered => a.(pc := Announced)
    case Announced => if a.pending then a.(pending := false, pc := Checking) else a.(pc := Raised(NotRegistered))
    case Checking => a.(pc := if a.key.Some? then Closing(Decided(a.key.value)) else Sleeping)
    case Sleeping =>
      if a.channel.Some? && a.channel.value > 0
      then a.(channel := Some(a.channel.value - 1), pc := Woken)
      else a
    case Woken => a.(pc := Closing(if a.key.Some? then Decided(a.key.value) else Broken(NoDecision)))
    case Closing(outcome) =>
      a.(channel := None, pc := if outcome.Decided? then Consumed(outcome.decision) else Raised(outcome.error))
    case Consumed(d) => a.(key := None, pc := Cleaned(d))
    case Cleaned(d) => a.(pc := Restored(d))
    case Restored(d) => a.(pc := Returned(VerdictOf(d)))
    case Returned(_) => a
    case Raised(_) => a
  }

  /** The hook flips the task to AWAITING_APPROVAL first and back to RUNNING last. */
  function StatusAfter(pc: HookPc, status: TaskStatus): TaskStatus {
    if pc.Created? then AwaitingApproval else if pc.Cleaned? then Running else status
  }

  /** The handler's transaction: only the one that finds the row pending goes on. */
  function RespondStep(s: State, h: HandlerId, id: ApprovalId, d: Decision): State {
    if id !in s.approvals then s.(handlers := s.handlers[h := NotFound])
    else if s.approvals[id].row.status != Pending then s.(handlers := s.handlers[h := Conflict])
    else s.(approvals := s.approvals[id := s.approvals[id].(row := AnsweredRow(d))],
            handlers := s.handlers[h := Answering(id, d, Committed)])
  }

  /** SET the decision key. */
  function Store(a: Approval, d: Decision): Approval {
    a.(key := Some(d))
  }

  /** PUBLISH the wake message to whoever is subscribed. */
  function Publish(a: Approval): Approval {
    if a.channel.Some? then a.(channel := Some(a.channel.value + 1)) else a
  }

  function HandlerStep(s: State, h: HandlerId): State
    requires h in s.handlers && s.handlers[h].Answering? && s.handlers[h].approval in s.approvals
  {
    var me := s.handlers[h];
    var a := s.approvals[me.approval];
    match me.pc
    case Committed =>
      s.(approvals := s.approvals[me.approval := Store(a, me.decision)], handlers := s.handlers[h := me.(pc := Stored)])
    case Stored =>
      s.(approvals := s.approvals[me.approval := Publish(a)],
         handlers := s.handlers[h := me.(pc := Notified(if a.channel.Some? then 1 else 0))])
    case Notified(_) => s
  }

  function Step(s: State, action: Action): State {
    match action
    case Request(id) =>
      if id in s.approvals then s
      else s.(approvals := s.approvals[id := Approval(Row(Pending, None), None, None, false, Created)])
    case HookRuns(id) =>
      if id in s.approvals
      then s.(approvals := s.approvals[id := HookStep(s.approvals[id])],
              taskStatus := StatusAfter(s.approvals[id].pc, s.taskStatus))
      else s
    case Expire(id) =>
      if id in s.approvals && s.approvals[id].pc.Sleeping?
      then s.(approvals := s.approvals[id := s.approvals[id].(pc := Closing(Broken(TimedOut)))])
      else s
    case Respond(h, id, d) =>
      if h in s.handlers then s else RespondStep(s, h, id, d)
    case HandlerRuns(h) =>
      if h in s.handlers && s.handlers[h].Answering? && s.handlers[h].approval in s.approvals
      then HandlerStep(s, h) else s
  }

  function Play(s: State, schedule: seq<Action>): State {
    if schedule == [] then s
    else Step(Play(s, schedule[..|schedule| - 1]), schedule[|schedule| - 1])
  }

  // ------------------------------------------------------------- the gate itself

  /**
   The gate of one process together with the Redis keys and channels it uses. Its
   methods run without interruption, except that a wait may see one resolve pass by.
   */
  class PermissionGate {
    var pending: set<ApprovalId>
    var keys: map<ApprovalId, Decision>
    var channels: map<ApprovalId, nat>

    constructor ()
      ensures pending == {} && keys == map[] && channels == map[]
    {
      pending, keys, channels := {}, map[], map[];
    }

    /** What the machine stores under the id, for a row and a hook at some point. */
    ghost function View(id: ApprovalId, row: Row, pc: HookPc): Approval
      reads this
    {
      var decision := if id in keys then Some(keys[id]) else None;
      var channel := if id in channels then Some(channels[id]) else None;
      Approval(row, decision, channel, id in pending, pc)
    }

    ghost predicate Valid()
      reads this
    {
      pending <= channels.Keys
    }

    /** Subscribes, then enters the approval: two steps of the hook. */
    method Register(id: ApprovalId)
      requires Valid()
      modifies this
      ensures Valid()
      ensures forall row :: View(id, row, Registered) == HookStep(HookStep(old(View(id, row, Flagged))))
      ensures forall other, row, pc :: other != id ==> View(other, row, pc) == old(View(other, row, pc))
    {
      channels := channels[id := 0];
      pending := pending + {id};
    }

    /** SET, then PUBLISH: two steps of the handler; true when somebody was subscribed. */
    method Resolve(id: ApprovalId, d: Decision) returns (heard: bool)
      requires Valid()
      modifies this`keys, this`channels
      ensures Valid() && heard == (id in old(channels))
      ensures forall row, pc :: View(id, row, pc) == Publish(Store(old(View(id, row, pc)), d))
      ensures keys == old(keys)[id := d]
      ensures channels == if heard then old(channels)[id := old(channels)[id] + 1] else old(channels)
    {
      keys := keys[id := d];
      heard := id in channels;
      if heard { channels := channels[id := channels[id] + 1]; }
    }

    /**
     Pops the registration, looks at the key, and sleeps on the channel when it is not
     set; `passing` is the resolve that runs meanwhile, if any. The subscription is
     closed on every way out.
     */
    method WaitForDecision(id: ApprovalId, passing: Option<Decision>) returns (outcome: Outcome)
      requires Valid()
      modifies this
      ensures Valid() && pending == old(pending) - {id}
      ensures
        if id !in old(pending) then outcome == Broken(NotRegistered) && keys == old(keys) && channels == old(channels)
        else
          && channels == old(channels) - {id}
          && if id in old(keys) then outcome == Decided(old(keys)[id]) && keys == old(keys)
             else if passing.Some? then outcome == Decided(passing.value) && keys == old(keys)[id := passing.value]
             else keys == old(keys) && outcome == Broken(if old(channels)[id] > 0 then NoDecision else TimedOut)
    {
      if id !in pending { return Broken(NotRegistered); }
      pending := pending - {id};
      if id in keys {
        outcome := Decided(keys[id]);
      } else {
        if passing.Some? { var _ := Resolve(id, passing.value); }
        if channels[id] > 0 {
          channels := channels[id := channels[id] - 1];
          outcome := if id in keys then Decided(keys[id]) else Broken(NoDecision);
        } else {
          outcome := Broken(TimedOut);
        }
      }
      channels := channels - {id};
    }

    method Cleanup(id: ApprovalId)
      requires Valid()
      modifies this`keys
      ensures Valid() && keys == old(keys) - {id}
    {
      keys := keys - {id};
    }
  }

  // ---------------------------------------------------------------- invariant

  /** The hook has not deleted its decision key yet. */
  predicate KeyLive(pc: HookPc) {
    !pc.Cleaned? && !pc.Restored? && !pc.Returned?
  }

  predicate Listening(pc: HookPc) {
    pc.Subscribed? || pc.Registered? || pc.Announced? || pc.Checking? || pc.Sleeping? || pc.Woken? || pc.Closing?
  }

  ghost predicate ApprovalOk(a: Approval) {
    && (a.channel.Some? <==> Listening(a.pc))
    && (a.pending <==> a.pc.Registered? || a.pc.Announced?)
    && (a.key.Some? ==> a.row == AnsweredRow(a.key.value))
    && ((a.channel.Some? && a.channel.value > 0) || a.pc.Woken? ==> a.key.Some?)
    && (a.pc.Closing? && a.pc.outcome.Decided? ==> a.row == AnsweredRow(a.pc.outcome.decision))
    && (a.pc.Closing? && a.pc.outcome.Broken? ==> a.pc.outcome.error == TimedOut)
    && (a.pc.Raised? ==> a.pc.error == TimedOut)
    && (a.pc.Consumed? || a.pc.Cleaned? || a.pc.Restored? ==> a.row == AnsweredRow(a.pc.decision))
    && (a.pc.Returned? ==> exists d :: a.row == AnsweredRow(d) && a.pc.verdict == VerdictOf(d))
    && (!KeyLive(a.pc) ==> a.key == None)
  }

  /** The hook has seen a decision. */
  predicate HasSeen(a: Approval) {
    || (a.channel.Some? && a.channel.value > 0) || a.pc.Woken? || a.key.Some?
    || (a.pc.Closing? && a.pc.outcome.Decided?) || a.pc.Consumed? || !KeyLive(a.pc)
  }

  /** A hook that waits for a message and has none. */
  predicate Blocked(a: Approval) {
    a.pc.Sleeping? && (a.channel.None? || a.channel.value == 0)
  }

  ghost predicate AnswerOk(a: Approval, d: Decision, pc: HandlerPc) {
    && a.row == AnsweredRow(d)
    && (!pc.Committed? && KeyLive(a.pc) ==> a.key.Some?)
    && (Blocked(a) ==> !pc.Notified?)
    && (pc.Committed? ==> !HasSeen(a))
  }

  /** `h` is a handler whose transaction moved the row of `id` out of Pending. */
  predicate Answers(s: State, h: HandlerId, id: ApprovalId) {
    h in s.handlers && s.handlers[h].Answering? && s.handlers[h].approval == id
  }

  ghost predicate Inv(s: State) {
    && (forall id :: id in s.approvals ==> ApprovalOk(s.approvals[id]))
    && (forall h, id :: Answers(s, h, id) ==>
          id in s.approvals && AnswerOk(s.approvals[id], s.handlers[h].decision, s.handlers[h].pc))
    && (forall id :: id in s.approvals && s.approvals[id].row.status != Pending ==> exists h :: Answers(s, h, id))
    && (forall h, g, id :: Answers(s, h, id) && Answers(s, g, id) ==> h == g)
  }

  lemma HookStepLocal(a: Approval)
    requires ApprovalOk(a)
    ensures ApprovalOk(HookStep(a)) && HookStep(a).row == a.row
    ensures forall d, pc :: AnswerOk(a, d, pc) ==> AnswerOk(HookStep(a), d, pc)
  {
  }

  /** Changing one approval without touching its row or any handler keeps the invariant. */
  lemma UpdateApproval(s: State, t: State, id: ApprovalId)
    requires Inv(s) && id in s.approvals && id in t.approvals
    requires t.approvals == s.approvals[id := t.approvals[id]] && t.handlers == s.handlers
    requires t.approvals[id].row == s.approvals[id].row && ApprovalOk(t.approvals[id])
    requires forall d, pc :: AnswerOk(s.approvals[id], d, pc) ==> AnswerOk(t.approvals[id], d, pc)
    ensures Inv(t)
  {
    assert forall h, i :: Answers(t, h, i) <==> Answers(s, h, i);
  }

  /** A handler that is refused changes nothing that matters. */
  lemma RefusalKeepsInv(s: State, h: HandlerId, refusal: Handler)
    requires Inv(s) && h !in s.handlers && !refusal.Answering?
    ensures Inv(s.(handlers := s.handlers[h := refusal]))
  {
    var t := s.(handlers := s.handlers[h := refusal]);
    assert forall g, i :: Answers(t, g, i) <==> Answers(s, g, i);
  }

  lemma AnswerKeepsInv(s: State, h: HandlerId, id: ApprovalId, d: Decision)
    requires Inv(s) && h !in s.handlers && id in s.approvals && s.approvals[id].row.status == Pending
    ensures Inv(RespondStep(s, h, id, d))
  {
    var t := RespondStep(s, h, id, d);
    assert forall g, i :: g != h ==> (Answers(t, g, i) <==> Answers(s, g, i));
    assert Answers(t, h, id);
    forall i | i in t.approvals && t.approvals[i].row.status != Pending
      ensures exists g :: Answers(t, g, i)
    {
      if i != id {
        var g :| Answers(s, g, i);
        assert Answers(t, g, i);
      }
    }
  }

  lemma RespondKeepsInv(s: State, h: HandlerId, id: ApprovalId, d: Decision)
    requires Inv(s) && h !in s.handlers
    ensures Inv(RespondStep(s, h, id, d))
  {
    if id !in s.approvals {
      RefusalKeepsInv(s, h, NotFound);
    } else if s.approvals[id].row.status != Pending {
      RefusalKeepsInv(s, h, Conflict);
    } else {
      AnswerKeepsInv(s, h, id, d);
    }
  }

  lemma HandlerKeepsInv(s: State, h: HandlerId)
    requires Inv(s) && h in s.handlers && s.handlers[h].Answering? && s.handlers[h].approval in s.approvals
    ensures Inv(HandlerStep(s, h))
  {
    var t := HandlerStep(s, h);
    var id := s.handlers[h].approval;
    assert Answers(s, h, id);
    assert forall g, i :: Answers(t, g, i) <==> Answers(s, g, i);
    forall i | i in t.approvals && t.approvals[i].row.status != Pending
      ensures exists g :: Answers(t, g, i)
    {
      var g :| Answers(s, g, i);
      assert Answers(t, g, i);
    }
  }

  lemma StepKeepsInv(s: State, action: Action)
    requires Inv(s)
    ensures Inv(Step(s, action))
  {
    match action
    case Request(id) =>
      assert forall h, i :: Answers(Step(s, action), h, i) <==> Answers(s, h, i);
    case HookRuns(id) =>
      if id in s.approvals {
        HookStepLocal(s.approvals[id]);
        UpdateApproval(s, Step(s, action), id);
      }
    case Expire(id) =>
      if id in s.approvals && s.approvals[id].pc.Sleeping? {
        UpdateApproval(s, Step(s, action), id);
      }
    case Respond(h, id, d) =>
      if h !in s.handlers { RespondKeepsInv(s, h, id, d); }
    case HandlerRuns(h) =>
      if h in s.handlers && s.handlers[h].Answering? && s.handlers[h].approval in s.approvals { HandlerKeepsInv(s, h); }
  }

  lemma {:induction false} PlayKeepsInv(s: State, schedule: seq<Action>)
    requires Inv(s)
    ensures Inv(Play(s, schedule))
  {
    if schedule != [] {
      PlayKeepsInv(s, schedule[..|schedule| - 1]);
      StepKeepsInv(Play(s, schedule[..|schedule| - 1]), schedule[|schedule| - 1]);
    }
  }

  // ------------------------------------------------------------- main results

  /**
   No lost wake-up: after any schedule, a hook that sleeps on an empty channel
   waits for somebody. Either nobody has answered, or the one handler that
   answered has not published its wake message yet.
   */
  lemma NoLostWakeup(schedule: seq<Action>, id: ApprovalId)
    ensures
      var s := Play(INITIAL, schedule);
      id in s.approvals && Blocked(s.approvals[id]) ==>
        && (forall h :: Answers(s, h, id) ==> !s.handlers[h].pc.Notified?)
        && (s.approvals[id].row.status != Pending ==> exists h :: Answers(s, h, id) && !s.handlers[h].pc.Notified?)
  {
    PlayKeepsInv(INITIAL, schedule);
  }

  /** Neither internal error of the gate can be raised: a wake-up always finds its decision. */
  lemma OnlyTimeoutsRaise(schedule: seq<Action>, id: ApprovalId)
    ensures
      var s := Play(INITIAL, schedule);
      id in s.approvals && s.approvals[id].pc.Raised? ==> s.approvals[id].pc.error == TimedOut
  {
    PlayKeepsInv(INITIAL, schedule);
  }

  /**
   What the agent is told is what the row records: allow exactly when it says
   APPROVED, and otherwise the reason built from the payload stored in it.
   */
  lemma VerdictMatchesRow(schedule: seq<Action>, id: ApprovalId)
    ensures
      var s := Play(INITIAL, schedule);
      id in s.approvals && s.approvals[id].pc.Returned? ==>
        var a := s.approvals[id];
        && a.row.status != Pending
        && (a.pc.verdict == Allow <==> a.row.status == Approved)
        && (a.row.status == Denied ==>
              a.pc.verdict == Deny(DenyReason(if a.row.response.Some? then a.row.response.value else map[])))
  {
    PlayKeepsInv(INITIAL, schedule);
  }

  /** The verdict is the decision of the one handler whose transaction found the row pending. */
  lemma VerdictIsTheAnswer(schedule: seq<Action>, id: ApprovalId)
    ensures
      var s := Play(INITIAL, schedule);
      id in s.approvals && s.approvals[id].pc.Returned? ==>
        && (exists h :: Answers(s, h, id))
        && (forall h :: Answers(s, h, id) ==> s.approvals[id].pc.verdict == VerdictOf(s.handlers[h].decision))
        && (forall h, g :: Answers(s, h, id) && Answers(s, g, id) ==> h == g)
  {
    PlayKeepsInv(INITIAL, schedule);
    var s := Play(INITIAL, schedule);
    if id in s.approvals && s.approvals[id].pc.Returned? {
      var a := s.approvals[id];
      var d :| a.row == AnsweredRow(d) && a.pc.verdict == VerdictOf(d);
      forall h | Answers(s, h, id)
        ensures s.handlers[h].decision == d
      {
        assert a.row == AnsweredRow(s.handlers[h].decision);
      }
    }
  }

  /** A hook that has returned leaves nothing behind: no decision key, no subscription, no registration. */
  lemma NothingIsLeftBehind(schedule: seq<Action>, id: ApprovalId)
    ensures
      var s := Play(INITIAL, schedule);
      id in s.approvals && s.approvals[id].pc.Returned? ==>
        var a := s.approvals[id];
        a.key == None && a.channel == None && !a.pending
  {
    PlayKeepsInv(INITIAL, schedule);
  }

  /** The text a denial shows: what the user wrote, cut to 500 characters, or else the default. */
  predicate Reasons(payload: Payload, reason: string) {
    if "text" in payload && payload["text"] != "" then
      reason <= payload["text"] && |reason| == if |payload["text"]| < 500 then |payload["text"]| else 500
    else reason == "Tool use denied by user."
  }

  /** The row says what the decision was, and keeps its payload unless that is empty. */
  predicate Records(row: Row, d: Decision) {
    && row.status == (if d.approved then Approved else Denied)
    && row.response == (if d.payload == map[] then None else Some(d.payload))
  }

  predicate Conveys(verdict: Verdict, d: Decision) {
    if d.approved then verdict == Allow else verdict.Deny? && Reasons(d.payload, verdict.reason)
  }

  lemma VerdictConveys(d: Decision)
    ensures Conveys(VerdictOf(d), d) && Records(AnsweredRow(d), d)
  {
  }

  /**
   What the user answered is what the row records and what the agent is told: allow
   exactly when approved, and otherwise the user's own words, up to 500 characters.
   */
  lemma DenialCarriesTheText(schedule: seq<Action>, h: HandlerId, id: ApprovalId)
    requires Answers(Play(INITIAL, schedule), h, id)
    ensures
      var s := Play(INITIAL, schedule);
      var d := s.handlers[h].decision;
      && id in s.approvals && Records(s.approvals[id].row, d)
      && (s.approvals[id].pc.Returned? ==> Conveys(s.approvals[id].pc.verdict, d))
  {
    var s := Play(INITIAL, schedule);
    PlayKeepsInv(INITIAL, schedule);
    VerdictConveys(s.handlers[h].decision);
    if s.approvals[id].pc.Returned? { VerdictFromRow(s.approvals[id], s.handlers[h].decision); }
  }

  /** A handler goes on exactly when it finds the row pending; otherwise it is told why, and changes nothing. */
  lemma FirstAnswerWins(s: State, h: HandlerId, id: ApprovalId, d: Decision)
    requires h !in s.handlers
    ensures
      var t := Step(s, Respond(h, id, d));
      && h in t.handlers && t.taskStatus == s.taskStatus
      && (t.handlers[h] == NotFound <==> id !in s.approvals)
      && (t.handlers[h] == Conflict <==> id in s.approvals && s.approvals[id].row.status != Pending)
      && (t.handlers[h] == Answering(id, d, Committed) <==> id in s.approvals && s.approvals[id].row.status == Pending)
      && (!t.handlers[h].Answering? ==> t.approvals == s.approvals)
      && (t.handlers[h].Answering? ==>
            && Records(t.approvals[id].row, d)
            && t.approvals == s.approvals[id := s.approvals[id].(row := t.approvals[id].row)])
  {
  }

  /** A row leaves Pending at most once: whatever happens later, an answered row stays as it is. */
  lemma {:induction false} AnsweredRowIsFinal(s: State, schedule: seq<Action>, id: ApprovalId)
    requires id in s.approvals && s.approvals[id].row.status != Pending
    ensures id in Play(s, schedule).approvals
    ensures Play(s, schedule).approvals[id].row == s.approvals[id].row
  {
    if schedule != [] {
      AnsweredRowIsFinal(s, schedule[..|schedule| - 1], id);
    }
  }

  /** An upper bound on the steps a hook still has to take. */
  function StepsLeft(pc: HookPc): nat {
    match pc
    case Created => 12
    case Flagged => 11
    case Subscribed => 10
    case Registered => 9
    case Announced => 8
    case Checking => 7
    case Sleeping => 6
    case Woken => 5
    case Closing(_) => 4
    case Consumed(_) => 3
    case Cleaned(_) => 2
    case Restored(_) => 1
    case Returned(_) => 0
    case Raised(_) => 0
  }

  predicate HasTimedOut(pc: HookPc) {
    pc.Raised? || (pc.Closing? && pc.outcome.Broken?)
  }

  lemma AnsweredHookAdvances(a: Approval, d: Decision, pc: HandlerPc)
    requires ApprovalOk(a) && AnswerOk(a, d, pc) && pc.Notified? && !HasTimedOut(a.pc)
    ensures !HasTimedOut(HookStep(a).pc)
    ensures StepsLeft(HookStep(a).pc) < StepsLeft(a.pc) || a.pc.Returned?
    ensures a.pc.Returned? ==> HookStep(a) == a
  {
  }

  function Alone(id: ApprovalId, n: nat): seq<Action> {
    seq(n, i => HookRuns(id))
  }

  lemma {:induction false} AnsweredHookRunsAlone(s: State, h: HandlerId, id: ApprovalId, n: nat)
    requires Inv(s) && Answers(s, h, id) && s.handlers[h].pc.Notified?
    requires !HasTimedOut(s.approvals[id].pc)
    ensures
      var t := Play(s, Alone(id, n));
      && Inv(t) && t.handlers == s.handlers && id in t.approvals
      && !HasTimedOut(t.approvals[id].pc)
      && (t.approvals[id].pc.Returned? || StepsLeft(t.approvals[id].pc) + n <= StepsLeft(s.approvals[id].pc))
  {
    if n > 0 {
      AnsweredHookRunsAlone(s, h, id, n - 1);
      assert Alone(id, n)[..n - 1] == Alone(id, n - 1);
      var t := Play(s, Alone(id, n - 1));
      assert Answers(t, h, id);
      StepKeepsInv(t, HookRuns(id));
      AnsweredHookAdvances(t.approvals[id], s.handlers[h].decision, s.handlers[h].pc);
    }
  }

  lemma VerdictFromRow(a: Approval, d: Decision)
    requires ApprovalOk(a) && a.pc.Returned? && a.row == AnsweredRow(d)
    ensures a.pc.verdict == VerdictOf(d)
  {
    var other :| a.row == AnsweredRow(other) && a.pc.verdict == VerdictOf(other);
  }

  /**
   Once the answering handler has published, the hook needs nobody else: twelve of
   its own steps, from wherever it stands, bring it to the verdict the user gave.
   Only a wait that already ran into its timeout is beyond reach.
   */
  lemma {:induction false} AnsweredHookReturns(s: State, h: HandlerId, id: ApprovalId, n: nat)
    requires n >= 12
    requires Inv(s) && Answers(s, h, id) && s.handlers[h].pc.Notified?
    requires !HasTimedOut(s.approvals[id].pc)
    ensures
      var t := Play(s, Alone(id, n));
      id in t.approvals && t.approvals[id].pc == Returned(VerdictOf(s.handlers[h].decision))
  {
    AnsweredHookRunsAlone(s, h, id, n);
    var t := Play(s, Alone(id, n));
    assert Answers(t, h, id);
    VerdictFromRow(t.approvals[id], s.handlers[h].decision);
  }

  /** The hook has shown RUNNING again. */
  predicate Shows(a: Approval, status: TaskStatus) {
    a.pc.Restored? || a.pc.Returned? ==> status == Running
  }

  lemma {:induction false} AloneShowsRunning(s: State, id: ApprovalId, n: nat)
    requires id in s.approvals && Shows(s.approvals[id], s.taskStatus)
    ensures id in Play(s, Alone(id, n)).approvals
    ensures Shows(Play(s, Alone(id, n)).approvals[id], Play(s, Alone(id, n)).taskStatus)
  {
    if n > 0 {
      AloneShowsRunning(s, id, n - 1);
      assert Alone(id, n)[..n - 1] == Alone(id, n - 1);
    }
  }

  /** Transaction, SET and PUBLISH of one handler. */
  function Answered(s: State, h: HandlerId, id: ApprovalId, d: Decision): State {
    Step(Step(Step(s, Respond(h, id, d)), HandlerRuns(h)), HandlerRuns(h))
  }

  lemma AnsweredNotifies(s: State, h: HandlerId, id: ApprovalId, d: Decision)
    requires Inv(s) && h !in s.handlers && id in s.approvals && s.approvals[id].row.status == Pending
    ensures
      var t := Answered(s, h, id, d);
      && Inv(t) && Answers(t, h, id) && t.handlers[h].decision == d && t.handlers[h].pc.Notified?
      && t.taskStatus == s.taskStatus
      && (t.handlers[h].pc.receivers == 1 <==> s.approvals[id].channel.Some?)
      && t.approvals[id].pc == s.approvals[id].pc && t.approvals[id].key == Some(d)
  {
    StepKeepsInv(s, Respond(h, id, d));
    var t := Step(s, Respond(h, id, d));
    assert t.handlers[h] == Answering(id, d, Committed) && id in t.approvals;
    StepKeepsInv(t, HandlerRuns(h));
    StepKeepsInv(Step(t, HandlerRuns(h)), HandlerRuns(h));
  }

  /**
   An answer always gets through: wherever the hook stands, as long as its row is
   pending and its wait has not timed out, one handler and twelve steps of the hook
   bring the agent exactly what the user decided, with the task shown as RUNNING again.
   */
  lemma {:induction false} AnswerGetsThrough(s: State, h: HandlerId, id: ApprovalId, d: Decision)
    requires Inv(s) && h !in s.handlers && id in s.approvals
    requires s.approvals[id].row.status == Pending && !HasTimedOut(s.approvals[id].pc)
    ensures
      var t := Play(Answered(s, h, id, d), Alone(id, 12));
      && id in t.approvals && t.approvals[id].pc.Returned? && Conveys(t.approvals[id].pc.verdict, d)
      && Records(t.approvals[id].row, d) && t.taskStatus == Running
  {
    var u := Answered(s, h, id, d);
    AnsweredNotifies(s, h, id, d);
    AnsweredHookReturns(u, h, id, 12);
    AnsweredHookRunsAlone(u, h, id, 12);
    VerdictConveys(d);
    PendingIsNotDone(s.approvals[id]);
    AloneShowsRunning(u, id, 12);
    var t := Play(u, Alone(id, 12));
    assert Answers(t, h, id);
  }

  /** A hook whose row is pending has consumed no decision. */
  lemma PendingIsNotDone(a: Approval)
    requires ApprovalOk(a) && a.row.status == Pending
    ensures !a.pc.Consumed? && !a.pc.Cleaned? && !a.pc.Restored? && !a.pc.Returned?
  {
  }

  /** A wait looks for its registration, then for its decision, then for a wake-up, of which it takes one. */
  lemma WaitLooksInOrder(a: Approval)
    ensures
      a.pc.Announced? ==>
      HookStep(a) == if a.pending then a.(pending := false, pc := Checking) else a.(pc := Raised(NotRegistered))
    ensures
      a.pc.Sleeping? && a.channel.Some? && a.channel.value > 0 ==>
      HookStep(a) == a.(channel := Some(a.channel.value - 1), pc := Woken)
    ensures a.pc.Woken? && a.key.None? ==> HookStep(HookStep(a)).pc == Raised(NoDecision)
    ensures
      (a.pc.Checking? || a.pc.Woken?) && a.key.Some? ==>
      HookStep(HookStep(a)) == a.(channel := None, pc := Consumed(a.key.value))
  {
  }

  /** A wait that runs into its timeout raises, closes its subscription and leaves the row as it is. */
  lemma TimeoutRaises(s: State, id: ApprovalId)
    requires id in s.approvals && s.approvals[id].pc.Sleeping?
    ensures
      var t := Step(Step(s, Expire(id)), HookRuns(id));
      && t.approvals[id].pc == Raised(TimedOut) && t.approvals[id].channel == None
      && t.approvals[id].row == s.approvals[id].row && t.approvals[id].key == s.approvals[id].key
      && t.taskStatus == s.taskStatus && t.handlers == s.handlers
  {
  }

  lemma StrandedStep(s: State, action: Action, h: HandlerId, id: ApprovalId)
    requires Inv(s) && Answers(s, h, id) && Blocked(s.approvals[id])
    requires action != HandlerRuns(h) && action != Expire(id)
    ensures
      var t := Step(s, action);
      Answers(t, h, id) && t.handlers[h] == s.handlers[h] && id in t.approvals && Blocked(t.approvals[id])
  {
    match action
    case Request(_) =>
    case HookRuns(_) =>
    case Expire(_) =>
    case Respond(_, _, _) =>
    case HandlerRuns(g) => assert Answers(s, g, id) ==> g == h;
  }

  /**
   And it is only that handler: when it stops between its transaction and its
   PUBLISH, no amount of other activity wakes the hook, short of its timeout.
   */
  lemma {:induction false} StrandedWithoutPublish(s: State, schedule: seq<Action>, h: HandlerId, id: ApprovalId)
    requires Inv(s) && Answers(s, h, id) && Blocked(s.approvals[id])
    requires HandlerRuns(h) !in schedule && Expire(id) !in schedule
    ensures
      var t := Play(s, schedule);
      Inv(t) && Answers(t, h, id) && t.handlers[h] == s.handlers[h] && Blocked(t.approvals[id])
  {
    if schedule != [] {
      var t := Play(s, schedule[..|schedule| - 1]);
      var last := schedule[|schedule| - 1];
      StrandedWithoutPublish(s, schedule[..|schedule| - 1], h, id);
      StepKeepsInv(t, last);
      StrandedStep(t, last, h, id);
    }
  }

  // ----------------------------------------------------- the status of the task

  /** The hook has flipped the task to AWAITING_APPROVAL and not flipped it back. */
  predicate Awaits(pc: HookPc) {
    !pc.Created? && !pc.Restored? && !pc.Returned?
  }

  ghost predicate SomeoneAwaits(s: State) {
    exists id :: id in s.approvals && Awaits(s.approvals[id].pc)
  }

  ghost predicate AtMostOneAwaits(s: State) {
    forall i, j :: i in s.approvals && j in s.approvals && Awaits(s.approvals[i].pc) && Awaits(s.approvals[j].pc) ==>
      i == j
  }

  /** No two gated tool calls of the run are in flight together. */
  ghost predicate Sequential(schedule: seq<Action>) {
    forall n :: 0 <= n <= |schedule| ==> AtMostOneAwaits(Play(INITIAL, schedule[..n]))
  }

  lemma AwaitsStays(s: State, action: Action, id: ApprovalId)
    requires id in s.approvals && Awaits(s.approvals[id].pc)
    requires !(action == HookRuns(id) && s.approvals[id].pc.Cleaned?)
    ensures id in Step(s, action).approvals && Awaits(Step(s, action).approvals[id].pc)
  {
  }

  lemma StatusStep(s: State, action: Action)
    requires s.taskStatus == AwaitingApproval ==> SomeoneAwaits(s)
    ensures Step(s, action).taskStatus == AwaitingApproval ==> SomeoneAwaits(Step(s, action))
  {
    var t := Step(s, action);
    if t.taskStatus == AwaitingApproval {
      if s.taskStatus == AwaitingApproval {
        var id :| id in s.approvals && Awaits(s.approvals[id].pc);
        AwaitsStays(s, action, id);
      } else {
        assert Awaits(t.approvals[action.id].pc);
      }
    }
  }

  lemma SequentialStatusStep(s: State, action: Action)
    requires AtMostOneAwaits(s) && AtMostOneAwaits(Step(s, action))
    requires SomeoneAwaits(s) ==> s.taskStatus == AwaitingApproval
    ensures SomeoneAwaits(Step(s, action)) ==> Step(s, action).taskStatus == AwaitingApproval
  {
    var t := Step(s, action);
    if id :| id in t.approvals && Awaits(t.approvals[id].pc) {
      if id in s.approvals && Awaits(s.approvals[id].pc) {
        assert s.taskStatus == AwaitingApproval;
        if action.HookRuns? && action.id != id && action.id in s.approvals {
          assert !Awaits(s.approvals[action.id].pc);
        }
      }
    }
  }

  /**
   A task shown as AWAITING_APPROVAL always has a hook that waits or has timed out;
   and a waiting hook is always shown, as long as tool calls are made one at a time.
   */
  lemma {:induction false} StatusShowsTheWait(schedule: seq<Action>)
    ensures Play(INITIAL, schedule).taskStatus == AwaitingApproval ==> SomeoneAwaits(Play(INITIAL, schedule))
    ensures Sequential(schedule) ==>
      (SomeoneAwaits(Play(INITIAL, schedule)) <==> Play(INITIAL, schedule).taskStatus == AwaitingApproval)
  {
    if schedule != [] {
      var n := |schedule| - 1;
      StatusShowsTheWait(schedule[..n]);
      StatusStep(Play(INITIAL, schedule[..n]), schedule[n]);
      if Sequential(schedule) {
        assert schedule[..|schedule|] == schedule;
        forall k | 0 <= k <= n
          ensures AtMostOneAwaits(Play(INITIAL, schedule[..n][..k]))
        {
          assert schedule[..n][..k] == schedule[..k];
        }
        assert AtMostOneAwaits(Play(INITIAL, schedule[..n]));
        SequentialStatusStep(Play(INITIAL, schedule[..n]), schedule[n]);
      }
    }
  }

  /** The status of the task says whether some hook waits. */
  ghost predicate Shown(s: State) {
    SomeoneAwaits(s) <==> s.taskStatus == AwaitingApproval
  }

  /** A hook returns, and shows RUNNING, while another still waits. */
  predicate HidesAWait(s: State, action: Action) {
    && action.HookRuns? && action.id in s.approvals && s.approvals[action.id].pc.Cleaned?
    && exists other :: other in s.approvals && other != action.id && Awaits(s.approvals[other].pc)
  }

  /** With parallel tool calls: the status stops showing a wait exactly at such a return. */
  lemma StatusStopsShowingExactly(s: State, action: Action)
    requires Shown(s)
    ensures !Shown(Step(s, action)) <==> HidesAWait(s, action)
  {
    var t := Step(s, action);
    StatusStep(s, action);
    if HidesAWait(s, action) {
      var other :| other in s.approvals && other != action.id && Awaits(s.approvals[other].pc);
      AwaitsStays(s, action, other);
      assert t.taskStatus == Running;
    } else if id :| id in t.approvals && Awaits(t.approvals[id].pc) {
      if id in s.approvals && Awaits(s.approvals[id].pc) && action.HookRuns? && action.id in s.approvals {
        assert s.taskStatus == AwaitingApproval;
        var acting := action.id;
        assert s.approvals[acting].pc.Cleaned? ==> id == acting;
      }
    }
  }

  /** So over a whole run, however many hooks overlap, the status shows the waits as long as no such return happens. */
  lemma {:induction false} ShownUntilHidden(schedule: seq<Action>)
    requires forall n :: 0 <= n < |schedule| ==> !HidesAWait(Play(INITIAL, schedule[..n]), schedule[n])
    ensures Shown(Play(INITIAL, schedule))
  {
    if schedule != [] {
      var before := schedule[..|schedule| - 1];
      forall n | 0 <= n < |before|
        ensures !HidesAWait(Play(INITIAL, before[..n]), before[n])
      {
        assert before[..n] == schedule[..n] && before[n] == schedule[n];
      }
      ShownUntilHidden(before);
      StatusStopsShowingExactly(Play(INITIAL, before), schedule[|schedule| - 1]);
    }
  }

  lemma Then(schedule: seq<Action>, action: Action) returns (longer: seq<Action>)
    ensures longer == schedule + [action] && Play(INITIAL, longer) == Step(Play(INITIAL, schedule), action)
  {
    longer := schedule + [action];
    assert longer[..|schedule|] == schedule;
  }

  /** A hook runs until it is announced, and is answered. */
  lemma AnsweredRun(d: Decision) returns (schedule: seq<Action>)
    ensures
      Play(INITIAL, schedule) == State(
        map[0 := Approval(AnsweredRow(d), Some(d), Some(0), true, Announced)],
        map[0 := Answering(0, d, Stored)],
        AwaitingApproval)
  {
    schedule := Then([], Request(0));
    schedule := Then(schedule, HookRuns(0));
    schedule := Then(schedule, HookRuns(0));
    schedule := Then(schedule, HookRuns(0));
    schedule := Then(schedule, HookRuns(0));
    assert Play(INITIAL, schedule).approvals[0] == Approval(Row(Pending, None), None, Some(0), true, Announced);
    schedule := Then(schedule, Respond(0, 0, d));
    schedule := Then(schedule, HandlerRuns(0));
    var s := Play(INITIAL, schedule);
    assert s.approvals == map[0 := Approval(AnsweredRow(d), Some(d), Some(0), true, Announced)];
    assert s.handlers == map[0 := Answering(0, d, Stored)];
  }

  /** It consumes the decision and deletes the key. */
  lemma CleanedRun(d: Decision) returns (schedule: seq<Action>)
    ensures
      Play(INITIAL, schedule) == State(
        map[0 := Approval(AnsweredRow(d), None, None, false, Cleaned(d))],
        map[0 := Answering(0, d, Stored)],
        AwaitingApproval)
  {
    schedule := AnsweredRun(d);
    schedule := Then(schedule, HookRuns(0));
    schedule := Then(schedule, HookRuns(0));
    schedule := Then(schedule, HookRuns(0));
    schedule := Then(schedule, HookRuns(0));
    assert Play(INITIAL, schedule).approvals == map[0 := Approval(AnsweredRow(d), None, None, false, Cleaned(d))];
  }

  /** And two hooks suffice: after this run the first returns, and the second waits unseen. */
  lemma HiddenWait(d: Decision) returns (schedule: seq<Action>)
    ensures
      var s := Play(INITIAL, schedule);
      Shown(s) && HidesAWait(s, HookRuns(0)) && !Shown(Step(s, HookRuns(0)))
  {
    schedule := CleanedRun(d);
    schedule := Then(schedule, Request(1));
    schedule := Then(schedule, HookRuns(1));
    var s := Play(INITIAL, schedule);
    assert s.taskStatus == AwaitingApproval && 1 in s.approvals && Awaits(s.approvals[1].pc);
    StatusStopsShowingExactly(s, HookRuns(0));
  }
}
