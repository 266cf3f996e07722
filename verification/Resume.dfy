/**
 Crash recovery of one task: how the SDK session id travels from the execution that
 chose it, through the task row, to the executions that resume it, and when the task
 description is sent as a first turn. Processes may die between any two steps, and
 the startup sweep may run while other processes are still alive.
 */
module Resume {
  import opened Common

  type SdkId = nat
  type ExecId = nat

  predicate Live(status: TaskStatus) {
    status in {Running, AwaitingApproval, AwaitingUserMessage, Publishing, Fixing}
  }

  // --------------------------------------------------------- executions and crashes

  /**
   An execution of the orchestrator: `resumes` is the id it was told to resume, if
   any; then it commits the id it works under, opens the SDK client with it, sends
   the description unless it resumes, and waits for messages.
   */
  datatype Pc = Starting | Committed(id: SdkId) | Connected(id: SdkId) | Waiting(id: SdkId) | Over
  datatype Exec = Exec(resumes: Option<SdkId>, pc: Pc)

  /** The row, the executions, and history: ids ever committed or opened, and first turns sent under each id. */
  datatype State = State(
    status: TaskStatus,
    rowId: Option<SdkId>,
    execs: map<ExecId, Exec>,
    committed: set<SdkId>,
    connected: set<SdkId>,
    sent: multiset<SdkId>)

  datatype Action =
    | Launch(e: ExecId)
    | Retry(e: ExecId)
    | Sweep(e: ExecId)
    | Advance(e: ExecId, uuid: SdkId)
    | Fail(e: ExecId)
    | WriteStatus(status: TaskStatus)
    | Crash(dead: set<ExecId>)

  const CREATED := State(Running, None, map[], {}, {}, multiset{})

  function SetExec(s: State, e: ExecId, exec: Exec): State {
    s.(execs := s.execs[e := exec])
  }

  /** The next step of an execution; `uuid` is what `uuid4()` would return, fresh. */
  function AdvanceStep(s: State, e: ExecId, uuid: SdkId): State
    requires e in s.execs
  {
    var me := s.execs[e];
    match me.pc
    case Starting =>
      (match me.resumes
       case Some(id) => SetExec(s, e, me.(pc := Committed(id)))
       case None =>
         if uuid in s.committed then s
         else SetExec(s, e, me.(pc := Committed(uuid))).(rowId := Some(uuid), committed := s.committed + {uuid}))
    case Committed(id) => SetExec(s, e, me.(pc := Connected(id))).(connected := s.connected + {id})
    case Connected(id) =>
      var t := SetExec(s, e, me.(pc := Waiting(id)));
      if me.resumes.Some? then t else t.(sent := s.sent + multiset{id})
    case Waiting(_) => SetExec(s, e, me.(pc := Over))
    case Over => s
  }

  function Step(s: State, a: Action): State {
    match a
    case Launch(e) => if e in s.execs then s else SetExec(s, e, Exec(None, Starting))
    case Retry(e) =>
      if e !in s.execs && s.status in {Failed, NeedsHuman}
      then SetExec(s, e, Exec(None, Starting)).(status := Running) else s
    case Sweep(e) =>
      if e in s.execs || !Live(s.status) then s
      else if s.rowId.None? then s.(status := Failed)
      else SetExec(s, e, Exec(s.rowId, Starting))
    case Advance(e, uuid) => if e in s.execs then AdvanceStep(s, e, uuid) else s
    case Fail(e) => if e in s.execs then SetExec(s, e, s.execs[e].(pc := Over)).(status := Failed) else s
    case WriteStatus(status) => s.(status := status)
    case Crash(dead) => s.(execs := map e | e in s.execs :: if e in dead then s.execs[e].(pc := Over) else s.execs[e])
  }

  function Play(s: State, schedule: seq<Action>): State {
    if schedule == [] then s
    else Step(Play(s, schedule[..|schedule| - 1]), schedule[|schedule| - 1])
  }

  // ---------------------------------------------------------------- invariant

  predicate HasId(pc: Pc) {
    pc.Committed? || pc.Connected? || pc.Waiting?
  }

  /** The execution has chosen its id itself and has not sent its first turn yet. */
  predicate Unsent(exec: Exec) {
    exec.resumes.None? && (exec.pc.Committed? || exec.pc.Connected?)
  }

  predicate ExecOk(exec: Exec, committed: set<SdkId>, connected: set<SdkId>, sent: multiset<SdkId>) {
    && (exec.resumes.Some? ==> exec.resumes.value in committed)
    && (HasId(exec.pc) ==>
          && exec.pc.id in committed
          && (exec.resumes.Some? ==> exec.resumes == Some(exec.pc.id))
          && (!exec.pc.Committed? ==> exec.pc.id in connected))
    && (Unsent(exec) ==> exec.pc.id !in sent)
  }

  predicate HistoryOk(s: State) {
    && (s.rowId.Some? ==> s.rowId.value in s.committed)
    && (forall id :: id in s.connected ==> id in s.committed)
    && (forall id :: id in s.sent ==> s.sent[id] == 1 && id in s.connected)
  }

  predicate Inv(s: State) {
    && HistoryOk(s)
    && (forall e :: e in s.execs ==> ExecOk(s.execs[e], s.committed, s.connected, s.sent))
    && (forall d, e :: d in s.execs && e in s.execs && Unsent(s.execs[d]) && Unsent(s.execs[e]) && d != e ==>
          s.execs[d].pc.id != s.execs[e].pc.id)
  }

  lemma AdvanceKeepsExecs(s: State, e: ExecId, uuid: SdkId, d: ExecId)
    requires Inv(s) && e in s.execs && d in s.execs
    ensures
      var t := AdvanceStep(s, e, uuid);
      d in t.execs && ExecOk(t.execs[d], t.committed, t.connected, t.sent)
  {
    assert ExecOk(s.execs[e], s.committed, s.connected, s.sent);
    assert ExecOk(s.execs[d], s.committed, s.connected, s.sent);
  }

  lemma AdvanceKeepsHistory(s: State, e: ExecId, uuid: SdkId)
    requires Inv(s) && e in s.execs
    ensures HistoryOk(AdvanceStep(s, e, uuid))
  {
    assert ExecOk(s.execs[e], s.committed, s.connected, s.sent);
  }

  lemma AdvanceKeepsInv(s: State, e: ExecId, uuid: SdkId)
    requires Inv(s) && e in s.execs
    ensures Inv(AdvanceStep(s, e, uuid))
  {
    AdvanceKeepsHistory(s, e, uuid);
    forall d | d in s.execs { AdvanceKeepsExecs(s, e, uuid, d); }
    forall d | d in s.execs && d != e
      ensures Unsent(s.execs[d]) ==> s.execs[d].pc.id in s.committed
    {
      assert ExecOk(s.execs[d], s.committed, s.connected, s.sent);
    }
  }

  /** Starting executions with the id of the row and ending others changes nothing that matters. */
  lemma QuietKeepsInv(s: State, t: State)
    requires Inv(s)
    requires t.rowId == s.rowId && t.committed == s.committed && t.connected == s.connected && t.sent == s.sent
    requires forall e :: e in t.execs ==>
      || (e in s.execs && (t.execs[e] == s.execs[e] || t.execs[e] == s.execs[e].(pc := Over)))
      || (t.execs[e].pc == Starting && (t.execs[e].resumes == None || t.execs[e].resumes == s.rowId))
    ensures Inv(t)
  {
    forall e | e in t.execs
      ensures ExecOk(t.execs[e], t.committed, t.connected, t.sent)
    {
      if e in s.execs { assert ExecOk(s.execs[e], s.committed, s.connected, s.sent); }
    }
  }

  lemma StepKeepsInv(s: State, a: Action)
    requires Inv(s)
    ensures Inv(Step(s, a))
  {
    if a.Advance? {
      if a.e in s.execs { AdvanceKeepsInv(s, a.e, a.uuid); }
    } else {
      QuietKeepsInv(s, Step(s, a));
    }
  }

  lemma {:induction false} PlayKeepsInv(s: State, schedule: seq<Action>)
    requires Inv(s)
    ensures Inv(Play(s, schedule))
  {
    if schedule != [] {
      PlayKeepsInv(s, schedule[..|schedule| - 1]);
      StepKeepsInv(Play(s, schedule[..|schedule| - 1]), schedule[|schedule| - 1]);
    }
  }

  // ------------------------------------------------------------- main results

  /**
   Over any crashes, sweeps, resumes and retries, and whichever processes overlap,
   the task description is sent as a first turn at most once under each SDK session
   id, and only under an id that was committed to the task row and opened before.
   */
  lemma FirstTurnAtMostOnce(schedule: seq<Action>, id: SdkId)
    ensures
      var s := Play(CREATED, schedule);
      && s.sent[id] <= 1
      && (id in s.sent ==> id in s.connected)
      && (id in s.connected ==> id in s.committed)
  {
    PlayKeepsInv(CREATED, schedule);
  }

  /** Clients are opened only with ids the row has held, and a resumed one with the id it was told to resume. */
  lemma OpenedUnderCommittedId(schedule: seq<Action>, e: ExecId)
    requires e in Play(CREATED, schedule).execs && HasId(Play(CREATED, schedule).execs[e].pc)
    ensures
      var s := Play(CREATED, schedule);
      var id := s.execs[e].pc.id;
      id in s.committed && (s.execs[e].resumes.Some? ==> s.execs[e].resumes == Some(id))
  {
    PlayKeepsInv(CREATED, schedule);
    var s := Play(CREATED, schedule);
    assert ExecOk(s.execs[e], s.committed, s.connected, s.sent);
  }

  /** No execution that will still send its own first turn works under `id`. */
  predicate NobodySends(s: State, id: SdkId) {
    && id in s.committed && id !in s.sent
    && forall e :: e in s.execs && Unsent(s.execs[e]) ==> s.execs[e].pc.id != id
  }

  lemma NobodySendsStep(s: State, a: Action, id: SdkId)
    requires NobodySends(s, id)
    ensures NobodySends(Step(s, a), id)
  {
    match a
    case Advance(e, uuid) =>
    case Launch(e) =>
    case Retry(e) =>
    case Sweep(e) =>
    case Fail(e) =>
    case WriteStatus(status) =>
    case Crash(dead) =>
  }

  /**
   At most once is all there is: when the process dies between committing the id and
   the first turn, the sweep resumes an empty conversation, and under that id the
   description is never sent, whatever happens next.
   */
  lemma {:induction false} LostFirstTurn(s: State, schedule: seq<Action>, id: SdkId)
    requires NobodySends(s, id)
    ensures NobodySends(Play(s, schedule), id)
  {
    if schedule != [] {
      LostFirstTurn(s, schedule[..|schedule| - 1], id);
      NobodySendsStep(Play(s, schedule[..|schedule| - 1]), schedule[|schedule| - 1], id);
    }
  }

  lemma PlayNext(s: State, schedule: seq<Action>, a: Action)
    ensures Play(s, schedule + [a]) == Step(Play(s, schedule), a)
  {
    assert (schedule + [a])[..|schedule|] == schedule;
  }

  /** An execution that has not sent its own first turn yet is at most two steps away from it. */
  lemma CanStillSend(s: State, e: ExecId, uuid: SdkId) returns (schedule: seq<Action>)
    requires e in s.execs && Unsent(s.execs[e])
    ensures s.execs[e].pc.id in Play(s, schedule).sent
  {
    schedule := [];
    if s.execs[e].pc.Committed? {
      PlayNext(s, schedule, Advance(e, uuid));
      schedule := schedule + [Advance(e, uuid)];
    }
    PlayNext(s, schedule, Advance(e, uuid));
    schedule := schedule + [Advance(e, uuid)];
  }

  /**
   Exactly when: a committed id under which no first turn was sent never gets one,
   whatever happens next, if and only if no execution that is still to send its own
   first turn works under it.
   */
  lemma LostExactlyWhenNobodySends(s: State, id: SdkId)
    requires id in s.committed && id !in s.sent
    ensures (forall schedule :: id !in Play(s, schedule).sent) <==> NobodySends(s, id)
  {
    if NobodySends(s, id) {
      forall schedule
        ensures id !in Play(s, schedule).sent
      {
        LostFirstTurn(s, schedule, id);
      }
    } else {
      var e :| e in s.execs && Unsent(s.execs[e]) && s.execs[e].pc.id == id;
      var schedule := CanStillSend(s, e, 0);
      assert id in Play(s, schedule).sent;
    }
  }

  /** Such a state is three steps away, and the sweep does resume that id. */
  lemma CrashAfterCommit(id: SdkId)
    ensures
      var s := Step(Step(Step(CREATED, Launch(0)), Advance(0, id)), Crash({0}));
      NobodySends(s, id) && Step(s, Sweep(1)).execs[1] == Exec(Some(id), Starting)
  {
    var s1 := Step(CREATED, Launch(0));
    var s2 := Step(s1, Advance(0, id));
    var s3 := Step(s2, Crash({0}));
    assert s2.execs[0].pc == Committed(id);
    assert s3.execs[0].pc == Over;
  }

  // ------------------------------------------------- what steps achieve

  /** The sweep resumes a task in flight under the id in its row, fails it when there is none, and leaves all others. */
  lemma SweepResumesOrFails(s: State, e: ExecId)
    requires e !in s.execs
    ensures
      var t := Step(s, Sweep(e));
      var live := s.status in {Running, AwaitingApproval, AwaitingUserMessage, Publishing, Fixing};
      if !live then t == s
      else if s.rowId.None? then t == s.(status := Failed)
      else t == s.(execs := s.execs[e := Exec(s.rowId, Starting)])
  {
  }

  /** Only a failed or handed-over task can be retried, and it starts from scratch. */
  lemma RetryStartsFromScratch(s: State, e: ExecId)
    requires e !in s.execs
    ensures
      var t := Step(s, Retry(e));
      if s.status in {Failed, NeedsHuman} then t == s.(status := Running, execs := s.execs[e := Exec(None, Starting)])
      else t == s
  {
  }

  /** Four steps of an execution. */
  function FourSteps(s: State, e: ExecId, uuid: SdkId): State {
    var t := Step(Step(s, Advance(e, uuid)), Advance(e, uuid));
    Step(Step(t, Advance(e, uuid)), Advance(e, uuid))
  }

  /** An execution of its own, left alone, commits a fresh id, opens it, sends the first turn under it, and ends. */
  lemma FreshExecutionRunsThrough(s: State, e: ExecId, uuid: SdkId)
    requires e in s.execs && s.execs[e] == Exec(None, Starting) && uuid !in s.committed
    ensures
      FourSteps(s, e, uuid) == s.(
        rowId := Some(uuid), execs := s.execs[e := Exec(None, Over)], committed := s.committed + {uuid},
        connected := s.connected + {uuid}, sent := s.sent + multiset{uuid})
  {
    var t1 := Step(s, Advance(e, uuid));
    assert t1.execs[e] == Exec(None, Committed(uuid));
    var t2 := Step(t1, Advance(e, uuid));
    assert t2.execs[e] == Exec(None, Connected(uuid));
    var t3 := Step(t2, Advance(e, uuid));
    assert t3.execs[e] == Exec(None, Waiting(uuid));
    assert Step(t3, Advance(e, uuid)).execs == s.execs[e := Exec(None, Over)];
  }

  /** A resumed one opens the id it was given, and sends nothing of its own. */
  lemma ResumedExecutionSendsNothing(s: State, e: ExecId, uuid: SdkId, id: SdkId)
    requires e in s.execs && s.execs[e] == Exec(Some(id), Starting)
    ensures
      FourSteps(s, e, uuid) == s.(execs := s.execs[e := Exec(Some(id), Over)], connected := s.connected + {id})
  {
    var t1 := Step(s, Advance(e, uuid));
    assert t1.execs[e] == Exec(Some(id), Committed(id));
    var t2 := Step(t1, Advance(e, uuid));
    assert t2.execs[e] == Exec(Some(id), Connected(id));
    var t3 := Step(t2, Advance(e, uuid));
    assert t3.execs[e] == Exec(Some(id), Waiting(id));
    assert Step(t3, Advance(e, uuid)).execs == s.execs[e := Exec(Some(id), Over)];
  }

  /** A launch adds an execution of its own; a status written by others changes nothing else. */
  lemma LaunchesAndStatuses(s: State, e: ExecId, status: TaskStatus)
    ensures Step(s, Launch(e)) == s.(execs := if e in s.execs then s.execs else s.execs[e := Exec(None, Starting)])
    ensures Step(s, WriteStatus(status)) == s.(status := status)
  {
  }

  /** An execution that fails ends, and fails the task; a crash ends exactly the dead ones. */
  lemma FailuresEnd(s: State, e: ExecId, dead: set<ExecId>)
    requires e in s.execs
    ensures Step(s, Fail(e)) == s.(status := Failed, execs := s.execs[e := s.execs[e].(pc := Over)])
    ensures
      var t := Step(s, Crash(dead));
      && t == s.(execs := t.execs) && t.execs.Keys == s.execs.Keys
      && t.execs[e] == if e in dead then s.execs[e].(pc := Over) else s.execs[e]
  {
  }
}
