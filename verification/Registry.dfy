/**
 The process-wide registry of chat sessions. Sections under its lock contain no
 await, so each is one atomic step; the event loop runs the spawned coroutines in
 between, in any order.
 */
module Registry {
  type TaskId = nat
  type SessionId = nat
  type RunId = nat

  /** A spawned `_run_and_unregister`: `run()` has not started, is under way, or is over. */
  datatype RunPc = Scheduled | Alive | Finished
  datatype Run = Run(task: TaskId, session: SessionId, pc: RunPc)

  /** The two dictionaries, the coroutines of the event loop, and the sessions asked to close. */
  datatype State = State(
    sessions: map<TaskId, SessionId>,
    tasks: map<TaskId, RunId>,
    runs: map<RunId, Run>,
    closing: set<SessionId>)

  datatype Action =
    | Register(task: TaskId, session: SessionId, run: RunId)
    | Advance(run: RunId)
    | RequestClose(task: TaskId)
    | Shutdown

  const INITIAL := State(map[], map[], map[], {})

  predicate CanRegister(s: State, task: TaskId, run: RunId) {
    task !in s.tasks && run !in s.runs
  }

  function RegisterStep(s: State, task: TaskId, session: SessionId, run: RunId): State {
    if CanRegister(s, task, run) then
      s.(sessions := s.sessions[task := session],
         tasks := s.tasks[task := run],
         runs := s.runs[run := Run(task, session, Scheduled)])
    else s
  }

  /** The coroutine starts `run()`, `run()` returns or raises, the `finally` block unregisters. */
  function AdvanceStep(s: State, run: RunId): State {
    if run !in s.runs then s
    else
      var me := s.runs[run];
      match me.pc
      case Scheduled => s.(runs := s.runs[run := me.(pc := Alive)])
      case Alive => s.(runs := s.runs[run := me.(pc := Finished)])
      case Finished => s.(sessions := s.sessions - {me.task}, tasks := s.tasks - {me.task}, runs := s.runs - {run})
  }

  function RequestCloseStep(s: State, task: TaskId): State {
    if task in s.sessions then s.(closing := s.closing + {s.sessions[task]}) else s
  }

  function ShutdownStep(s: State): State {
    s.(closing := s.closing + s.sessions.Values)
  }

  function Step(s: State, a: Action): State {
    match a
    case Register(task, session, run) => RegisterStep(s, task, session, run)
    case Advance(run) => AdvanceStep(s, run)
    case RequestClose(task) => RequestCloseStep(s, task)
    case Shutdown => ShutdownStep(s)
  }

  function Play(s: State, schedule: seq<Action>): State {
    if schedule == [] then s
    else Step(Play(s, schedule[..|schedule| - 1]), schedule[|schedule| - 1])
  }

  // ---------------------------------------------------------- the service itself

  class ChatSessionService {
    var sessions: map<TaskId, SessionId>
    var tasks: map<TaskId, RunId>
    var runs: map<RunId, Run>
    var closing: set<SessionId>

    ghost function View(): State
      reads this
    {
      State(sessions, tasks, runs, closing)
    }

    constructor ()
      ensures View() == INITIAL
    {
      sessions, tasks, runs, closing := map[], map[], map[], {};
    }

    /** False stands for the RuntimeError of a task that already has a session. */
    method RegisterAndRun(task: TaskId, session: SessionId, run: RunId) returns (ok: bool)
      requires run !in runs
      modifies this
      ensures ok == (task !in old(tasks))
      ensures View() == RegisterStep(old(View()), task, session, run)
      ensures ok ==>
        && sessions == old(sessions)[task := session] && tasks == old(tasks)[task := run]
        && runs == old(runs)[run := Run(task, session, Scheduled)] && closing == old(closing)
      ensures !ok ==> View() == old(View())
    {
      if task in tasks { return false; }
      sessions := sessions[task := session];
      runs := runs[run := Run(task, session, Scheduled)];
      tasks := tasks[task := run];
      return true;
    }

    /** `finally` of `_run_and_unregister`. */
    method Unregister(run: RunId)
      requires run in runs && runs[run].pc.Finished?
      modifies this
      ensures View() == AdvanceStep(old(View()), run)
      ensures
        var task := old(runs)[run].task;
        && sessions == old(sessions) - {task} && tasks == old(tasks) - {task}
        && runs == old(runs) - {run} && closing == old(closing)
    {
      var task := runs[run].task;
      sessions := sessions - {task};
      tasks := tasks - {task};
      runs := runs - {run};
    }

    method RequestClose(task: TaskId) returns (ok: bool)
      modifies this`closing
      ensures ok == (task in sessions)
      ensures closing == if ok then old(closing) + {sessions[task]} else old(closing)
      ensures View() == RequestCloseStep(old(View()), task)
    {
      if task !in sessions { return false; }
      closing := closing + {sessions[task]};
      return true;
    }

    /** Asks every registered session to close, one after the other. */
    method ShutdownAll()
      modifies this`closing
      ensures View() == ShutdownStep(old(View()))
      ensures forall session :: session in closing <==>
        session in old(closing) || exists task :: task in sessions && sessions[task] == session
    {
      var left := sessions.Keys;
      while left != {}
        invariant left <= sessions.Keys
        invariant closing == old(closing) + set t | t in sessions.Keys - left :: sessions[t]
        decreases |left|
      {
        var task :| task in left;
        closing := closing + {sessions[task]};
        left := left - {task};
      }
      assert sessions.Values == set t | t in sessions.Keys :: sessions[t];
    }
  }

  // ---------------------------------------------------------------- invariant

  ghost predicate Inv(s: State) {
    && s.sessions.Keys == s.tasks.Keys
    && (forall t :: t in s.tasks ==>
          s.tasks[t] in s.runs && s.runs[s.tasks[t]].task == t && t in s.sessions
            && s.runs[s.tasks[t]].session == s.sessions[t])
    && (forall r :: r in s.runs ==> s.runs[r].task in s.tasks && s.tasks[s.runs[r].task] == r)
  }

  lemma StepKeepsInv(s: State, a: Action)
    requires Inv(s)
    ensures Inv(Step(s, a))
  {
    match a
    case Register(task, session, run) =>
    case Advance(run) =>
      if run in s.runs && s.runs[run].pc.Finished? {
        var t := Step(s, a);
        forall r | r in t.runs
          ensures t.runs[r].task in t.tasks && t.tasks[t.runs[r].task] == r
        {
          assert s.runs[r].task != s.runs[run].task;
        }
      }
    case RequestClose(task) =>
    case Shutdown =>
  }

  lemma {:induction false} PlayKeepsInv(schedule: seq<Action>)
    ensures Inv(Play(INITIAL, schedule))
  {
    if schedule != [] {
      PlayKeepsInv(schedule[..|schedule| - 1]);
      StepKeepsInv(Play(INITIAL, schedule[..|schedule| - 1]), schedule[|schedule| - 1]);
    }
  }

  // ------------------------------------------------------------- main results

  /**
   After any schedule both dictionaries name the same tasks; of every task at most
   one coroutine exists, whether waiting, alive or about to unregister, and it is the
   registered one, driving the registered session.
   */
  lemma OneRegisteredRunPerTask(schedule: seq<Action>)
    ensures
      var s := Play(INITIAL, schedule);
      && s.sessions.Keys == s.tasks.Keys
      && (forall p, r :: p in s.runs && r in s.runs && s.runs[p].task == s.runs[r].task ==> p == r)
      && (forall r :: r in s.runs ==>
            && s.runs[r].task in s.tasks && s.tasks[s.runs[r].task] == r
            && s.sessions[s.runs[r].task] == s.runs[r].session)
      && (forall t :: t in s.tasks ==> s.tasks[t] in s.runs)
  {
    PlayKeepsInv(schedule);
    var s := Play(INITIAL, schedule);
    forall r | r in s.runs
      ensures s.runs[r].task in s.tasks && s.tasks[s.runs[r].task] == r
      ensures s.runs[r].task in s.sessions && s.sessions[s.runs[r].task] == s.runs[r].session
    {
      assert s.tasks[s.runs[r].task] == r;
    }
  }

  /** A task is taken exactly when no run of it exists, whatever happened before. */
  lemma RegistersExactlyWhenIdle(schedule: seq<Action>, task: TaskId, session: SessionId, run: RunId)
    requires run !in Play(INITIAL, schedule).runs
    ensures
      var s := Play(INITIAL, schedule);
      var t := Play(INITIAL, schedule + [Register(task, session, run)]);
      && (run in t.runs <==> forall r :: r in s.runs ==> s.runs[r].task != task)
      && (run in t.runs ==>
            && t.runs == s.runs[run := Run(task, session, Scheduled)]
            && t.sessions == s.sessions[task := session] && t.tasks == s.tasks[task := run])
      && (run !in t.runs ==> t == s)
  {
    var s := Play(INITIAL, schedule);
    var longer := schedule + [Register(task, session, run)];
    assert longer[..|schedule|] == schedule;
    PlayKeepsInv(schedule);
    if task in s.tasks { assert s.runs[s.tasks[task]].task == task; }
  }

  /** A run goes through its three stages and leaves the registry as it was before. */
  lemma RunLeavesNoTrace(s: State, task: TaskId, session: SessionId, run: RunId)
    requires Inv(s) && CanRegister(s, task, run)
    ensures
      var registered := Step(s, Register(task, session, run));
      var alive := Step(registered, Advance(run));
      var finished := Step(alive, Advance(run));
      && registered.runs[run].pc == Scheduled && alive.runs[run].pc == Alive && finished.runs[run].pc == Finished
      && finished.sessions == registered.sessions && finished.tasks == registered.tasks
      && Step(finished, Advance(run)) == s
  {
    var finished := Step(Step(Step(s, Register(task, session, run)), Advance(run)), Advance(run));
    var t := Step(finished, Advance(run));
    assert task !in s.sessions;
    assert t.sessions == s.sessions && t.tasks == s.tasks && t.runs == s.runs;
  }

  /** A close request for a task without a run reaches nobody. */
  lemma IdleTaskIsNotClosed(schedule: seq<Action>, task: TaskId)
    requires forall r :: r in Play(INITIAL, schedule).runs ==> Play(INITIAL, schedule).runs[r].task != task
    ensures Step(Play(INITIAL, schedule), RequestClose(task)) == Play(INITIAL, schedule)
  {
    PlayKeepsInv(schedule);
    var s := Play(INITIAL, schedule);
  }

  /** A close request reaches the session of the task's live run, and no other session. */
  lemma CloseReachesTheLiveRun(schedule: seq<Action>, task: TaskId, run: RunId)
    requires run in Play(INITIAL, schedule).runs && Play(INITIAL, schedule).runs[run].task == task
    ensures
      var s := Play(INITIAL, schedule);
      Step(s, RequestClose(task)).closing == s.closing + {s.runs[run].session}
  {
    OneRegisteredRunPerTask(schedule);
  }

  /** A shutdown reaches exactly the sessions of the coroutines that exist. */
  lemma ShutdownReachesAll(schedule: seq<Action>, session: SessionId)
    ensures
      var s := Play(INITIAL, schedule);
      session in Step(s, Shutdown).closing <==>
      session in s.closing || exists r :: r in s.runs && s.runs[r].session == session
  {
    OneRegisteredRunPerTask(schedule);
    var s := Play(INITIAL, schedule);
    PlayKeepsInv(schedule);
    if session in s.sessions.Values {
      var t :| t in s.sessions && s.sessions[t] == session;
      assert s.runs[s.tasks[t]].session == session;
    }
    if r :| r in s.runs && s.runs[r].session == session {
      assert s.sessions[s.runs[r].task] == session;
    }
  }
}
