/**
 The CI fix loop of one task: webhook deliveries, the background fixes they spawn,
 and everything else that writes the task's status meanwhile: chat sessions, retries,
 failing pipelines and restarts. A delivery, a commit and a registration are atomic;
 the broadcasts after a commit are awaits at which others run, and may raise.
 */
module CiFix {
  import opened Common

  datatype Conclusion = Success | Failure | Other

  /** What a delivery does to the task, and whether it spawns a fix; `Redeliver` is the 503 answer. */
  datatype Reaction = Ignore | Redeliver | Write(status: TaskStatus, spawn: bool)

  predicate Terminal(status: TaskStatus) {
    status == Completed || status == NeedsHuman || status == Failed
  }

  // ------------------------------------------------------------- the webhook service

  class TaskRow {
    var status: TaskStatus
    var attempt: nat
    var errorMessage: Option<string>
    var state: map<string, string>
    var prUrls: map<string, string>

    constructor (status: TaskStatus, attempt: nat)
      ensures this.status == status && this.attempt == attempt
      ensures errorMessage == None && state == map[] && prUrls == map[]
    {
      this.status, this.attempt := status, attempt;
      errorMessage, state, prUrls := None, map[], map[];
    }

    /** `update_status`: patches what is given, merges the state and the PR map. */
    method UpdateStatus(status: TaskStatus, attempt: Option<nat>, errorMessage: Option<string>,
                        statePatch: map<string, string>, prUrlsPatch: map<string, string>)
      modifies this
      ensures this.status == status
      ensures this.attempt == if attempt.Some? then attempt.value else old(this.attempt)
      ensures this.errorMessage == if errorMessage.Some? then errorMessage else old(this.errorMessage)
      ensures state == old(state) + statePatch
      ensures prUrls == old(prUrls) + prUrlsPatch
    {
      this.status := status;
      if attempt.Some? { this.attempt := attempt.value; }
      if errorMessage.Some? { this.errorMessage := errorMessage; }
      if statePatch != map[] { state := state + statePatch; }
      if prUrlsPatch != map[] { prUrls := prUrls + prUrlsPatch; }
    }
  }

  /**
   A delivery acts only on a task that is neither running, fixing nor finished. CI
   success completes it; CI failure spawns a fix, unless a chat session is active or
   the attempts are used up.
   */
  function React(status: TaskStatus, attempt: nat, conclusion: Conclusion, chatActive: bool,
          maxAttempts: nat): (r: Reaction)
    ensures r.Redeliver? <==> status == Running
    ensures r.Write? ==> !Terminal(status) && status != Fixing && status != Running && conclusion != Other
    ensures r.Write? && r.spawn ==> !chatActive && attempt < maxAttempts && r.status == Fixing
  {
    if status == Running then Redeliver
    else if Terminal(status) || status == Fixing then Ignore
    else match conclusion
      case Success => Write(Completed, false)
      case Failure =>
        if chatActive then Write(Fixing, false)
        else if attempt >= maxAttempts then Write(NeedsHuman, false)
        else Write(Fixing, true)
      case Other => Ignore
  }

  /** The failures and successes of CI concern a task in one of these statuses. */
  predicate Listens(status: TaskStatus) {
    status in {AwaitingCi, AwaitingApproval, AwaitingUserMessage, Publishing}
  }

  /**
   `handle_workflow_run` for a completed run of a known task. The task moves to
   COMPLETED, NEEDS_HUMAN or FIXING each exactly under its own condition.
   */
  method HandleWorkflowRun(task: TaskRow, conclusion: Conclusion, chatActive: bool, maxAttempts: nat)
    returns (redeliver: bool, spawn: bool)
    modifies task
    ensures
      var r := React(old(task.status), old(task.attempt), conclusion, chatActive, maxAttempts);
      && redeliver == r.Redeliver?
      && spawn == (r.Write? && r.spawn)
      && task.status == (if r.Write? then r.status else old(task.status))
    ensures redeliver <==> old(task.status) == Running
    ensures old(task.status) != task.status == Completed <==> Listens(old(task.status)) && conclusion == Success
    ensures
      old(task.status) != task.status == NeedsHuman <==>
      Listens(old(task.status)) && conclusion == Failure && !chatActive && old(task.attempt) >= maxAttempts
    ensures
      old(task.status) != task.status == Fixing <==>
      Listens(old(task.status)) && conclusion == Failure && (chatActive || old(task.attempt) < maxAttempts)
    ensures task.status != old(task.status) ==> task.status in {Completed, NeedsHuman, Fixing}
    ensures spawn <==> old(task.status) != task.status == Fixing && !chatActive
    ensures task.attempt == old(task.attempt) && task.prUrls == old(task.prUrls)
    ensures task.state == old(task.state) && task.errorMessage == old(task.errorMessage)
  {
    redeliver, spawn := false, false;
    if task.status == Running { return true, false; }
    if task.status in {Completed, NeedsHuman, Failed} { return; }
    if task.status == Fixing { return; }
    if conclusion == Success {
      task.UpdateStatus(Completed, None, None, map[], map[]);
      return;
    }
    if conclusion == Failure {
      if chatActive {
        task.UpdateStatus(Fixing, None, None, map[], map[]);
        return;
      }
      if task.attempt >= maxAttempts {
        task.UpdateStatus(NeedsHuman, None, None, map[], map[]);
        return;
      }
      task.UpdateStatus(Fixing, None, None, map[], map[]);
      spawn := true;
    }
  }

  /** What an agent of the fix pipeline returns: a state patch, perhaps with PR urls, or an exception. */
  datatype AgentResult = Patch(prUrls: Option<map<string, string>>) | AgentRaised

  /** The PR urls in the state after the agents, None when one of them raised. */
  function PrUrlsAfter(prUrls: map<string, string>, results: seq<AgentResult>): Option<map<string, string>> {
    if results == [] then Some(prUrls)
    else
      var before := PrUrlsAfter(prUrls, results[..|results| - 1]);
      match results[|results| - 1]
      case AgentRaised => None
      case Patch(p) => if before.None? then None else Some(if p.Some? then p.value else before.value)
  }

  /** The agents fail exactly when one of them raises. */
  lemma {:induction false} RaisesExactlyWhenOneDoes(prUrls: map<string, string>, results: seq<AgentResult>)
    ensures PrUrlsAfter(prUrls, results).None? <==> AgentRaised in results
  {
    if results != [] {
      var front, last := results[..|results| - 1], results[|results| - 1];
      assert results == front + [last];
      RaisesExactlyWhenOneDoes(prUrls, front);
    }
  }

  /** The PR urls are those the last agent that gave any has left, or the ones there were. */
  lemma {:induction false} LastUrlsStay(prUrls: map<string, string>, results: seq<AgentResult>, k: nat)
    requires k <= |results| && AgentRaised !in results[..k]
    requires forall i :: k <= i < |results| ==> results[i] == Patch(None)
    ensures k > 0 && results[k - 1].prUrls.Some? ==> PrUrlsAfter(prUrls, results) == results[k - 1].prUrls
    ensures k == 0 ==> PrUrlsAfter(prUrls, results) == Some(prUrls)
    decreases |results|
  {
    if k < |results| {
      assert results[..|results| - 1][..k] == results[..k];
      LastUrlsStay(prUrls, results[..|results| - 1], k);
    } else if k > 0 {
      RaisesExactlyWhenOneDoes(prUrls, results[..k - 1]);
      assert forall r :: r in results[..k - 1] ==> r in results[..k];
      assert results[..k] == results;
    }
  }

  /** What a fix without any diff records, in the words the user reads. */
  const NO_CHANGES := "Automated fix produced no changes. CI logs require manual review."

  function FixStatus(prUrls: map<string, string>): TaskStatus {
    if prUrls != map[] then AwaitingCi else NeedsHuman
  }

  /**
   `_run_devops_fix`: runs the agents one after the other on a state each of them
   patches, then records the outcome with the attempt captured at the start plus one
   and broadcasts it. Whatever raises, the broadcasts included, ends in the handler,
   which broadcasts in its turn and then records FAILED with the same attempt. The
   flags say which of the writes and broadcasts succeed.
   */
  method RunDevopsFix(task: TaskRow, attempt: nat, prUrls: map<string, string>, agents: seq<AgentResult>,
                      saved: bool, announced: bool, warned: bool, failureSaved: bool, error: string)
    modifies task
    ensures
      var after := PrUrlsAfter(prUrls, agents);
      var recorded := after.Some? && saved;
      var failed := !(recorded && announced) && warned && failureSaved;
      && task.status == (if failed then Failed else if recorded then FixStatus(after.value) else old(task.status))
      && task.attempt == (if failed || recorded then attempt + 1 else old(task.attempt))
      && task.prUrls == (old(task.prUrls) + if recorded then after.value else map[])
      && task.errorMessage == (if failed then Some(if |error| <= 2000 then error else error[..2000])
                               else if recorded && after.value == map[] then Some(NO_CHANGES)
                               else old(task.errorMessage))
    ensures AgentRaised !in agents && saved && announced ==> task.status == AwaitingCi || task.status == NeedsHuman
    ensures
      AgentRaised !in agents && saved && announced ==>
      (task.status == AwaitingCi <==> PrUrlsAfter(prUrls, agents) != Some(map[]))
    ensures AgentRaised in agents && warned && failureSaved ==> task.status == Failed
    ensures task.state == old(task.state)
  {
    RaisesExactlyWhenOneDoes(prUrls, agents);
    var nextAttempt := attempt + 1;
    var state := prUrls;
    var raised := false;
    for i := 0 to |agents|
      invariant !raised && PrUrlsAfter(prUrls, agents[..i]) == Some(state)
    {
      assert agents[..i + 1][..i] == agents[..i];
      match agents[i]
      case AgentRaised =>
        raised := true;
        break;
      case Patch(p) =>
        if p.Some? { state := p.value; }
    }
    assert !raised ==> agents[..|agents|] == agents;
    if !raised && saved {
      task.UpdateStatus(if state != map[] then AwaitingCi else NeedsHuman, Some(nextAttempt),
                        if state != map[] then None else Some(NO_CHANGES), map[], state);
      if announced { return; }
    }
    if !warned || !failureSaved { return; }
    var message := if |error| <= 2000 then error else error[..2000];
    task.UpdateStatus(Failed, Some(nextAttempt), Some(message), map[], map[]);
  }

  // ---------------------------------------------------------------- the whole loop

  /** The chat session of the task: not registered, connecting, running, or past its last status write. */
  datatype Chat = Off | Connecting | On | Ending

  /**
   A fix with the attempt it captured: its agents run; its outcome is recorded, as the
   `place`-th of all, and is being broadcast; or the handler broadcasts a failure, with
   the outcome recorded or not.
   */
  datatype Fix =
    | Working(attempt: nat)
    | Announcing(attempt: nat, place: nat)
    | Catching(attempt: nat, recordedAs: Option<nat>)

  /** `recorded` counts, as history, the fixes that have recorded an outcome. */
  datatype State = State(status: TaskStatus, attempt: nat, fixes: map<nat, Fix>, chat: Chat, recorded: nat)

  /**
   `visible` says whether the worker that receives a delivery hosts the session, that
   is, whether its registry can see it.
   */
  datatype Action =
    | Deliver(conclusion: Conclusion, visible: bool, fix: nat)
    | FixCommits(fix: nat, prUrls: map<string, string>)
    | FixRaises(fix: nat)
    | FixReturns(fix: nat)
    | FixFails(fix: nat, saved: bool)
    | SessionStarts
    | SessionConnects(ok: bool)
    | SessionWrites(status: TaskStatus)
    | SessionEnds(status: TaskStatus)
    | SessionUnregisters
    | UserRetries
    | PipelineFails
    | Restart

  const CREATED := State(Running, 0, map[], Off, 0)

  predicate SessionStatus(status: TaskStatus) {
    status == Running || status == AwaitingApproval || status == AwaitingUserMessage || status == Publishing
  }

  function DeliverStep(maxAttempts: nat, s: State, conclusion: Conclusion, visible: bool, fix: nat): State {
    match React(s.status, s.attempt, conclusion, s.chat != Off && visible, maxAttempts)
    case Write(status, spawn) =>
      if !spawn then s.(status := status)
      else if fix in s.fixes then s
      else s.(status := status, fixes := s.fixes[fix := Working(s.attempt)])
    case _ => s
  }

  /** The outcome, with the attempt that was captured plus one. */
  function FixCommitsStep(s: State, fix: nat, prUrls: map<string, string>): State
    requires fix in s.fixes && s.fixes[fix].Working?
  {
    var a := s.fixes[fix].attempt;
    s.(status := FixStatus(prUrls), attempt := a + 1,
      fixes := s.fixes[fix := Announcing(a, s.recorded + 1)], recorded := s.recorded + 1)
  }

  /** Agents or the first write raise before the outcome is recorded, broadcasts after it. */
  function FixRaisesStep(s: State, fix: nat): State
    requires fix in s.fixes
  {
    match s.fixes[fix]
    case Working(a) => s.(fixes := s.fixes[fix := Catching(a, None)])
    case Announcing(a, place) => s.(fixes := s.fixes[fix := Catching(a, Some(place))])
    case Catching(_, _) => s
  }

  /** The last write of the handler, unless something raises in it too. */
  function FixFailsStep(s: State, fix: nat, saved: bool): State
    requires fix in s.fixes && s.fixes[fix].Catching?
  {
    var t := s.(fixes := s.fixes - {fix});
    if saved then
      t.(status := Failed, attempt := s.fixes[fix].attempt + 1,
         recorded := s.recorded + if s.fixes[fix].recordedAs.Some? then 0 else 1)
    else t
  }

  function SessionStep(s: State, a: Action): State {
    match a
    case SessionStarts => if s.chat == Off then s.(chat := Connecting) else s
    case SessionConnects(ok) => if s.chat == Connecting then s.(chat := if ok then On else Off) else s
    case SessionWrites(status) => if s.chat == On && SessionStatus(status) then s.(status := status) else s
    case SessionEnds(status) =>
      if s.chat == On && (status == Completed || status == Failed) then s.(status := status, chat := Ending) else s
    case SessionUnregisters => if s.chat == Ending then s.(chat := Off) else s
    case _ => s
  }

  function Step(maxAttempts: nat, s: State, a: Action): State {
    match a
    case Deliver(conclusion, visible, fix) => DeliverStep(maxAttempts, s, conclusion, visible, fix)
    case FixCommits(fix, prUrls) =>
      if fix in s.fixes && s.fixes[fix].Working? then FixCommitsStep(s, fix, prUrls) else s
    case FixRaises(fix) => if fix in s.fixes then FixRaisesStep(s, fix) else s
    case FixReturns(fix) => if fix in s.fixes && s.fixes[fix].Announcing? then s.(fixes := s.fixes - {fix}) else s
    case FixFails(fix, saved) => if fix in s.fixes && s.fixes[fix].Catching? then FixFailsStep(s, fix, saved) else s
    case UserRetries => if s.status == Failed || s.status == NeedsHuman then s.(status := Running) else s
    case PipelineFails => s.(status := Failed)
    case Restart => s.(fixes := map[], chat := Off)
    case _ => SessionStep(s, a)
  }

  function Play(maxAttempts: nat, schedule: seq<Action>): State {
    if schedule == [] then CREATED
    else Step(maxAttempts, Play(maxAttempts, schedule[..|schedule| - 1]), schedule[|schedule| - 1])
  }

  /** The fix has not recorded its outcome yet. */
  predicate Pends(x: Fix) {
    x.Working? || (x.Catching? && x.recordedAs.None?)
  }

  /** The fixes in flight. */
  function InFlight(s: State): set<nat> {
    set f | f in s.fixes && Pends(s.fixes[f])
  }

  /** Every delivery is received by the worker that hosts the session. */
  predicate AllVisible(schedule: seq<Action>) {
    forall a | a in schedule && a.Deliver? :: a.visible
  }

  /**
   A fix whose broadcast raised after its outcome was recorded is about to record
   FAILED, and a later fix has recorded its own outcome meanwhile.
   */
  predicate Late(s: State, a: Action) {
    && a.FixFails? && a.saved && a.fix in s.fixes
    && s.fixes[a.fix].Catching? && s.fixes[a.fix].recordedAs.Some? && s.fixes[a.fix].recordedAs.value < s.recorded
  }

  ghost predicate Timely(maxAttempts: nat, schedule: seq<Action>) {
    forall n :: 0 <= n < |schedule| ==> !Late(Play(maxAttempts, schedule[..n]), schedule[n])
  }

  predicate Guarded(s: State) {
    s.status == Running || s.status == Fixing || Terminal(s.status)
  }

  /** How many outcomes had been recorded when this one was. */
  function Place(x: Fix): nat
    requires !Pends(x)
  {
    if x.Announcing? then x.place else x.recordedAs.value
  }

  predicate FixOk(maxAttempts: nat, s: State, x: Fix) {
    if Pends(x) then
      && x.attempt == s.attempt < maxAttempts
      && (s.chat == On || Guarded(s)) && s.status != AwaitingCi
    else x.attempt + 1 == Place(x) <= s.recorded
  }

  ghost predicate Inv(maxAttempts: nat, s: State) {
    && s.attempt <= maxAttempts && s.recorded == s.attempt
    && (forall f :: f in s.fixes ==> FixOk(maxAttempts, s, s.fixes[f]))
    && (forall f, g :: f in s.fixes && g in s.fixes && Pends(s.fixes[f]) && Pends(s.fixes[g]) ==> f == g)
  }

  lemma DeliverKeepsInv(maxAttempts: nat, s: State, conclusion: Conclusion, fix: nat)
    requires Inv(maxAttempts, s)
    ensures Inv(maxAttempts, DeliverStep(maxAttempts, s, conclusion, true, fix))
    ensures DeliverStep(maxAttempts, s, conclusion, true, fix).attempt == s.attempt
  {
    var t := DeliverStep(maxAttempts, s, conclusion, true, fix);
    forall f | f in t.fixes
      ensures FixOk(maxAttempts, t, t.fixes[f])
    {
      if f in s.fixes { assert FixOk(maxAttempts, s, s.fixes[f]); }
    }
  }

  /** The outcome of a fix raises the attempt by exactly one. */
  lemma FixCommitsKeepsInv(maxAttempts: nat, s: State, fix: nat, prUrls: map<string, string>)
    requires Inv(maxAttempts, s) && fix in s.fixes && s.fixes[fix].Working?
    ensures Inv(maxAttempts, FixCommitsStep(s, fix, prUrls))
    ensures FixCommitsStep(s, fix, prUrls).attempt == s.attempt + 1
  {
    var t := FixCommitsStep(s, fix, prUrls);
    assert FixOk(maxAttempts, s, s.fixes[fix]);
    forall f | f in t.fixes
      ensures FixOk(maxAttempts, t, t.fixes[f])
    {
      assert FixOk(maxAttempts, s, s.fixes[f]);
    }
  }

  lemma FixRaisesKeepsInv(maxAttempts: nat, s: State, fix: nat)
    requires Inv(maxAttempts, s) && fix in s.fixes
    ensures Inv(maxAttempts, FixRaisesStep(s, fix))
  {
    var t := FixRaisesStep(s, fix);
    forall f | f in t.fixes
      ensures FixOk(maxAttempts, t, t.fixes[f])
    {
      assert FixOk(maxAttempts, s, s.fixes[f]);
    }
  }

  lemma FixFailsKeepsInv(maxAttempts: nat, s: State, fix: nat, saved: bool)
    requires Inv(maxAttempts, s) && fix in s.fixes && s.fixes[fix].Catching? && !Late(s, FixFails(fix, saved))
    ensures Inv(maxAttempts, FixFailsStep(s, fix, saved))
    ensures s.attempt <= FixFailsStep(s, fix, saved).attempt
  {
    var t := FixFailsStep(s, fix, saved);
    assert FixOk(maxAttempts, s, s.fixes[fix]);
    forall f | f in t.fixes
      ensures FixOk(maxAttempts, t, t.fixes[f])
    {
      assert FixOk(maxAttempts, s, s.fixes[f]);
    }
  }

  /** Everything else writes neither the attempt nor any fix, and no status that opens the door to a second fix. */
  lemma QuietKeepsInv(maxAttempts: nat, s: State, a: Action)
    requires Inv(maxAttempts, s) && !a.Deliver? && !a.FixCommits? && !a.FixRaises? && !a.FixFails?
    ensures Inv(maxAttempts, Step(maxAttempts, s, a))
    ensures Step(maxAttempts, s, a).attempt == s.attempt
  {
    var t := Step(maxAttempts, s, a);
    forall f | f in t.fixes
      ensures FixOk(maxAttempts, t, t.fixes[f])
    {
      assert FixOk(maxAttempts, s, s.fixes[f]);
    }
  }

  lemma StepKeepsInv(maxAttempts: nat, s: State, a: Action)
    requires Inv(maxAttempts, s) && (a.Deliver? ==> a.visible) && !Late(s, a)
    ensures Inv(maxAttempts, Step(maxAttempts, s, a))
    ensures s.attempt <= Step(maxAttempts, s, a).attempt
  {
    match a
    case Deliver(conclusion, visible, fix) => DeliverKeepsInv(maxAttempts, s, conclusion, fix);
    case FixCommits(fix, prUrls) =>
      if fix in s.fixes && s.fixes[fix].Working? { FixCommitsKeepsInv(maxAttempts, s, fix, prUrls); }
    case FixRaises(fix) =>
      if fix in s.fixes { FixRaisesKeepsInv(maxAttempts, s, fix); }
    case FixFails(fix, saved) =>
      if fix in s.fixes && s.fixes[fix].Catching? { FixFailsKeepsInv(maxAttempts, s, fix, saved); }
    case _ => QuietKeepsInv(maxAttempts, s, a);
  }

  lemma TimelyBefore(maxAttempts: nat, schedule: seq<Action>)
    requires schedule != [] && Timely(maxAttempts, schedule) && AllVisible(schedule)
    ensures
      var before := schedule[..|schedule| - 1];
      && Timely(maxAttempts, before) && AllVisible(before)
      && !Late(Play(maxAttempts, before), schedule[|schedule| - 1])
  {
    var before := schedule[..|schedule| - 1];
    forall n | 0 <= n < |before|
      ensures !Late(Play(maxAttempts, before[..n]), before[n])
    {
      assert before[..n] == schedule[..n] && before[n] == schedule[n];
    }
  }

  lemma {:induction false} PlayKeepsInv(maxAttempts: nat, schedule: seq<Action>)
    requires AllVisible(schedule) && Timely(maxAttempts, schedule)
    ensures Inv(maxAttempts, Play(maxAttempts, schedule))
  {
    if schedule != [] {
      TimelyBefore(maxAttempts, schedule);
      PlayKeepsInv(maxAttempts, schedule[..|schedule| - 1]);
      StepKeepsInv(maxAttempts, Play(maxAttempts, schedule[..|schedule| - 1]), schedule[|schedule| - 1]);
    }
  }

  lemma FewInFlight(s: State)
    requires forall f, g :: f in s.fixes && g in s.fixes && Pends(s.fixes[f]) && Pends(s.fixes[g]) ==> f == g
    ensures |InFlight(s)| <= 1
  {
    if InFlight(s) != {} {
      var f :| f in InFlight(s);
      assert InFlight(s) == {f};
    }
  }

  // ------------------------------------------------------------- main results

  /**
   In one worker, as long as no failure is recorded late: over any run of deliveries,
   fixes, sessions, retries and restarts, the attempts plus the fixes in flight stay
   within `max_fix_attempts`, at most one fix is in flight, and the attempt is the
   number of fixes that have recorded an outcome.
   */
  lemma FixLoopIsBounded(maxAttempts: nat, schedule: seq<Action>)
    requires AllVisible(schedule) && Timely(maxAttempts, schedule)
    ensures
      var s := Play(maxAttempts, schedule);
      s.attempt + |InFlight(s)| <= maxAttempts && |InFlight(s)| <= 1 && s.attempt == s.recorded
  {
    PlayKeepsInv(maxAttempts, schedule);
    var s := Play(maxAttempts, schedule);
    FewInFlight(s);
    if InFlight(s) != {} {
      var f :| f in InFlight(s);
      assert FixOk(maxAttempts, s, s.fixes[f]);
    }
  }

  /** Along such a run the attempt never decreases. */
  lemma {:induction false} AttemptNeverDecreases(maxAttempts: nat, schedule: seq<Action>, n: nat)
    requires AllVisible(schedule) && Timely(maxAttempts, schedule) && n <= |schedule|
    ensures Play(maxAttempts, schedule[..n]).attempt <= Play(maxAttempts, schedule).attempt
    decreases |schedule|
  {
    if n == |schedule| {
      assert schedule[..n] == schedule;
    } else {
      var before := schedule[..|schedule| - 1];
      TimelyBefore(maxAttempts, schedule);
      AttemptNeverDecreases(maxAttempts, before, n);
      assert before[..n] == schedule[..n];
      PlayKeepsInv(maxAttempts, before);
      StepKeepsInv(maxAttempts, Play(maxAttempts, before), schedule[|schedule| - 1]);
    }
  }

  /**
   And it ends exactly there: the next step lowers the attempt if and only if it
   records FAILED for a fix whose outcome was recorded before that of a later one.
   */
  lemma AttemptDropsExactlyWhenLate(maxAttempts: nat, schedule: seq<Action>, a: Action)
    requires AllVisible(schedule + [a]) && Timely(maxAttempts, schedule)
    ensures
      var s := Play(maxAttempts, schedule);
      Step(maxAttempts, s, a).attempt < s.attempt <==> Late(s, a)
  {
    assert forall b :: b in schedule ==> b in schedule + [a];
    PlayKeepsInv(maxAttempts, schedule);
    var s := Play(maxAttempts, schedule);
    if !Late(s, a) {
      assert a in schedule + [a];
      StepKeepsInv(maxAttempts, s, a);
    }
  }

  /**
   With a fix in flight, a delivery starts a second one exactly when it reports a
   failure to a worker that does not see the live session, while the session waits or
   publishes and attempts are left.
   */
  lemma SecondFixExactlyWhenUnseen(maxAttempts: nat, schedule: seq<Action>, conclusion: Conclusion, visible: bool,
          fix: nat)
    requires AllVisible(schedule) && Timely(maxAttempts, schedule)
    requires InFlight(Play(maxAttempts, schedule)) != {} && fix !in Play(maxAttempts, schedule).fixes
    ensures
      var s := Play(maxAttempts, schedule);
      fix in InFlight(Step(maxAttempts, s, Deliver(conclusion, visible, fix))) <==>
      && conclusion == Failure && !visible && s.chat == On
      && s.status in {AwaitingApproval, AwaitingUserMessage, Publishing}
      && s.attempt < maxAttempts
  {
    PlayKeepsInv(maxAttempts, schedule);
    var s := Play(maxAttempts, schedule);
    var f :| f in InFlight(s);
    SecondFixStep(maxAttempts, s, conclusion, visible, fix, f);
  }

  lemma SecondFixStep(maxAttempts: nat, s: State, conclusion: Conclusion, visible: bool, fix: nat, f: nat)
    requires f in s.fixes && Pends(s.fixes[f]) && FixOk(maxAttempts, s, s.fixes[f]) && fix !in s.fixes
    ensures
      fix in InFlight(DeliverStep(maxAttempts, s, conclusion, visible, fix)) <==>
      && conclusion == Failure && !visible && s.chat == On
      && s.status in {AwaitingApproval, AwaitingUserMessage, Publishing}
      && s.attempt < maxAttempts
  {
    var r := React(s.status, s.attempt, conclusion, s.chat != Off && visible, maxAttempts);
    assert fix in InFlight(DeliverStep(maxAttempts, s, conclusion, visible, fix)) <==> r.Write? && r.spawn;
  }

  // ------------------------------------------------------------- what steps achieve

  /**
   A delivery moves the task to COMPLETED, to NEEDS_HUMAN or to FIXING each exactly under
   its own condition, and nowhere else; it spawns a fix exactly when it moves it to FIXING
   without a live session in sight.
   */
  lemma DeliveryMovesExactly(maxAttempts: nat, s: State, conclusion: Conclusion, visible: bool, fix: nat)
    requires fix !in s.fixes
    ensures
      var t := Step(maxAttempts, s, Deliver(conclusion, visible, fix));
      var active := s.chat != Off && visible;
      && (s.status != t.status == Completed <==> Listens(s.status) && conclusion == Success)
      && (s.status != t.status == NeedsHuman <==>
            Listens(s.status) && conclusion == Failure && !active && s.attempt >= maxAttempts)
      && (s.status != t.status == Fixing <==>
            Listens(s.status) && conclusion == Failure && (active || s.attempt < maxAttempts))
      && (t.status != s.status ==> t.status in {Completed, NeedsHuman, Fixing})
      && (fix in t.fixes <==> s.status != t.status == Fixing && !active)
      && t.fixes == (if fix in t.fixes then s.fixes[fix := Working(s.attempt)] else s.fixes)
      && t.attempt == s.attempt && t.chat == s.chat
  {
  }

  /** A fix that nobody disturbs ends AWAITING_CI or NEEDS_HUMAN, and is gone. */
  lemma FixEndsWell(maxAttempts: nat, s: State, fix: nat, prUrls: map<string, string>)
    requires fix in s.fixes && s.fixes[fix].Working?
    ensures
      var t := Step(maxAttempts, Step(maxAttempts, s, FixCommits(fix, prUrls)), FixReturns(fix));
      && t.status == (if prUrls == map[] then NeedsHuman else AwaitingCi)
      && t.attempt == s.fixes[fix].attempt + 1 && t.recorded == s.recorded + 1
      && t.fixes == s.fixes - {fix} && t.chat == s.chat
    ensures Step(maxAttempts, s, FixReturns(fix)) == s
  {
  }

  /** One that raises before its outcome is recorded ends FAILED, unless the handler raises too. */
  lemma FixRaisesEarly(maxAttempts: nat, s: State, fix: nat, saved: bool)
    requires fix in s.fixes && s.fixes[fix].Working?
    ensures
      var t := Step(maxAttempts, Step(maxAttempts, s, FixRaises(fix)), FixFails(fix, saved));
      && t.fixes == s.fixes - {fix} && t.chat == s.chat
      && t.status == (if saved then Failed else s.status)
      && t.attempt == (if saved then s.fixes[fix].attempt + 1 else s.attempt)
      && t.recorded == (if saved then s.recorded + 1 else s.recorded)
  {
  }

  /** One whose broadcast raises afterwards ends FAILED too, and counts once. */
  lemma FixRaisesLate(maxAttempts: nat, s: State, fix: nat, prUrls: map<string, string>, saved: bool)
    requires fix in s.fixes && s.fixes[fix].Working?
    ensures
      var announced := Step(maxAttempts, s, FixCommits(fix, prUrls));
      var t := Step(maxAttempts, Step(maxAttempts, announced, FixRaises(fix)), FixFails(fix, saved));
      && t.fixes == s.fixes - {fix} && t.chat == s.chat
      && t.status == (if saved then Failed else announced.status)
      && t.attempt == s.fixes[fix].attempt + 1 && t.recorded == s.recorded + 1
  {
    var t := Step(maxAttempts, s, FixCommits(fix, prUrls));
    assert t.fixes[fix] == Announcing(s.fixes[fix].attempt, s.recorded + 1);
    assert Step(maxAttempts, t, FixRaises(fix)).fixes[fix] == Catching(s.fixes[fix].attempt, Some(s.recorded + 1));
  }

  /** A session registers, connects, writes, ends and unregisters; one that cannot connect is gone at once. */
  lemma SessionRunsThrough(maxAttempts: nat, s: State, status: TaskStatus, last: TaskStatus)
    requires s.chat == Off && last in {Completed, Failed}
    requires status in {Running, AwaitingApproval, AwaitingUserMessage, Publishing}
    ensures
      var started := Step(maxAttempts, s, SessionStarts);
      var on := Step(maxAttempts, Step(maxAttempts, started, SessionConnects(true)), SessionWrites(status));
      var ending := Step(maxAttempts, on, SessionEnds(last));
      && on == s.(chat := On, status := status)
      && ending == s.(chat := Ending, status := last)
      && Step(maxAttempts, ending, SessionUnregisters) == s.(status := last)
      && Step(maxAttempts, started, SessionConnects(false)) == s
  {
  }

  /** The user can retry exactly a failed or handed-over task; a failing pipeline fails the task. */
  lemma RetriesRestart(maxAttempts: nat, s: State)
    ensures
      Step(maxAttempts, s, UserRetries) == s.(status := if s.status in {Failed, NeedsHuman} then Running else s.status)
    ensures Step(maxAttempts, s, PipelineFails) == s.(status := Failed)
    ensures Step(maxAttempts, s, Restart) == s.(fixes := map[], chat := Off)
  {
  }

  // ------------------------------------------------------------- where it breaks

  lemma Then(schedule: seq<Action>, a: Action) returns (longer: seq<Action>)
    ensures longer == schedule + [a]
    ensures forall n: nat :: Play(n, longer) == Step(n, Play(n, schedule), a)
  {
    longer := schedule + [a];
    assert longer[..|schedule|] == schedule;
  }

  /** Two workers can have two fixes in flight when one attempt was allowed. */
  lemma UnseenSessionBreaksTheBound() returns (schedule: seq<Action>)
    ensures !AllVisible(schedule)
    ensures Play(1, schedule).attempt == 0 && InFlight(Play(1, schedule)) == {0, 1}
  {
    schedule := SessionWaiting();
    schedule := Then(schedule, Deliver(Failure, false, 0));
    assert Play(1, schedule) == State(Fixing, 0, map[0 := Working(0)], On, 0);
    schedule := Then(schedule, SessionWrites(AwaitingUserMessage));
    schedule := Then(schedule, Deliver(Failure, false, 1));
    assert Play(1, schedule) == State(Fixing, 0, map[0 := Working(0), 1 := Working(0)], On, 0);
    assert schedule[|schedule| - 1] == Deliver(Failure, false, 1);
  }

  lemma SessionWaiting() returns (schedule: seq<Action>)
    ensures AllVisible(schedule)
    ensures forall n: nat :: Play(n, schedule) == State(AwaitingUserMessage, 0, map[], On, 0)
  {
    schedule := Then([], SessionStarts);
    schedule := Then(schedule, SessionConnects(true));
    schedule := Then(schedule, SessionWrites(AwaitingUserMessage));
  }

  /** A session waits, and its worker restarts before it is resumed. */
  lemma Interrupted(n: nat, schedule: seq<Action>) returns (longer: seq<Action>)
    requires AllVisible(schedule) && Play(n, schedule).chat == Off
    ensures AllVisible(longer) && schedule <= longer
    ensures
      var s := Play(n, schedule);
      Play(n, longer) == State(AwaitingUserMessage, s.attempt, map[], Off, s.recorded)
  {
    longer := Then(schedule, SessionStarts);
    longer := Then(longer, SessionConnects(true));
    longer := Then(longer, SessionWrites(AwaitingUserMessage));
    longer := Then(longer, Restart);
  }

  /** A CI failure, and a fix that pushes something. */
  lemma Fixed(n: nat, schedule: seq<Action>, fix: nat) returns (longer: seq<Action>)
    requires AllVisible(schedule) && Play(n, schedule).chat == Off
    requires Play(n, schedule).attempt < n && fix !in Play(n, schedule).fixes
    requires Play(n, schedule).status == AwaitingUserMessage || Play(n, schedule).status == AwaitingCi
    ensures AllVisible(longer) && schedule <= longer
    ensures
      var s := Play(n, schedule);
      var fixes := s.fixes[fix := Announcing(s.attempt, s.recorded + 1)];
      Play(n, longer) == State(AwaitingCi, s.attempt + 1, fixes, Off, s.recorded + 1)
  {
    var s := Play(n, schedule);
    var spawned := Then(schedule, Deliver(Failure, true, fix));
    assert Play(n, spawned) == State(Fixing, s.attempt, s.fixes[fix := Working(s.attempt)], Off, s.recorded);
    var pushed := map["repo" := "pull"];
    assert "repo" in pushed && FixStatus(pushed) == AwaitingCi;
    longer := Then(spawned, FixCommits(fix, pushed));
    assert s.fixes[fix := Working(s.attempt)][fix := Announcing(s.attempt, s.recorded + 1)] ==
      s.fixes[fix := Announcing(s.attempt, s.recorded + 1)];
  }

  lemma FirstFix() returns (schedule: seq<Action>)
    ensures AllVisible(schedule)
    ensures Play(2, schedule) == State(AwaitingCi, 1, map[0 := Announcing(0, 1)], Off, 1)
  {
    schedule := Interrupted(2, []);
    schedule := Fixed(2, schedule, 0);
  }

  lemma SecondFix() returns (schedule: seq<Action>)
    ensures AllVisible(schedule)
    ensures Play(2, schedule) == State(AwaitingCi, 2, map[0 := Announcing(0, 1), 1 := Announcing(1, 2)], Off, 2)
  {
    schedule := FirstFix();
    schedule := Fixed(2, schedule, 1);
    assert map[0 := Announcing(0, 1)][1 := Announcing(1, 2)] == map[0 := Announcing(0, 1), 1 := Announcing(1, 2)];
  }

  /** Two fixes have recorded their outcomes, and a broadcast of the first raises. */
  lemma TwoFixes() returns (schedule: seq<Action>)
    ensures AllVisible(schedule)
    ensures Play(2, schedule) == State(AwaitingCi, 2, map[0 := Catching(0, Some(1)), 1 := Announcing(1, 2)], Off, 2)
  {
    schedule := SecondFix();
    schedule := Then(schedule, FixRaises(0));
  }

  /** A retry, and a third fix. */
  lemma ThirdFix(schedule: seq<Action>) returns (longer: seq<Action>)
    requires AllVisible(schedule) && Play(2, schedule) == State(Failed, 1, map[1 := Announcing(1, 2)], Off, 2)
    ensures AllVisible(longer) && schedule <= longer && Play(2, longer).recorded == 3
  {
    longer := Then(schedule, UserRetries);
    longer := Interrupted(2, longer);
    longer := Fixed(2, longer, 2);
  }

  /**
   In one worker with two attempts allowed: the broadcast of the first fix hangs until
   the second has recorded its outcome, then raises. The attempt falls from two to one,
   and after a retry a third fix records its outcome.
   */
  lemma LateFailureBreaksTheBound() returns (schedule: seq<Action>, late: nat)
    ensures AllVisible(schedule) && late < |schedule|
    ensures Late(Play(2, schedule[..late]), schedule[late])
    ensures Play(2, schedule[..late]).attempt == 2 && Play(2, schedule[..late + 1]).attempt == 1
    ensures Play(2, schedule).recorded == 3
  {
    var before := TwoFixes();
    var after := Then(before, FixFails(0, true));
    assert Play(2, after) == State(Failed, 1, map[1 := Announcing(1, 2)], Off, 2);
    late := |before|;
    schedule := ThirdFix(after);
    assert schedule[..late + 1] == after && after[..late] == before && schedule[..late] == before;
    assert schedule[late] == after[late];
  }
}
