/** The two clocks of a chat session and the wait they allow. */
module Lifecycle {
  import opened Common

  datatype Expiry = IdleExpired | HardExpired

  const IDLE_TIMEOUT_SEC := 3600.0
  const HARD_TIMEOUT_SEC := 14400.0

  function Min(a: real, b: real): real {
    if a <= b then a else b
  }

  /** Python's `round`: to the nearest integer, ties to the even one. */
  function Round(x: real): int {
    var floor := x.Floor;
    var rest := x - floor as real;
    if rest < 0.5 || (rest == 0.5 && floor % 2 == 0) then floor else floor + 1
  }

  /** The BLPOP timeout for a budget; 0 would block for ever. */
  function BlpopTimeout(budget: real): int {
    if Round(budget) < 1 then 1 else Round(budget)
  }

  class Lifecycle {
    const idleTimeout: real
    const hardTimeout: real
    const startedAt: real
    var lastUserInputAt: real

    constructor (idle: Option<real>, hard: Option<real>, now: real)
      ensures idleTimeout == if idle.Some? && idle.value != 0.0 then idle.value else 3600.0
      ensures hardTimeout == if hard.Some? && hard.value != 0.0 then hard.value else 14400.0
      ensures startedAt == now && lastUserInputAt == now
    {
      idleTimeout := if idle.Some? && idle.value != 0.0 then idle.value else IDLE_TIMEOUT_SEC;
      hardTimeout := if hard.Some? && hard.value != 0.0 then hard.value else HARD_TIMEOUT_SEC;
      startedAt := now;
      lastUserInputAt := now;
    }

    method MarkUserInput(now: real)
      modifies this
      ensures lastUserInputAt == now
    {
      lastUserInputAt := now;
    }

    /** The earlier of the two moments at which the session must end. */
    ghost function Deadline(): real
      reads this
    {
      Min(lastUserInputAt + idleTimeout, startedAt + hardTimeout)
    }

    function RemainingSec(now: real): (left: real)
      reads this
      ensures left == if now < Deadline() then Deadline() - now else 0.0
    {
      var left := Min(idleTimeout - (now - lastUserInputAt), hardTimeout - (now - startedAt));
      if left < 0.0 then 0.0 else left
    }

    function Expired(now: real): (expiry: Option<Expiry>)
      reads this
      ensures expiry.Some? <==> Deadline() <= now
      ensures expiry == Some(HardExpired) <==> startedAt + hardTimeout <= now
    {
      if now - startedAt >= hardTimeout then Some(HardExpired)
      else if now - lastUserInputAt >= idleTimeout then Some(IdleExpired)
      else None
    }
  }

  /** No integer is nearer, and of two equally near ones it is the even one. */
  lemma RoundIsNearest(x: real)
    ensures -0.5 <= Round(x) as real - x <= 0.5
    ensures Round(x) as real - x == 0.5 || Round(x) as real - x == -0.5 ==> Round(x) % 2 == 0
  {
  }

  /** A wait started with a positive budget ends less than a second late, and at most half a second early. */
  lemma TimeoutOvershoot(budget: real)
    requires budget > 0.0
    ensures BlpopTimeout(budget) >= 1
    ensures -0.5 <= BlpopTimeout(budget) as real - budget < 1.0
  {
    var floor := budget.Floor;
    assert floor as real <= budget < floor as real + 1.0;
  }
}

/** The language of the statuses one chat session writes. */
module StatusLanguage {
  import opened Common

  /** What has been written so far, as the states of a small automaton. */
  datatype Stage =
    | Fresh
    | Resumed
    | InTurn
    | InApproval
    | HasPublished
    | Waiting
    | EndCompleted
    | EndFailed
    | CompletedThenFailed
    | Illegal

  function Next(q: Stage, s: TaskStatus): Stage {
    match (q, s)
    case (Fresh, Running) => InTurn
    case (Waiting, Running) => InTurn
    case (InApproval, Running) => InTurn
    case (InTurn, AwaitingApproval) => InApproval
    case (InTurn, Publishing) => HasPublished
    case (Resumed, AwaitingUserMessage) => Waiting
    case (InTurn, AwaitingUserMessage) => Waiting
    case (HasPublished, AwaitingUserMessage) => Waiting
    case (Waiting, AwaitingUserMessage) => Waiting
    case (Resumed, Completed) => EndCompleted
    case (InTurn, Completed) => EndCompleted
    case (HasPublished, Completed) => EndCompleted
    case (Waiting, Completed) => EndCompleted
    case (Resumed, Failed) => EndFailed
    case (InTurn, Failed) => EndFailed
    case (InApproval, Failed) => EndFailed
    case (HasPublished, Failed) => EndFailed
    case (Waiting, Failed) => EndFailed
    case (EndCompleted, Failed) => CompletedThenFailed
    case _ => Illegal
  }

  function Start(isResumed: bool): Stage {
    if isResumed then Resumed else Fresh
  }

  function StageFrom(q: Stage, word: seq<TaskStatus>): Stage {
    if word == [] then q else Next(StageFrom(q, word[..|word| - 1]), word[|word| - 1])
  }

  // ------------------------------------------- the same language, as a grammar

  /** One turn: RUNNING, an approval round trip for each gated tool call, perhaps a publish. */
  datatype TurnShape = TurnShape(approvals: nat, published: bool)

  /** One or more waits and the turn that the awaited message starts. */
  datatype Cycle = Cycle(waits: nat, turn: TurnShape)

  /** A session up to its last status: the first turn unless resumed, cycles, and trailing waits. */
  datatype Shape = Shape(first: Option<TurnShape>, cycles: seq<Cycle>, waits: nat)

  function Repeat<T>(word: seq<T>, n: nat): seq<T> {
    if n == 0 then [] else Repeat(word, n - 1) + word
  }

  function TurnWord(t: TurnShape): seq<TaskStatus> {
    [Running] + Repeat([AwaitingApproval, Running], t.approvals) + if t.published then [Publishing] else []
  }

  function CyclesWord(cycles: seq<Cycle>): seq<TaskStatus> {
    if cycles == [] then []
    else
      var last := cycles[|cycles| - 1];
      CyclesWord(cycles[..|cycles| - 1]) + Repeat([AwaitingUserMessage], last.waits) + TurnWord(last.turn)
  }

  function Word(shape: Shape): seq<TaskStatus> {
    (if shape.first.Some? then TurnWord(shape.first.value) else [])
    + CyclesWord(shape.cycles) + Repeat([AwaitingUserMessage], shape.waits)
  }

  predicate WellShaped(shape: Shape, isResumed: bool) {
    && (shape.first.None? <==> isResumed)
    && forall c | c in shape.cycles :: c.waits >= 1
  }

  /** The turn at the end of the word, when no wait follows it. */
  function LastTurn(shape: Shape): Option<TurnShape> {
    if shape.waits > 0 then None
    else if shape.cycles != [] then Some(shape.cycles[|shape.cycles| - 1].turn)
    else shape.first
  }

  function StageOf(shape: Shape): Stage {
    if shape.waits > 0 then Waiting
    else if LastTurn(shape).None? then Resumed
    else if LastTurn(shape).value.published then HasPublished
    else InTurn
  }

  function WithLastTurn(shape: Shape, t: TurnShape): Shape {
    if shape.cycles != [] then
      var n := |shape.cycles| - 1;
      shape.(cycles := shape.cycles[..n] + [shape.cycles[n].(turn := t)])
    else shape.(first := Some(t))
  }

  lemma LastTurnGrows(shape: Shape, t: TurnShape, more: seq<TaskStatus>)
    requires LastTurn(shape).Some?
    requires TurnWord(t) == TurnWord(LastTurn(shape).value) + more
    ensures Word(WithLastTurn(shape, t)) == Word(shape) + more
    ensures LastTurn(WithLastTurn(shape, t)) == Some(t) && WithLastTurn(shape, t).waits == 0
  {
    var grown := WithLastTurn(shape, t);
    if shape.cycles != [] {
      var n := |shape.cycles| - 1;
      assert grown.cycles[..n] == shape.cycles[..n];
    }
  }

  lemma MoreWaits(shape: Shape)
    ensures Word(shape.(waits := shape.waits + 1)) == Word(shape) + [AwaitingUserMessage]
  {
  }

  lemma NewCycle(shape: Shape)
    ensures
      var next := Shape(shape.first, shape.cycles + [Cycle(shape.waits, TurnShape(0, false))], 0);
      Word(next) == Word(shape) + [Running]
  {
    var cycles := shape.cycles + [Cycle(shape.waits, TurnShape(0, false))];
    assert cycles[..|shape.cycles|] == shape.cycles;
  }

  predicate Open(q: Stage) {
    q in {InTurn, InApproval, HasPublished, Waiting, Resumed}
  }

  /** The shape spells the word that brought the automaton to `q`. */
  predicate Spells(shape: Shape, isResumed: bool, q: Stage, word: seq<TaskStatus>) {
    && WellShaped(shape, isResumed)
    && if q == InApproval
       then Word(shape) + [AwaitingApproval] == word && StageOf(shape) == InTurn
       else Word(shape) == word && StageOf(shape) == q
  }

  lemma TurnContinues(shape: Shape, isResumed: bool, q: Stage, word: seq<TaskStatus>, s: TaskStatus)
    returns (next: Shape)
    requires Spells(shape, isResumed, q, word)
    requires (q == InTurn && (s == AwaitingApproval || s == Publishing)) || (q == InApproval && s == Running)
    ensures Spells(next, isResumed, Next(q, s), word + [s])
  {
    var t := LastTurn(shape).value;
    if s == AwaitingApproval {
      next := shape;
    } else if s == Publishing {
      LastTurnGrows(shape, t.(published := true), [Publishing]);
      next := WithLastTurn(shape, t.(published := true));
    } else {
      next := ApprovalAnswered(shape, isResumed, word);
    }
  }

  lemma ApprovalAnswered(shape: Shape, isResumed: bool, word: seq<TaskStatus>) returns (next: Shape)
    requires Spells(shape, isResumed, InApproval, word)
    ensures Spells(next, isResumed, InTurn, word + [Running])
  {
    var t := LastTurn(shape).value;
    var grown := t.(approvals := t.approvals + 1);
    OneMoreApproval(t);
    LastTurnGrows(shape, grown, [AwaitingApproval, Running]);
    next := WithLastTurn(shape, grown);
    assert Word(shape) + [AwaitingApproval, Running] == Word(shape) + [AwaitingApproval] + [Running];
  }

  lemma OneMoreApproval(t: TurnShape)
    requires !t.published
    ensures TurnWord(t.(approvals := t.approvals + 1)) == TurnWord(t) + [AwaitingApproval, Running]
  {
    var rounds := Repeat([AwaitingApproval, Running], t.approvals);
    assert [Running] + (rounds + [AwaitingApproval, Running]) + [] ==
      [Running] + rounds + [] + [AwaitingApproval, Running];
  }

  lemma TurnBoundary(shape: Shape, isResumed: bool, q: Stage, word: seq<TaskStatus>, s: TaskStatus)
    returns (next: Shape)
    requires Spells(shape, isResumed, q, word)
    requires (q == Waiting && s == Running) || (q != InApproval && s == AwaitingUserMessage)
    ensures Spells(next, isResumed, if s == Running then InTurn else Waiting, word + [s])
  {
    if s == Running {
      NewCycle(shape);
      next := Shape(shape.first, shape.cycles + [Cycle(shape.waits, TurnShape(0, false))], 0);
    } else {
      MoreWaits(shape);
      next := shape.(waits := shape.waits + 1);
    }
  }

  /** Which letters lead where. */
  lemma OpenSteps(q: Stage, s: TaskStatus)
    requires Open(Next(q, s))
    ensures s == AwaitingUserMessage ==> Next(q, s) == Waiting && Open(q) && q != InApproval
    ensures s == Running ==> Next(q, s) == InTurn && q in {Fresh, Waiting, InApproval}
    ensures s == AwaitingApproval || s == Publishing ==> q == InTurn
    ensures s in {AwaitingUserMessage, Running, AwaitingApproval, Publishing}
  {
  }

  lemma ShapeGrows(shape: Shape, isResumed: bool, q: Stage, word: seq<TaskStatus>, s: TaskStatus) returns (next: Shape)
    requires q != Fresh && Open(Next(q, s))
    requires Spells(shape, isResumed, q, word)
    ensures Spells(next, isResumed, Next(q, s), word + [s])
  {
    OpenSteps(q, s);
    if s == AwaitingUserMessage || (s == Running && q == Waiting) {
      next := TurnBoundary(shape, isResumed, q, word, s);
    } else {
      next := TurnContinues(shape, isResumed, q, word, s);
    }
  }

  lemma NothingBeforeFresh(q: Stage, word: seq<TaskStatus>)
    requires StageFrom(q, word) == Fresh
    ensures word == [] && q == Fresh
  {
  }

  /** Every word the automaton has neither ended nor rejected has a shape. */
  lemma {:induction false} ShapeOf(isResumed: bool, word: seq<TaskStatus>) returns (shape: Shape)
    requires Open(StageFrom(Start(isResumed), word))
    ensures Spells(shape, isResumed, StageFrom(Start(isResumed), word), word)
  {
    if word == [] {
      shape := Shape(None, [], 0);
      return;
    }
    var before := word[..|word| - 1];
    var last := word[|word| - 1];
    var q := StageFrom(Start(isResumed), before);
    assert before + [last] == word;
    OpenSteps(q, last);
    if q == Fresh {
      NothingBeforeFresh(Start(isResumed), before);
      shape := Shape(Some(TurnShape(0, false)), [], 0);
      assert Word(shape) == [Running] == word;
    } else {
      var shorter := ShapeOf(isResumed, before);
      shape := ShapeGrows(shorter, isResumed, q, before, last);
    }
  }

  // ------------------------------------------------- and back: shapes are accepted

  lemma {:induction false} StageFromConcat(q: Stage, u: seq<TaskStatus>, v: seq<TaskStatus>)
    ensures StageFrom(q, u + v) == StageFrom(StageFrom(q, u), v)
  {
    if v == [] {
      assert u + v == u;
    } else {
      assert (u + v)[..|u + v| - 1] == u + v[..|v| - 1];
      StageFromConcat(q, u, v[..|v| - 1]);
    }
  }

  lemma {:induction false} RepeatStays(q: Stage, word: seq<TaskStatus>, n: nat)
    requires StageFrom(q, word) == q
    ensures StageFrom(q, Repeat(word, n)) == q
  {
    if n > 0 {
      RepeatStays(q, word, n - 1);
      StageFromConcat(q, Repeat(word, n - 1), word);
    }
  }

  function AfterTurn(t: TurnShape): Stage {
    if t.published then HasPublished else InTurn
  }

  lemma TurnAccepted(q: Stage, t: TurnShape)
    requires q == Fresh || q == Waiting
    ensures StageFrom(q, TurnWord(t)) == AfterTurn(t)
  {
    var rounds := Repeat([AwaitingApproval, Running], t.approvals);
    assert StageFrom(q, [Running]) == InTurn;
    assert [AwaitingApproval, Running][..1] == [AwaitingApproval];
    assert StageFrom(InTurn, [AwaitingApproval]) == InApproval;
    RepeatStays(InTurn, [AwaitingApproval, Running], t.approvals);
    StageFromConcat(q, [Running], rounds);
    StageFromConcat(q, [Running] + rounds, if t.published then [Publishing] else []);
  }

  lemma WaitsAccepted(q: Stage, n: nat)
    requires q in {Resumed, InTurn, HasPublished, Waiting}
    ensures StageFrom(q, Repeat([AwaitingUserMessage], n)) == if n == 0 then q else Waiting
  {
    if n > 0 {
      WaitsAccepted(q, n - 1);
      StageFromConcat(q, Repeat([AwaitingUserMessage], n - 1), [AwaitingUserMessage]);
    }
  }

  lemma {:induction false} CyclesAccepted(q: Stage, cycles: seq<Cycle>)
    requires q in {Resumed, InTurn, HasPublished}
    requires forall c | c in cycles :: c.waits >= 1
    ensures
      StageFrom(q, CyclesWord(cycles)) ==
      if cycles == [] then q else AfterTurn(cycles[|cycles| - 1].turn)
  {
    if cycles != [] {
      var n := |cycles| - 1;
      var last := cycles[n];
      CyclesAccepted(q, cycles[..n]);
      var waits := Repeat([AwaitingUserMessage], last.waits);
      WaitsAccepted(StageFrom(q, CyclesWord(cycles[..n])), last.waits);
      StageFromConcat(q, CyclesWord(cycles[..n]), waits);
      TurnAccepted(Waiting, last.turn);
      StageFromConcat(q, CyclesWord(cycles[..n]) + waits, TurnWord(last.turn));
    }
  }

  lemma WordAccepted(shape: Shape, isResumed: bool)
    requires WellShaped(shape, isResumed)
    ensures StageFrom(Start(isResumed), Word(shape)) == StageOf(shape)
  {
    var q0 := Start(isResumed);
    var first := if shape.first.Some? then TurnWord(shape.first.value) else [];
    if shape.first.Some? { TurnAccepted(Fresh, shape.first.value); }
    var q1 := StageFrom(q0, first);
    CyclesAccepted(q1, shape.cycles);
    StageFromConcat(q0, first, CyclesWord(shape.cycles));
    var q2 := StageFrom(q0, first + CyclesWord(shape.cycles));
    WaitsAccepted(q2, shape.waits);
    StageFromConcat(q0, first + CyclesWord(shape.cycles), Repeat([AwaitingUserMessage], shape.waits));
  }

  // ------------------------------------------------------------- main results

  /** A shape, ended by COMPLETED. */
  predicate IsCompleted(isResumed: bool, shape: Shape, word: seq<TaskStatus>) {
    WellShaped(shape, isResumed) && word == Word(shape) + [Completed]
  }

  /** A shape cut short, at most in the middle of an approval, ended by FAILED. */
  predicate IsFailed(isResumed: bool, shape: Shape, word: seq<TaskStatus>) {
    && WellShaped(shape, isResumed)
    && (|| word == Word(shape) + [Failed]
        || (StageOf(shape) == InTurn && word == Word(shape) + [AwaitingApproval] + [Failed]))
  }

  lemma LastLetter(q: Stage, word: seq<TaskStatus>)
    requires StageFrom(q, word) in {EndCompleted, EndFailed} && q in {Fresh, Resumed}
    ensures word != []
    ensures StageFrom(q, word) == EndCompleted ==> word[|word| - 1] == Completed
    ensures StageFrom(q, word) == EndFailed ==> word[|word| - 1] == Failed
    ensures Open(StageFrom(q, word[..|word| - 1]))
    ensures StageFrom(q, word) == EndCompleted ==> StageFrom(q, word[..|word| - 1]) != InApproval
  {
  }

  lemma OneMore(q: Stage, word: seq<TaskStatus>, s: TaskStatus)
    ensures StageFrom(q, word + [s]) == Next(StageFrom(q, word), s)
  {
    assert (word + [s])[..|word|] == word;
  }

  lemma {:induction false} CompletedHasShape(isResumed: bool, word: seq<TaskStatus>) returns (shape: Shape)
    requires StageFrom(Start(isResumed), word) == EndCompleted
    ensures IsCompleted(isResumed, shape, word)
  {
    LastLetter(Start(isResumed), word);
    shape := ShapeOf(isResumed, word[..|word| - 1]);
    assert word[..|word| - 1] + [Completed] == word;
  }

  lemma {:induction false} FailedHasShape(isResumed: bool, word: seq<TaskStatus>) returns (shape: Shape)
    requires StageFrom(Start(isResumed), word) == EndFailed
    ensures IsFailed(isResumed, shape, word)
  {
    LastLetter(Start(isResumed), word);
    shape := ShapeOf(isResumed, word[..|word| - 1]);
    assert word[..|word| - 1] + [Failed] == word;
  }

  /** From a stage that is neither an end nor a pending approval, both ends are one letter away. */
  lemma EndsFollow(q: Stage, word: seq<TaskStatus>)
    requires StageFrom(q, word) in {InTurn, HasPublished, Waiting, Resumed}
    ensures StageFrom(q, word + [Completed]) == EndCompleted
    ensures StageFrom(q, word + [Failed]) == EndFailed
    ensures StageFrom(q, word) == InTurn ==> StageFrom(q, word + [AwaitingApproval] + [Failed]) == EndFailed
  {
    OneMore(q, word, Completed);
    OneMore(q, word, Failed);
    if StageFrom(q, word) == InTurn { PendingFails(q, word); }
  }

  lemma PendingFails(q: Stage, word: seq<TaskStatus>)
    requires StageFrom(q, word) == InTurn
    ensures StageFrom(q, word + [AwaitingApproval] + [Failed]) == EndFailed
  {
    OneMore(q, word, AwaitingApproval);
    OneMore(q, word + [AwaitingApproval], Failed);
  }

  lemma {:induction false} ShapeEnds(isResumed: bool, shape: Shape)
    requires WellShaped(shape, isResumed)
    ensures StageFrom(Start(isResumed), Word(shape) + [Completed]) == EndCompleted
    ensures StageFrom(Start(isResumed), Word(shape) + [Failed]) == EndFailed
    ensures
      StageOf(shape) == InTurn ==> StageFrom(Start(isResumed), Word(shape) + [AwaitingApproval] + [Failed]) == EndFailed
  {
    WordAccepted(shape, isResumed);
    EndsFollow(Start(isResumed), Word(shape));
  }

  /**
   The words of sessions that end well: a word brings the automaton to its completed
   state exactly when it is a shape followed by COMPLETED.
   */
  lemma CompletedWords(isResumed: bool, word: seq<TaskStatus>)
    ensures StageFrom(Start(isResumed), word) == EndCompleted <==> exists shape :: IsCompleted(isResumed, shape, word)
  {
    if StageFrom(Start(isResumed), word) == EndCompleted {
      var shape := CompletedHasShape(isResumed, word);
    }
    if shape :| IsCompleted(isResumed, shape, word) {
      ShapeEnds(isResumed, shape);
    }
  }

  /** And the words of sessions that fail. */
  lemma FailedWords(isResumed: bool, word: seq<TaskStatus>)
    ensures StageFrom(Start(isResumed), word) == EndFailed <==> exists shape :: IsFailed(isResumed, shape, word)
  {
    if StageFrom(Start(isResumed), word) == EndFailed {
      var shape := FailedHasShape(isResumed, word);
    }
    if shape :| IsFailed(isResumed, shape, word) {
      ShapeEnds(isResumed, shape);
    }
  }
}

/**
 The chat session of a task: one SDK client, a turn loop fed from the input queue,
 and the status writes. Awaited work whose result the session does not decide is
 given by a script: what raises, how long things take, what arrives meanwhile.
 */
module ChatSession {
  import opened Common
  import opened StatusLanguage
  import L = Lifecycle

  datatype EndReason = UserClosed | IdleTimeout | HardTimeout | Error

  /** An element of the Redis list: what `push` stores, or something that does not parse. */
  datatype Item = Chat(content: string) | Garbage

  /**
   One SDK turn: whether the RUNNING broadcasts, the persisting of the user message,
   the stream and the persisting of the reply succeed, how many gated tool calls were
   answered, whether the stream broke off while one was pending, the reply, and
   whether the post-turn callback got as far as PUBLISHING. The callback may raise at
   any point; that is swallowed.
   */
  datatype Turn = Turn(
    announced: bool,
    userPersisted: bool,
    approvals: nat,
    pendingApproval: bool,
    streamOk: bool,
    reply: string,
    replyPersisted: bool,
    publishes: bool)

  /**
   One round of the loop: whether a close request came in before it, the time that
   passes before each reading of the clock, whether the broadcasts and the BLPOP
   succeed, the items pushed meanwhile, how long the head of the list took to be
   there, and the turn that a message starts.
   */
  datatype Round = Round(
    close: bool,
    beforeCheck: Delay,
    announced: bool,
    beforeBudget: Delay,
    arrivals: seq<Item>,
    waitOk: bool,
    latency: Delay,
    turn: Turn)

  /** Whether the close event and the broadcast after the final status write succeed. */
  datatype Ending = Ending(announced: bool, statusAnnounced: bool)

  /** How one round of the loop goes on: another round, an orderly end, or an exception. */
  datatype Course = GoOn | Finish(reason: EndReason) | Throw

  datatype Outcome = Ended(reason: EndReason) | Raised | StillRunning

  function Contents(items: seq<Item>): seq<string> {
    if items == [] then []
    else
      var last := items[|items| - 1];
      Contents(items[..|items| - 1]) + if last.Chat? then [last.content] else []
  }

  lemma ContentsAppend(items: seq<Item>, item: Item)
    ensures Contents(items + [item]) == Contents(items) + if item.Chat? then [item.content] else []
  {
    assert (items + [item])[..|items|] == items;
  }

  /** Nothing in the turn raises. */
  predicate TurnOk(turn: Turn, isInitial: bool) {
    && turn.announced && (isInitial || turn.userPersisted) && turn.streamOk
    && (turn.reply == "" || turn.replyPersisted)
  }

  // ----------------------------------------------- what a script decides

  /** The statuses a turn writes before it ends or raises. */
  function TurnTrace(turn: Turn, isInitial: bool): seq<TaskStatus> {
    if !turn.announced || !(isInitial || turn.userPersisted) then [Running]
    else [Running] + Repeat([AwaitingApproval, Running], turn.approvals) + TurnTail(turn)
  }

  function TurnTail(turn: Turn): seq<TaskStatus> {
    if !turn.streamOk then if turn.pendingApproval then [AwaitingApproval] else []
    else if (turn.reply == "" || turn.replyPersisted) && turn.publishes then [Publishing]
    else []
  }

  /** So many statuses of each kind, and no others. */
  predicate Counts(word: seq<TaskStatus>, running: nat, approvals: nat, published: nat) {
    && multiset(word)[Running] == running && multiset(word)[AwaitingApproval] == approvals
    && multiset(word)[Publishing] == published && |word| == running + approvals + published
  }

  lemma CountsAdd(u: seq<TaskStatus>, r: nat, a: nat, p: nat, v: seq<TaskStatus>, r': nat, a': nat, p': nat)
    requires Counts(u, r, a, p) && Counts(v, r', a', p')
    ensures Counts(u + v, r + r', a + a', p + p')
  {
    assert multiset(u + v) == multiset(u) + multiset(v);
  }

  lemma {:induction false} RoundsCount(n: nat)
    ensures Counts(Repeat([AwaitingApproval, Running], n), n, n, 0)
  {
    if n > 0 {
      RoundsCount(n - 1);
      CountsAdd(Repeat([AwaitingApproval, Running], n - 1), n - 1, n - 1, 0, [AwaitingApproval, Running], 1, 1, 0);
    }
  }

  /** The approvals left pending when the stream breaks off, and the publishes, of a turn that has begun. */
  function PendingIn(turn: Turn): nat {
    if !turn.streamOk && turn.pendingApproval then 1 else 0
  }

  function PublishedIn(turn: Turn): nat {
    if turn.streamOk && (turn.reply == "" || turn.replyPersisted) && turn.publishes then 1 else 0
  }

  lemma TailCounts(turn: Turn)
    ensures Counts(TurnTail(turn), 0, PendingIn(turn), PublishedIn(turn))
  {
  }

  lemma BegunCounts(turn: Turn)
    ensures
      Counts([Running] + Repeat([AwaitingApproval, Running], turn.approvals) + TurnTail(turn),
             1 + turn.approvals, turn.approvals + PendingIn(turn), PublishedIn(turn))
  {
    var n, rounds := turn.approvals, Repeat([AwaitingApproval, Running], turn.approvals);
    TailCounts(turn);
    RoundsCount(n);
    CountsAdd([Running], 1, 0, 0, rounds, n, n, 0);
    CountsAdd([Running] + rounds, 1 + n, n, 0, TurnTail(turn), 0, PendingIn(turn), PublishedIn(turn));
  }

  /**
   Once begun, a turn writes RUNNING, an approval round trip for each answered tool call,
   one more approval for a pending one, and PUBLISHING when nothing raised before it.
   */
  lemma TurnCounts(turn: Turn, isInitial: bool)
    ensures
      if turn.announced && (isInitial || turn.userPersisted) then
        Counts(TurnTrace(turn, isInitial), 1 + turn.approvals, turn.approvals + PendingIn(turn), PublishedIn(turn))
      else TurnTrace(turn, isInitial) == [Running]
  {
    BegunCounts(turn);
  }

  /** What the loop carries from round to round; the deadline moves with the last user input. */
  datatype Loop = Loop(queue: seq<Item>, now: real, lastInput: real, closed: bool)
  datatype Clocks = Clocks(idle: real, hardEnd: real)

  function DeadlineOf(c: Clocks, l: Loop): real {
    L.Min(l.lastInput + c.idle, c.hardEnd)
  }

  /** Statuses written, how it goes on, and the loop afterwards. */
  datatype Trace = Trace(word: seq<TaskStatus>, course: Course, after: Loop)

  /** The BLPOP, with the budget read now. */
  function Popped(c: Clocks, l: Loop, round: Round): Loop {
    var timeout := L.BlpopTimeout(DeadlineOf(c, l) - l.now) as real;
    var items := l.queue + round.arrivals;
    if items == [] then l.(queue := [], now := l.now + timeout + round.latency)
    else l.(queue := items[1..], now := l.now + L.Min(round.latency, timeout))
  }

  predicate HeadIsChat(items: seq<Item>) {
    items != [] && items[0].Chat?
  }

  function WaitTrace(c: Clocks, l: Loop, round: Round): Trace {
    var after := Popped(c, l, round);
    if !HeadIsChat(l.queue + round.arrivals) then Trace([], GoOn, after)
    else
      var course := if TurnOk(round.turn, false) then GoOn else Throw;
      Trace(TurnTrace(round.turn, false), course, after.(lastInput := after.now))
  }

  /** The loop when the budget is read. */
  function AtBudget(l: Loop, round: Round): Loop {
    l.(now := l.now + round.beforeBudget)
  }

  function BudgetTrace(c: Clocks, l: Loop, round: Round): Trace {
    var late := AtBudget(l, round);
    if DeadlineOf(c, late) <= late.now then Trace([], GoOn, late)
    else if !round.waitOk then Trace([], Throw, late)
    else WaitTrace(c, late, round)
  }

  /** The loop when the clocks are checked. */
  function Checked(l: Loop, round: Round): Loop {
    Loop(l.queue, l.now + round.beforeCheck, l.lastInput, l.closed || round.close)
  }

  function RoundTrace(c: Clocks, l: Loop, round: Round): Trace {
    var asked := l.(closed := l.closed || round.close);
    if asked.closed then Trace([], Finish(UserClosed), asked)
    else
      var checked := asked.(now := l.now + round.beforeCheck);
      if c.hardEnd <= checked.now then Trace([], Finish(HardTimeout), checked)
      else if l.lastInput + c.idle <= checked.now then Trace([], Finish(IdleTimeout), checked)
      else if !round.announced then Trace([AwaitingUserMessage], Throw, checked)
      else
        var t := BudgetTrace(c, checked, round);
        t.(word := [AwaitingUserMessage] + t.word)
  }

  function RoundsTrace(c: Clocks, l: Loop, rounds: seq<Round>): Trace {
    if rounds == [] then Trace([], GoOn, l)
    else
      var t := RoundsTrace(c, l, rounds[..|rounds| - 1]);
      if !t.course.GoOn? then t
      else
        var r := RoundTrace(c, t.after, rounds[|rounds| - 1]);
        r.(word := t.word + r.word)
  }

  // ------------------------------------ and what it makes of the messages

  /** Items pushed and popped, how late each was popped, messages stored, turns counted. */
  datatype Deeds = Deeds(came: seq<Item>, taken: seq<Item>, late: seq<real>, stored: seq<string>, turns: nat)

  const NOTHING := Deeds([], [], [], [], 0)

  function Plus(a: Deeds, b: Deeds): Deeds {
    Deeds(a.came + b.came, a.taken + b.taken, a.late + b.late, a.stored + b.stored, a.turns + b.turns)
  }

  lemma Associative<T>(a: seq<T>, b: seq<T>, c: seq<T>)
    ensures (a + b) + c == a + (b + c)
  {
  }

  lemma PlusNothing(d: Deeds)
    ensures Plus(d, NOTHING) == d == Plus(NOTHING, d)
  {
    assert d.came + [] == d.came && d.taken + [] == d.taken && d.late + [] == d.late && d.stored + [] == d.stored;
  }

  lemma PlusAssociative(a: Deeds, b: Deeds, d: Deeds)
    ensures Plus(Plus(a, b), d) == Plus(a, Plus(b, d))
  {
    Associative(a.came, b.came, d.came);
    Associative(a.taken, b.taken, d.taken);
    Associative(a.late, b.late, d.late);
    Associative(a.stored, b.stored, d.stored);
  }

  /** A follow-up message is stored before the stream, and the turn counted after it. */
  function TurnDeeds(text: string, isInitial: bool, turn: Turn): Deeds {
    if !turn.announced || !(isInitial || turn.userPersisted) then NOTHING
    else Deeds([], [], [], if isInitial then [] else [text], if turn.streamOk then 1 else 0)
  }

  /** The BLPOP takes the head, so long after the deadline it was given. */
  function PopDeeds(c: Clocks, l: Loop, round: Round): Deeds {
    var items := l.queue + round.arrivals;
    if items == [] then NOTHING
    else Deeds(round.arrivals, [items[0]], [Popped(c, l, round).now - DeadlineOf(c, l)], [], 0)
  }

  function WaitDeeds(c: Clocks, l: Loop, round: Round): Deeds {
    var items := l.queue + round.arrivals;
    if !HeadIsChat(items) then PopDeeds(c, l, round)
    else Plus(PopDeeds(c, l, round), TurnDeeds(items[0].content, false, round.turn))
  }

  function BudgetDeeds(c: Clocks, l: Loop, round: Round): Deeds {
    var late := AtBudget(l, round);
    if DeadlineOf(c, late) <= late.now || !round.waitOk then NOTHING else WaitDeeds(c, late, round)
  }

  function RoundDeeds(c: Clocks, l: Loop, round: Round): Deeds {
    var checked := Checked(l, round);
    if checked.closed || DeadlineOf(c, checked) <= checked.now || !round.announced then NOTHING
    else BudgetDeeds(c, checked, round)
  }

  function RoundsDeeds(c: Clocks, l: Loop, rounds: seq<Round>): Deeds {
    if rounds == [] then NOTHING
    else
      var front := rounds[..|rounds| - 1];
      var t := RoundsTrace(c, l, front);
      if !t.course.GoOn? then RoundsDeeds(c, l, front)
      else Plus(RoundsDeeds(c, l, front), RoundDeeds(c, t.after, rounds[|rounds| - 1]))
  }

  lemma RoundsNext(c: Clocks, l: Loop, rounds: seq<Round>, n: nat)
    requires n < |rounds| && RoundsTrace(c, l, rounds[..n]).course.GoOn?
    ensures
      var t := RoundsTrace(c, l, rounds[..n]);
      var r := RoundTrace(c, t.after, rounds[n]);
      && RoundsTrace(c, l, rounds[..n + 1]) == r.(word := t.word + r.word)
      && RoundsDeeds(c, l, rounds[..n + 1]) == Plus(RoundsDeeds(c, l, rounds[..n]), RoundDeeds(c, t.after, rounds[n]))
  {
    assert rounds[..n + 1][..n] == rounds[..n];
  }

  /** The loop never ends orderly for the reason ERROR. */
  lemma {:induction false} FinishesInOrder(c: Clocks, l: Loop, rounds: seq<Round>)
    ensures RoundsTrace(c, l, rounds).course != Finish(Error)
  {
    if rounds != [] { FinishesInOrder(c, l, rounds[..|rounds| - 1]); }
  }

  /** The reason of an orderly end: a close request, else the hard clock, else the idle one. */
  predicate Tells(c: Clocks, t: Trace) {
    t.course.Finish? ==>
      && (t.course.reason == UserClosed <==> t.after.closed)
      && (t.course.reason == HardTimeout <==> !t.after.closed && c.hardEnd <= t.after.now)
      && (t.course.reason == IdleTimeout <==>
            !t.after.closed && t.after.now < c.hardEnd && t.after.lastInput + c.idle <= t.after.now)
  }

  lemma {:induction false} ReasonsTell(c: Clocks, l: Loop, rounds: seq<Round>)
    ensures Tells(c, RoundsTrace(c, l, rounds))
  {
    if rounds != [] { ReasonsTell(c, l, rounds[..|rounds| - 1]); }
  }

  /** Once a round does not go on, the later ones change nothing. */
  lemma {:induction false} RoundsStop(c: Clocks, l: Loop, rounds: seq<Round>, n: nat)
    requires n <= |rounds| && !RoundsTrace(c, l, rounds[..n]).course.GoOn?
    ensures RoundsTrace(c, l, rounds) == RoundsTrace(c, l, rounds[..n])
    ensures RoundsDeeds(c, l, rounds) == RoundsDeeds(c, l, rounds[..n])
    decreases |rounds|
  {
    if n == |rounds| {
      assert rounds[..n] == rounds;
    } else {
      var front := rounds[..|rounds| - 1];
      assert front[..n] == rounds[..n];
      RoundsStop(c, l, front, n);
    }
  }

  /** A whole run: its first turn, its rounds, how the orderly end goes, and how the failing one. */
  datatype Script = Script(first: Turn, rounds: seq<Round>, ending: Ending, failure: Ending)

  function LoopTrace(c: Clocks, l: Loop, isResumed: bool, script: Script): Trace {
    if isResumed then RoundsTrace(c, l, script.rounds)
    else if !TurnOk(script.first, true) then Trace(TurnTrace(script.first, true), Throw, l)
    else
      var t := RoundsTrace(c, l, script.rounds);
      t.(word := TurnTrace(script.first, true) + t.word)
  }

  function LoopDeeds(c: Clocks, l: Loop, isResumed: bool, script: Script): Deeds {
    if isResumed then RoundsDeeds(c, l, script.rounds)
    else if !TurnOk(script.first, true) then TurnDeeds("", true, script.first)
    else Plus(TurnDeeds("", true, script.first), RoundsDeeds(c, l, script.rounds))
  }

  /** What the ending adds, and whether it succeeds. */
  function EndWord(course: Course, script: Script): seq<TaskStatus> {
    match course
    case GoOn => []
    case Throw => [Failed]
    case Finish(_) =>
      if !script.ending.announced then [Failed]
      else if !script.ending.statusAnnounced then [Completed, Failed]
      else [Completed]
  }

  function OutcomeOf(course: Course, script: Script): Outcome {
    match course
    case GoOn => StillRunning
    case _ =>
      if course.Finish? && script.ending.announced && script.ending.statusAnnounced then Ended(course.reason)
      else if script.failure.statusAnnounced then Ended(Error)
      else Raised
  }

  /** The statuses a connected session writes under a script. */
  function RunWord(c: Clocks, l: Loop, isResumed: bool, script: Script): seq<TaskStatus> {
    var t := LoopTrace(c, l, isResumed, script);
    t.word + EndWord(t.course, script)
  }

  function RunOutcome(c: Clocks, l: Loop, isResumed: bool, script: Script): Outcome {
    OutcomeOf(LoopTrace(c, l, isResumed, script).course, script)
  }

  // ------------------------------------------- no message is lost or taken late

  /** First in, first out: what was taken and what is left are what was there and what came. */
  predicate InOrder(l: Loop, d: Deeds, after: Loop) {
    d.taken + after.queue == l.queue + d.came
  }

  /** Each item was taken less than a second after its deadline. */
  predicate InTime(d: Deeds) {
    |d.late| == |d.taken| && forall x | x in d.late :: x < 1.0
  }

  /**
   The messages taken are stored once each and in order, and each has its turn; where
   something raises the last one may be missing.
   */
  predicate Accounted(d: Deeds, course: Course) {
    && d.stored <= Contents(d.taken) && |Contents(d.taken)| <= |d.stored| + 1
    && d.turns <= |d.stored| <= d.turns + 1
    && (!course.Throw? ==> d.stored == Contents(d.taken) && d.turns == |d.stored|)
  }

  lemma PoppedInTime(budget: real, latency: Delay)
    requires budget > 0.0
    ensures L.Min(latency, L.BlpopTimeout(budget) as real) - budget < 1.0
  {
    L.TimeoutOvershoot(budget);
  }

  lemma PopFits(c: Clocks, l: Loop, round: Round)
    requires l.now < DeadlineOf(c, l)
    ensures InOrder(l, PopDeeds(c, l, round), Popped(c, l, round)) && InTime(PopDeeds(c, l, round))
  {
    PoppedInTime(DeadlineOf(c, l) - l.now, round.latency);
    var items := l.queue + round.arrivals;
    if items != [] { assert [items[0]] + items[1..] == items; }
  }

  lemma PopTakesOne(c: Clocks, l: Loop, round: Round)
    ensures
      var items := l.queue + round.arrivals;
      var p := PopDeeds(c, l, round);
      && Contents(p.taken) == (if HeadIsChat(items) then [items[0].content] else [])
      && p.stored == [] && p.turns == 0
  {
    var items := l.queue + round.arrivals;
    if items != [] {
      ContentsAppend([], items[0]);
      assert [] + [items[0]] == [items[0]];
    }
  }

  lemma TurnFits(p: Deeds, content: string, turn: Turn)
    requires Contents(p.taken) == [content] && p.stored == [] && p.turns == 0
    ensures
      Accounted(Plus(p, TurnDeeds(content, false, turn)), if TurnOk(turn, false) then GoOn else Throw)
  {
    assert p.taken + [] == p.taken && [] + [content] == [content];
  }

  lemma WaitFits(c: Clocks, l: Loop, round: Round)
    requires l.now < DeadlineOf(c, l)
    ensures
      var t := WaitTrace(c, l, round);
      var d := WaitDeeds(c, l, round);
      InOrder(l, d, t.after) && InTime(d) && Accounted(d, t.course)
  {
    var p := PopDeeds(c, l, round);
    var items := l.queue + round.arrivals;
    PopFits(c, l, round);
    PopTakesOne(c, l, round);
    if HeadIsChat(items) {
      TurnFits(p, items[0].content, round.turn);
      assert p.came + [] == p.came && p.taken + [] == p.taken && p.late + [] == p.late;
    }
  }

  lemma RoundFits(c: Clocks, l: Loop, round: Round)
    ensures
      var t := RoundTrace(c, l, round);
      var d := RoundDeeds(c, l, round);
      InOrder(l, d, t.after) && InTime(d) && Accounted(d, t.course)
  {
    var late := AtBudget(Checked(l, round), round);
    if late.now < DeadlineOf(c, late) { WaitFits(c, late, round); }
    assert [] + l.queue == l.queue + [];
  }

  lemma {:induction false} ContentsConcat(a: seq<Item>, b: seq<Item>)
    ensures Contents(a + b) == Contents(a) + Contents(b)
  {
    if b == [] {
      assert a + b == a;
    } else {
      assert (a + b)[..|a + b| - 1] == a + b[..|b| - 1];
      ContentsConcat(a, b[..|b| - 1]);
    }
  }

  lemma OrderChains(l: Loop, a: Deeds, m: Loop, b: Deeds, after: Loop)
    requires InOrder(l, a, m) && InOrder(m, b, after)
    ensures InOrder(l, Plus(a, b), after)
  {
    Associative(a.taken, b.taken, after.queue);
    Associative(a.taken, m.queue, b.came);
    Associative(l.queue, a.came, b.came);
  }

  lemma AccountsChain(a: Deeds, b: Deeds, course: Course)
    requires Accounted(a, GoOn) && Accounted(b, course)
    ensures Accounted(Plus(a, b), course)
  {
    ContentsConcat(a.taken, b.taken);
  }

  lemma {:induction false} RoundsFit(c: Clocks, l: Loop, rounds: seq<Round>)
    ensures
      var t := RoundsTrace(c, l, rounds);
      var d := RoundsDeeds(c, l, rounds);
      InOrder(l, d, t.after) && InTime(d) && Accounted(d, t.course)
  {
    if rounds == [] {
      assert [] + l.queue == l.queue + [];
    } else {
      var front := rounds[..|rounds| - 1];
      var t := RoundsTrace(c, l, front);
      RoundsFit(c, l, front);
      if t.course.GoOn? {
        var round := rounds[|rounds| - 1];
        RoundFits(c, t.after, round);
        OrderChains(l, RoundsDeeds(c, l, front), t.after, RoundDeeds(c, t.after, round),
          RoundTrace(c, t.after, round).after);
        AccountsChain(RoundsDeeds(c, l, front), RoundDeeds(c, t.after, round), RoundTrace(c, t.after, round).course);
      }
    }
  }

  /** Whatever the script, messages are taken in the order in which they were pushed. */
  lemma MessagesInOrder(c: Clocks, l: Loop, isResumed: bool, script: Script)
    ensures
      var t := LoopTrace(c, l, isResumed, script);
      var d := LoopDeeds(c, l, isResumed, script);
      d.taken + t.after.queue == l.queue + d.came
  {
    RoundsFit(c, l, script.rounds);
    var d := RoundsDeeds(c, l, script.rounds);
    assert [] + d.taken == d.taken && [] + d.came == d.came && [] + l.queue == l.queue + [];
  }

  /** None of them a second late. */
  lemma NoneIsLate(c: Clocks, l: Loop, isResumed: bool, script: Script)
    ensures
      var d := LoopDeeds(c, l, isResumed, script);
      |d.late| == |d.taken| && forall x | x in d.late :: x < 1.0
  {
    RoundsFit(c, l, script.rounds);
  }

  /**
   Every message taken is stored exactly once and has exactly one turn, beside the
   first turn of a new session, unless something raises in the loop: then at most the
   last message is not stored, and at most the last turn not counted.
   */
  lemma MessagesStoredOnce(c: Clocks, l: Loop, isResumed: bool, script: Script)
    ensures
      var t := LoopTrace(c, l, isResumed, script);
      var d := LoopDeeds(c, l, isResumed, script);
      var first := if isResumed then 0 else 1;
      && d.stored <= Contents(d.taken) && |Contents(d.taken)| <= |d.stored| + 1
      && d.turns <= |d.stored| + first <= d.turns + 1
      && (!t.course.Throw? ==> d.stored == Contents(d.taken) && d.turns == |d.stored| + first)
  {
    RoundsFit(c, l, script.rounds);
    if !isResumed && TurnOk(script.first, true) {
      var d := RoundsDeeds(c, l, script.rounds);
      assert [] + d.taken == d.taken && [] + d.stored == d.stored;
    }
  }

  /** The three together. */
  lemma RunFits(c: Clocks, l: Loop, isResumed: bool, script: Script)
    ensures
      var t := LoopTrace(c, l, isResumed, script);
      var d := LoopDeeds(c, l, isResumed, script);
      && InOrder(l, d, t.after) && InTime(d) && d.stored <= Contents(d.taken)
      && (!t.course.Throw? ==> d.stored == Contents(d.taken) && d.turns == |d.stored| + if isResumed then 0 else 1)
  {
    MessagesInOrder(c, l, isResumed, script);
    NoneIsLate(c, l, isResumed, script);
    MessagesStoredOnce(c, l, isResumed, script);
  }

  /** How a run ends is what it wrote last, and why it ended is what the loop left behind says. */
  lemma OutcomeTells(c: Clocks, l: Loop, isResumed: bool, script: Script)
    ensures
      var a := LoopTrace(c, l, isResumed, script).after;
      var word := RunWord(c, l, isResumed, script);
      var o := RunOutcome(c, l, isResumed, script);
      && (o.Ended? ==> word != [] && word[|word| - 1] == if o.reason == Error then Failed else Completed)
      && (o.Raised? ==> word != [] && word[|word| - 1] == Failed)
      && (o == Ended(Error) ==> script.failure.statusAnnounced) && (o.Raised? ==> !script.failure.statusAnnounced)
      && (o.Ended? && o.reason != Error ==>
            && (o.reason == UserClosed <==> a.closed)
            && (o.reason == HardTimeout <==> !a.closed && c.hardEnd <= a.now)
            && (o.reason == IdleTimeout <==> !a.closed && a.now < c.hardEnd && a.lastInput + c.idle <= a.now))
  {
    ReasonsTell(c, l, script.rounds);
    FinishesInOrder(c, l, script.rounds);
  }

  // ----------------------------------------------------------- the session itself

  /** What the session has shown so far: statuses written, the loop, and the messages. */
  datatype Shown = Shown(written: seq<TaskStatus>, at: Loop, made: Deeds)

  /** From `before`, a trace and its deeds have led to `now`. */
  predicate Leads(before: Shown, t: Trace, d: Deeds, now: Shown) {
    now.written == before.written + t.word && now.at == t.after && now.made == Plus(before.made, d)
  }

  lemma LeadsNext(c: Clocks, s0: Shown, rounds: seq<Round>, i: nat, s1: Shown, s2: Shown)
    requires i < |rounds| && RoundsTrace(c, s0.at, rounds[..i]).course.GoOn?
    requires Leads(s0, RoundsTrace(c, s0.at, rounds[..i]), RoundsDeeds(c, s0.at, rounds[..i]), s1)
    requires Leads(s1, RoundTrace(c, s1.at, rounds[i]), RoundDeeds(c, s1.at, rounds[i]), s2)
    ensures Leads(s0, RoundsTrace(c, s0.at, rounds[..i + 1]), RoundsDeeds(c, s0.at, rounds[..i + 1]), s2)
    ensures RoundsTrace(c, s0.at, rounds[..i + 1]).course == RoundTrace(c, s1.at, rounds[i]).course
  {
    RoundsNext(c, s0.at, rounds, i);
    Associative(s0.written, RoundsTrace(c, s0.at, rounds[..i]).word, RoundTrace(c, s1.at, rounds[i]).word);
    PlusAssociative(s0.made, RoundsDeeds(c, s0.at, rounds[..i]), RoundDeeds(c, s1.at, rounds[i]));
  }

  /**
   The session runs as its functions above say: the statuses, the loop and what becomes
   of every message are those of the script.
   */
  class SDKChatSession {
    const initialPrompt: string
    const isResumed: bool
    const lifecycle: L.Lifecycle
    var turnCount: nat
    var closeRequested: bool
    /** The Redis list of the task and the clock. */
    var queue: seq<Item>
    var now: real

    // What the session did: statuses committed, items pushed and popped, messages stored.
    ghost var statuses: seq<TaskStatus>
    ghost var accepted: seq<Item>
    ghost var dequeued: seq<Item>
    ghost var persisted: seq<string>
    /** For every item popped, how long after the deadline of its wait it was popped. */
    ghost var lateness: seq<real>

    /** Nothing has happened since the constructor, but perhaps a close request. */
    ghost predicate Untouched()
      reads this
    {
      && statuses == [] && accepted == queue && dequeued == [] && persisted == []
      && lateness == [] && turnCount == 0
    }

    ghost function View(): Loop
      reads this, lifecycle
    {
      Loop(queue, now, lifecycle.lastUserInputAt, closeRequested)
    }

    ghost function Made(): Deeds
      reads this
    {
      Deeds(accepted, dequeued, lateness, persisted, turnCount)
    }

    ghost function State(): Shown
      reads this, lifecycle
    {
      Shown(statuses, View(), Made())
    }

    ghost function Bounds(): Clocks {
      Clocks(lifecycle.idleTimeout, lifecycle.startedAt + lifecycle.hardTimeout)
    }

    constructor (prompt: string, isResumed: bool, idle: Option<real>, hard: Option<real>, queue: seq<Item>, now: real)
      ensures Untouched() && fresh(lifecycle)
      ensures this.isResumed == isResumed && initialPrompt == prompt && !closeRequested
      ensures this.queue == queue && this.now == now
    {
      initialPrompt, this.isResumed := prompt, isResumed;
      lifecycle := new L.Lifecycle(idle, hard, now);
      turnCount, closeRequested := 0, false;
      this.queue, this.now := queue, now;
      statuses, accepted, dequeued, persisted, lateness := [], queue, [], [], [];
    }

    /** `request_close` with its default reason: only remembered, the loop looks at it between turns. */
    method RequestClose()
      modifies this`closeRequested
      ensures closeRequested
    {
      closeRequested := true;
    }

    /** Commits a status; the broadcast that follows may raise. */
    method SetStatus(status: TaskStatus, announced: bool) returns (ok: bool)
      modifies this`statuses
      ensures ok == announced && statuses == old(statuses) + [status]
    {
      statuses := statuses + [status];
      return announced;
    }

    /** The SDK streams its response; every gated tool call on the way is an approval round trip. */
    method StreamResponse(turn: Turn) returns (ok: bool)
      modifies this`statuses
      ensures ok == turn.streamOk
      ensures statuses == old(statuses) + Repeat([AwaitingApproval, Running], turn.approvals)
        + if !ok && turn.pendingApproval then [AwaitingApproval] else []
    {
      for i := 0 to turn.approvals
        invariant statuses == old(statuses) + Repeat([AwaitingApproval, Running], i)
      {
        var _ := SetStatus(AwaitingApproval, true);
        var _ := SetStatus(Running, true);
      }
      if !turn.streamOk && turn.pendingApproval {
        var _ := SetStatus(AwaitingApproval, true);
      }
      return turn.streamOk;
    }

    /** One user message and everything the agent does about it; false when something raises. */
    method RunOneTurn(text: string, isInitial: bool, turn: Turn) returns (ok: bool)
      modifies this`statuses, this`persisted, this`turnCount
      ensures ok == TurnOk(turn, isInitial) && statuses == old(statuses) + TurnTrace(turn, isInitial)
      ensures Made() == Plus(old(Made()), TurnDeeds(text, isInitial, turn))
      ensures
        ok <==>
        && turn.announced && (isInitial || turn.userPersisted) && turn.streamOk
        && (turn.reply == "" || turn.replyPersisted)
      ensures ok && turn.publishes ==> statuses[|statuses| - 1] == Publishing
      ensures persisted == old(persisted) + if !isInitial && turn.announced && turn.userPersisted then [text] else []
      ensures
        var counted := turn.announced && (isInitial || turn.userPersisted) && turn.streamOk;
        turnCount == old(turnCount) + if counted then 1 else 0
    {
      PlusNothing(Made());
      ok := SetStatus(Running, turn.announced);
      if !ok { return; }
      if !isInitial {
        if !turn.userPersisted { return false; }
        persisted := persisted + [text];
      }
      ok := StreamResponse(turn);
      if !ok { return; }
      turnCount := turnCount + 1;
      if turn.reply != "" && !turn.replyPersisted { return false; }
      // The post-turn callback; what it raises is swallowed.
      if turn.publishes {
        var _ := SetStatus(Publishing, true);
      }
      return true;
    }

    /** Writes the final status for `reason`; false when a broadcast raises. */
    method End(reason: EndReason, ending: Ending) returns (ok: bool)
      modifies this`statuses
      ensures
        if reason != Error && !ending.announced then statuses == old(statuses) && !ok
        else statuses == old(statuses) + [if reason == Error then Failed else Completed] && ok == ending.statusAnnounced
    {
      if reason == Error {
        ok := SetStatus(Failed, ending.statusAnnounced);
      } else {
        if !ending.announced { return false; }
        ok := SetStatus(Completed, ending.statusAnnounced);
      }
    }

    /** BLPOP with the rounded budget: the head of the list when it is there in time. */
    method WaitForMessage(budget: real, round: Round) returns (message: Option<string>)
      requires budget > 0.0 && budget == lifecycle.RemainingSec(now)
      modifies this`queue, this`now, this`accepted, this`dequeued, this`lateness
      ensures View() == Popped(Bounds(), old(View()), round)
      ensures Made() == Plus(old(Made()), PopDeeds(Bounds(), old(View()), round))
      ensures
        var items := old(queue) + round.arrivals;
        if items == [] then
          && message == None && dequeued == old(dequeued)
          && now == old(now) + L.BlpopTimeout(budget) as real + round.latency
        else
          && message == (match items[0] { case Chat(content) => Some(content) case Garbage => None })
          && dequeued == old(dequeued) + [items[0]] && queue == items[1..]
          && now == old(now) + L.Min(round.latency, L.BlpopTimeout(budget) as real)
          && lateness == old(lateness) + [now - lifecycle.Deadline()] && now - lifecycle.Deadline() < 1.0
    {
      var timeout := L.BlpopTimeout(budget) as real;
      PlusNothing(Made());
      PoppedInTime(budget, round.latency);
      queue, accepted := queue + round.arrivals, accepted + round.arrivals;
      if queue == [] {
        now := now + timeout + round.latency;
        return None;
      }
      message := Pop();
      now := now + L.Min(round.latency, timeout);
      assert now - lifecycle.Deadline() == L.Min(round.latency, timeout) - budget;
      lateness := lateness + [now - lifecycle.Deadline()];
    }

    /** The head of the list; None for an entry that does not parse. */
    method Pop() returns (message: Option<string>)
      requires queue != []
      modifies this`queue, this`dequeued
      ensures dequeued == old(dequeued) + [old(queue)[0]] && queue == old(queue)[1..]
      ensures message == match old(queue)[0] { case Chat(content) => Some(content) case Garbage => None }
    {
      var item := queue[0];
      dequeued, queue := dequeued + [item], queue[1..];
      message := if item.Chat? then Some(item.content) else None;
    }

    /** Waits for the next message and runs its turn. */
    method WaitAndTurn(round: Round, budget: real) returns (course: Course)
      requires budget > 0.0 && budget == lifecycle.RemainingSec(now)
      modifies this, lifecycle
      ensures course == WaitTrace(Bounds(), old(View()), round).course
      ensures
        Leads(old(State()), WaitTrace(Bounds(), old(View()), round), WaitDeeds(Bounds(), old(View()), round), State())
    {
      ghost var made, popped := Made(), PopDeeds(Bounds(), View(), round);
      var message := WaitForMessage(budget, round);
      if message.None? { return GoOn; }
      lifecycle.MarkUserInput(now);
      var ok := RunOneTurn(message.value, false, round.turn);
      PlusAssociative(made, popped, TurnDeeds(message.value, false, round.turn));
      return if ok then GoOn else Throw;
    }

    /** The rest of the round, once the session has announced that it waits. */
    method SpendBudget(round: Round) returns (course: Course)
      modifies this, lifecycle
      ensures course == BudgetTrace(Bounds(), old(View()), round).course
      ensures
        Leads(old(State()), BudgetTrace(Bounds(), old(View()), round), BudgetDeeds(Bounds(), old(View()), round),
          State())
    {
      PlusNothing(Made());
      now := now + round.beforeBudget;
      assert View() == AtBudget(old(View()), round);
      var budget := lifecycle.RemainingSec(now);
      if budget <= 0.0 { return GoOn; }
      if !round.waitOk { return Throw; }
      course := WaitAndTurn(round, budget);
    }

    /** The check of the close request and of the clocks. */
    method Check(round: Round) returns (course: Course)
      modifies this`closeRequested, this`now
      ensures
        if old(closeRequested) || round.close then
          course == Finish(UserClosed) && View() == old(View()).(closed := true)
        else
          && View() == Checked(old(View()), round)
          && course == (if Bounds().hardEnd <= now then Finish(HardTimeout)
                        else if DeadlineOf(Bounds(), View()) <= now then Finish(IdleTimeout)
                        else GoOn)
    {
      if round.close { RequestClose(); }
      if closeRequested { return Finish(UserClosed); }
      now := now + round.beforeCheck;
      var expiry := lifecycle.Expired(now);
      if expiry.Some? { return Finish(if expiry.value.IdleExpired? then IdleTimeout else HardTimeout); }
      return GoOn;
    }

    method OneRound(round: Round) returns (course: Course)
      modifies this, lifecycle
      ensures course == RoundTrace(Bounds(), old(View()), round).course
      ensures
        Leads(old(State()), RoundTrace(Bounds(), old(View()), round), RoundDeeds(Bounds(), old(View()), round), State())
    {
      PlusNothing(Made());
      course := Check(round);
      if course.Finish? { return; }
      var ok := SetStatus(AwaitingUserMessage, round.announced);
      if !ok { return Throw; }
      Associative(old(statuses), [AwaitingUserMessage], BudgetTrace(Bounds(), View(), round).word);
      course := SpendBudget(round);
    }

    method NextRound(rounds: seq<Round>, i: nat, ghost s0: Shown) returns (course: Course)
      requires i < |rounds| && RoundsTrace(Bounds(), s0.at, rounds[..i]).course.GoOn?
      requires
        Leads(s0, RoundsTrace(Bounds(), s0.at, rounds[..i]), RoundsDeeds(Bounds(), s0.at, rounds[..i]), State())
      modifies this, lifecycle
      ensures course == RoundsTrace(Bounds(), s0.at, rounds[..i + 1]).course
      ensures
        Leads(s0, RoundsTrace(Bounds(), s0.at, rounds[..i + 1]), RoundsDeeds(Bounds(), s0.at, rounds[..i + 1]), State())
    {
      ghost var s1 := State();
      course := OneRound(rounds[i]);
      LeadsNext(Bounds(), s0, rounds, i, s1, State());
    }

    /** The `while` loop, as far as the script of rounds goes. */
    method Rounds(rounds: seq<Round>) returns (course: Course)
      modifies this, lifecycle
      ensures course == RoundsTrace(Bounds(), old(View()), rounds).course
      ensures
        Leads(old(State()), RoundsTrace(Bounds(), old(View()), rounds), RoundsDeeds(Bounds(), old(View()), rounds),
          State())
    {
      ghost var s0 := State();
      PlusNothing(s0.made);
      for i := 0 to |rounds|
        invariant RoundsTrace(Bounds(), s0.at, rounds[..i]).course.GoOn?
        invariant
          Leads(s0, RoundsTrace(Bounds(), s0.at, rounds[..i]), RoundsDeeds(Bounds(), s0.at, rounds[..i]), State())
      {
        course := NextRound(rounds, i, s0);
        if !course.GoOn? {
          RoundsStop(Bounds(), s0.at, rounds, i + 1);
          return;
        }
      }
      assert rounds[..|rounds|] == rounds;
      return GoOn;
    }

    /** The orderly end, and the `except` block for whatever raised. */
    method Conclude(course: Course, script: Script) returns (outcome: Outcome)
      requires !course.GoOn? && course != Finish(Error)
      modifies this`statuses
      ensures statuses == old(statuses) + EndWord(course, script) && outcome == OutcomeOf(course, script)
    {
      var ok := false;
      if course.Finish? {
        ok := End(course.reason, script.ending);
        if ok { return Ended(course.reason); }
      }
      ok := End(Error, script.failure);
      outcome := if ok then Ended(Error) else Raised;
    }

    /** The `try` block of `run`, up to its orderly end. */
    method TurnLoop(script: Script) returns (course: Course)
      modifies this, lifecycle
      ensures course == LoopTrace(Bounds(), old(View()), isResumed, script).course && course != Finish(Error)
      ensures
        Leads(old(State()), LoopTrace(Bounds(), old(View()), isResumed, script),
              LoopDeeds(Bounds(), old(View()), isResumed, script), State())
    {
      FinishesInOrder(Bounds(), View(), script.rounds);
      ghost var s0 := State();
      if !isResumed {
        var ok := RunOneTurn(initialPrompt, true, script.first);
        if !ok { return Throw; }
        Associative(s0.written, TurnTrace(script.first, true), RoundsTrace(Bounds(), s0.at, script.rounds).word);
        PlusAssociative(s0.made, TurnDeeds("", true, script.first), RoundsDeeds(Bounds(), s0.at, script.rounds));
      }
      course := Rounds(script.rounds);
    }

    /** The loop and whatever ends it. */
    method Drive(script: Script) returns (outcome: Outcome)
      requires Untouched()
      modifies this, lifecycle
      ensures statuses == RunWord(Bounds(), old(View()), isResumed, script)
      ensures outcome == RunOutcome(Bounds(), old(View()), isResumed, script)
      ensures View() == LoopTrace(Bounds(), old(View()), isResumed, script).after
      ensures
        var d := LoopDeeds(Bounds(), old(View()), isResumed, script);
        Made() == Deeds(old(queue) + d.came, d.taken, d.late, d.stored, d.turns)
    {
      ghost var c, l := Bounds(), View();
      ghost var d := LoopDeeds(c, l, isResumed, script);
      ghost var word := LoopTrace(c, l, isResumed, script).word;
      assert [] + word == word && [] + d.taken == d.taken && [] + d.late == d.late && [] + d.stored == d.stored;
      var course := TurnLoop(script);
      if course.GoOn? { return StillRunning; }
      outcome := Conclude(course, script);
    }

    /**
     `run`: a connected session writes exactly the statuses its script decides and
     returns accordingly, unless the teardown raises. The items that came, those taken,
     how late each was, the messages stored and the turns counted are the script's too;
     so messages are taken in push order and stored in that order, at most once each,
     and none is taken a second or more after its deadline.
     */
    method Run(connected: bool, script: Script, cleared: bool, torndown: bool) returns (outcome: Outcome)
      requires Untouched()
      modifies this, lifecycle
      ensures !connected ==> outcome == Raised && Untouched() && queue == old(queue)
      ensures connected ==>
        && statuses == RunWord(Bounds(), old(View()), isResumed, script)
        && outcome == if RunOutcome(Bounds(), old(View()), isResumed, script).StillRunning? || torndown
                      then RunOutcome(Bounds(), old(View()), isResumed, script) else Raised
      ensures connected ==>
        var d := LoopDeeds(Bounds(), old(View()), isResumed, script);
        && accepted == old(queue) + d.came && dequeued == d.taken && lateness == d.late
        && persisted == d.stored && turnCount == d.turns
      ensures connected ==>
        var left := LoopTrace(Bounds(), old(View()), isResumed, script).after.queue;
        && dequeued + left == accepted
        && queue == if !outcome.StillRunning? && cleared then [] else left
      ensures |lateness| == |dequeued| && forall x | x in lateness :: x < 1.0
      ensures persisted <= Contents(dequeued)
      ensures
        connected && outcome.Ended? && outcome.reason != Error ==>
        && (outcome.reason == UserClosed <==> closeRequested)
        && (outcome.reason == HardTimeout <==> !closeRequested && Bounds().hardEnd <= now)
        && (outcome.reason == IdleTimeout <==>
              && !closeRequested && now < Bounds().hardEnd
              && lifecycle.lastUserInputAt + lifecycle.idleTimeout <= now)
      ensures connected && outcome.Ended? ==>
        statuses != [] && statuses[|statuses| - 1] == if outcome.reason == Error then Failed else Completed
      ensures connected && !LoopTrace(Bounds(), old(View()), isResumed, script).course.Throw? ==>
        persisted == Contents(dequeued) && turnCount == |persisted| + if isResumed then 0 else 1
    {
      if !connected { return Raised; }
      RunFits(Bounds(), View(), isResumed, script);
      OutcomeTells(Bounds(), View(), isResumed, script);
      outcome := Drive(script);
      if outcome.StillRunning? { return; }
      Teardown(cleared);
      if !torndown { outcome := Raised; }
    }

    /** `_teardown`: a failing clear is swallowed, a failing `close_task` is not. */
    method Teardown(cleared: bool)
      modifies this`queue
      ensures queue == if cleared then [] else old(queue)
    {
      if cleared { queue := []; }
    }
  }
}
