/** The life of a run: operator commands, the command loop between them, and backend failover. */
module Lifecycle {
  import opened Domain

  datatype RunStatus = Created | Running | Paused | Stopped | Broken

  /** The run's row in the store. */
  datatype RunRow = RunRow(
    status: RunStatus, startedAt: Option<int>, pausedAt: Option<int>, resumedAt: Option<int>,
    stoppedAt: Option<int>, failedAt: Option<int>, reason: Option<string>)

  const NEW_RUN := RunRow(Created, None, None, None, None, None, None)

  datatype Entry =
    | StatusChanged(before: RunStatus, after: RunStatus, at: int, reason: Option<string>)
    | CycleDone(number: int)

  datatype Command = Start(at: int) | Pause(at: int) | Resume(at: int) | Stop(at: int, why: Option<string>) | Fail(at: int, cause: string)

  predicate Terminal(s: RunStatus) {
    s in {Stopped, Broken}
  }

  predicate Allowed(before: RunStatus, after: RunStatus) {
    match before
    case Created => after == Running
    case Running => after in {Paused, Stopped, Broken}
    case Paused => after in {Running, Stopped}
    case _ => false
  }

  /** What a status change writes into the row. */
  function Updated(row: RunRow, status: RunStatus, at: int, reason: Option<string>): RunRow {
    var row' := row.(status := status, reason := if Terminal(status) then reason else None);
    match status
    case Running =>
      if row.status == Created then row'.(startedAt := Some(at), pausedAt := None) else row'.(resumedAt := Some(at), pausedAt := None)
    case Paused => row'.(pausedAt := Some(at))
    case Stopped => row'.(stoppedAt := Some(at))
    case Broken => row'.(failedAt := Some(at))
    case Created => row'
  }

  function Target(command: Command): RunStatus {
    match command
    case Start(_) => Running
    case Pause(_) => Paused
    case Resume(_) => Running
    case Stop(_, _) => Stopped
    case Fail(_, _) => Broken
  }

  function ReasonOf(command: Command): Option<string> {
    match command
    case Stop(_, why) => if Truthy(why) then why else Some("stopped_by_operator")
    case Fail(_, cause) => Some(cause)
    case _ => None
  }

  // ------------------------------------------------------------------ the history

  function NextRow(row: RunRow, e: Entry): RunRow {
    match e
    case CycleDone(_) => row
    case StatusChanged(_, after, at, reason) => Updated(row, after, at, reason)
  }

  /** The row the log leads to, starting from a new run. */
  function Replay(log: seq<Entry>): RunRow {
    if log == [] then NEW_RUN else NextRow(Replay(log[..|log| - 1]), log[|log| - 1])
  }

  /** One more entry is in order: a change chains on from the current status along an allowed
      edge, and a cycle is only ever run while running. */
  predicate InOrder(row: RunRow, e: Entry) {
    match e
    case CycleDone(_) => row.status == Running
    case StatusChanged(before, after, _, _) => before == row.status && Allowed(before, after)
  }

  ghost predicate History(log: seq<Entry>) {
    forall k :: 0 <= k < |log| ==> InOrder(Replay(log[..k]), log[k])
  }

  lemma Extend(log: seq<Entry>, e: Entry)
    requires History(log) && InOrder(Replay(log), e)
    ensures History(log + [e])
    ensures Replay(log + [e]) == NextRow(Replay(log), e)
  {
    var log' := log + [e];
    assert log'[..|log|] == log;
    forall k | 0 <= k < |log'| ensures InOrder(Replay(log'[..k]), log'[k]) {
      if k < |log| {
        assert log'[..k] == log[..k];
      }
    }
  }

  lemma Shorten(log: seq<Entry>, n: nat)
    requires History(log) && n <= |log|
    ensures History(log[..n])
  {
    forall k | 0 <= k < n ensures InOrder(Replay(log[..n][..k]), log[..n][k]) {
      assert log[..n][..k] == log[..k];
    }
  }

  /** Stopped and failed runs are over: no entry, neither a change nor a cycle, ever follows. */
  lemma NothingFollowsTheEnd(log: seq<Entry>)
    requires History(log)
    ensures forall k :: 0 <= k < |log| ==> !Terminal(Replay(log[..k]).status)
  {
    forall k | 0 <= k < |log| ensures !Terminal(Replay(log[..k]).status) {
      assert InOrder(Replay(log[..k]), log[k]);
    }
  }

  ghost predicate EverResumed(log: seq<Entry>) {
    exists k :: 0 <= k < |log| && log[k].StatusChanged? && log[k].before == Paused && log[k].after == Running
  }

  ghost predicate StoppedFromPause(log: seq<Entry>) {
    exists k :: 0 <= k < |log| && log[k].StatusChanged? && log[k].before == Paused && log[k].after == Stopped
  }

  /** Timestamps match the status: started unless new; paused exactly while paused or stopped
      out of a pause; resumed exactly if it ever was; stopped and failed when so. */
  ghost predicate StampsMatch(row: RunRow, log: seq<Entry>) {
    && (row.startedAt.Some? <==> row.status != Created)
    && (row.pausedAt.Some? <==> row.status == Paused || StoppedFromPause(log))
    && (row.resumedAt.Some? <==> EverResumed(log))
    && (row.stoppedAt.Some? <==> row.status == Stopped)
    && (row.failedAt.Some? <==> row.status == Broken)
    && (row.reason.Some? ==> Terminal(row.status))
    && (StoppedFromPause(log) ==> row.status == Stopped)
  }

  lemma StampsNext(log: seq<Entry>, e: Entry)
    requires StampsMatch(Replay(log), log) && InOrder(Replay(log), e)
    requires Replay(log + [e]) == NextRow(Replay(log), e)
    ensures StampsMatch(Replay(log + [e]), log + [e])
  {
    EverNext(log, e);
    hide Replay, EverResumed, StoppedFromPause;
  }

  lemma EverNext(log: seq<Entry>, e: Entry)
    ensures EverResumed(log + [e]) <==>
              EverResumed(log) || (e.StatusChanged? && e.before == Paused && e.after == Running)
    ensures StoppedFromPause(log + [e]) <==>
              StoppedFromPause(log) || (e.StatusChanged? && e.before == Paused && e.after == Stopped)
  {
    var log' := log + [e];
    assert log'[|log|] == e && forall k :: 0 <= k < |log| ==> log'[k] == log[k];
    if EverResumed(log) {
      var k :| 0 <= k < |log| && log[k].StatusChanged? && log[k].before == Paused && log[k].after == Running;
      assert log'[k] == log[k];
    }
    if StoppedFromPause(log) {
      var k :| 0 <= k < |log| && log[k].StatusChanged? && log[k].before == Paused && log[k].after == Stopped;
      assert log'[k] == log[k];
    }
  }

  lemma {:induction false} StampsFollowStatus(log: seq<Entry>)
    requires History(log)
    ensures StampsMatch(Replay(log), log)
  {
    if log != [] {
      var front, e := log[..|log| - 1], log[|log| - 1];
      Shorten(log, |log| - 1);
      StampsFollowStatus(front);
      assert InOrder(Replay(front), e);
      assert log == front + [e];
      Extend(front, e);
      StampsNext(front, e);
    }
  }

  /** The status changes alone, in order. */
  function Changes(log: seq<Entry>): seq<Entry> {
    if log == [] then []
    else Changes(log[..|log| - 1]) + if log[|log| - 1].StatusChanged? then [log[|log| - 1]] else []
  }

  ghost predicate Chained(changes: seq<Entry>, from: RunStatus, to: RunStatus) {
    && (forall k :: 0 <= k < |changes| ==> changes[k].StatusChanged? && Allowed(changes[k].before, changes[k].after))
    && (forall k :: 0 < k < |changes| ==> changes[k - 1].after == changes[k].before)
    && (if changes == [] then from == to else changes[0].before == from && changes[|changes| - 1].after == to)
  }

  /** The status-change events chain, edge by allowed edge, from created to the current status. */
  lemma {:induction false} ChangesChain(log: seq<Entry>)
    requires History(log)
    ensures Chained(Changes(log), Created, Replay(log).status)
  {
    if log != [] {
      Shorten(log, |log| - 1);
      ChangesChain(log[..|log| - 1]);
      assert InOrder(Replay(log[..|log| - 1]), log[|log| - 1]);
    }
  }

  function CycleNumbers(log: seq<Entry>): seq<int> {
    if log == [] then []
    else CycleNumbers(log[..|log| - 1]) + if log[|log| - 1].CycleDone? then [log[|log| - 1].number] else []
  }

  lemma {:induction false} CycleNumbersOfSum(a: seq<Entry>, b: seq<Entry>)
    ensures CycleNumbers(a + b) == CycleNumbers(a) + CycleNumbers(b)
    decreases |b|
  {
    if b == [] {
      assert a + b == a;
    } else {
      assert (a + b)[..|a + b| - 1] == a + b[..|b| - 1];
      CycleNumbersOfSum(a, b[..|b| - 1]);
    }
  }

  function Consecutive(start: int, n: nat): (r: seq<int>)
    ensures |r| == n && forall i :: 0 <= i < n ==> r[i] == start + i
  {
    seq(n, i requires 0 <= i < n => start + i)
  }

  // ---------------------------------------------------------------- the run object

  datatype LoopResult =
    | Finished(completed: nat, stoppedEarly: bool, status: RunStatus)
    | Raised(completed: nat)

  class RunControl {
    var row: RunRow
    var log: seq<Entry>

    ghost predicate Valid()
      reads this
    {
      History(log) && row == Replay(log)
    }

    constructor ()
      ensures Valid() && log == [] && row == NEW_RUN
    {
      row, log := NEW_RUN, [];
    }

    /** The store's write.  It takes any status from any other; keeping to allowed edges is up to
        whoever calls it. */
    method UpdateRunStatus(status: RunStatus, at: int, reason: Option<string>)
      modifies this
      ensures old(Valid()) && old(Allowed(row.status, status)) ==> Valid()
      ensures log == old(log) + [StatusChanged(old(row.status), status, at, reason)]
      ensures row == Updated(old(row), status, at, reason)
    {
      var before := row;
      if Valid() && Allowed(row.status, status) {
        Extend(log, StatusChanged(before.status, status, at, reason));
      }
      log := log + [StatusChanged(before.status, status, at, reason)];
      row := row.(status := status, reason := if status in {Stopped, Broken} then reason else None);
      if status == Running {
        if before.status == Created {
          row := row.(startedAt := Some(at));
        } else {
          row := row.(resumedAt := Some(at));
        }
        row := row.(pausedAt := None);
      } else if status == Paused {
        row := row.(pausedAt := Some(at));
      } else if status == Stopped {
        row := row.(stoppedAt := Some(at));
      } else if status == Broken {
        row := row.(failedAt := Some(at));
      }
    }

    /** An operator command: taken along an allowed edge, refused without a trace otherwise. */
    method Transition(command: Command) returns (taken: bool)
      requires Valid()
      modifies this
      ensures Valid() && taken == Allowed(old(row.status), Target(command))
      ensures taken ==> row == Updated(old(row), Target(command), command.at, ReasonOf(command))
      ensures taken ==> log == old(log) + [StatusChanged(old(row.status), Target(command), command.at, ReasonOf(command))]
      ensures !taken ==> row == old(row) && log == old(log)
    {
      taken := Allowed(row.status, Target(command));
      if taken {
        UpdateRunStatus(Target(command), command.at, ReasonOf(command));
      }
    }

    /** What a caller asks before running a single cycle by hand; None where the source raises. */
    method EnsureCycleAllowed(at: int) returns (state: Option<RunRow>)
      requires Valid()
      modifies this
      ensures Valid()
      ensures state.Some? <==> old(row.status) in {Created, Running}
      ensures state.Some? ==> state == Some(row) && row.status == Running
      ensures old(row.status) != Created ==> row == old(row) && log == old(log)
      ensures old(row.status) == Created ==> row == Updated(old(row), Running, at, None)
    {
      if row.status == Created {
        var _ := Transition(Start(at));
        return Some(row);
      }
      if row.status == Paused || row.status in {Stopped, Broken} {
        return None;
      }
      return Some(row);
    }

    /** Commands of other operators, arriving between two reads of the loop. */
    method Interfere(commands: seq<Command>)
      requires Valid()
      modifies this
      ensures Valid() && old(log) <= log
      ensures CycleNumbers(log) == CycleNumbers(old(log))
    {
      for i := 0 to |commands|
        invariant Valid() && old(log) <= log
        invariant CycleNumbers(log) == CycleNumbers(old(log))
      {
        ghost var before := log;
        var taken := Transition(commands[i]);
        if taken {
          CycleNumbersOfSum(before, log[|before|..]);
          assert log == before + log[|before|..];
        }
      }
    }

    /** One read of the status at the top of the loop, after whatever commands have arrived: a
        new run is started, a running one goes on. */
    method ReadStatus(commands: seq<Command>, at: int) returns (status: RunStatus)
      requires Valid()
      modifies this
      ensures Valid() && old(log) <= log && CycleNumbers(log) == CycleNumbers(old(log))
      ensures status == row.status && status != Created
    {
      Interfere(commands);
      if row.status == Created {
        ghost var before := log;
        UpdateRunStatus(Running, at, None);
        CycleNumbersOfSum(before, [log[|before|]]);
        assert before <= log;
      }
      status := row.status;
    }

    method RecordCycle(number: int)
      requires Valid() && row.status == Running
      modifies this
      ensures Valid() && log == old(log) + [CycleDone(number)] && row == old(row)
    {
      Extend(log, CycleDone(number));
      log := log + [CycleDone(number)];
    }

    /** The command loop.  Before every read of the status any commands may have arrived;
        `raises` says which cycles end in an error. */
    method RunLiveLoop(start: int, cycles: nat, commands: nat -> seq<Command>, raises: nat -> bool, clock: nat -> int)
        returns (result: LoopResult)
      requires Valid()
      modifies this
      ensures Valid() && old(log) <= log
      ensures result.completed <= cycles
      ensures CycleNumbers(log) == CycleNumbers(old(log)) + Consecutive(start, result.completed)
      ensures result.Finished? ==> result.status == row.status
      ensures result.Finished? ==> (result.stoppedEarly <==> result.completed < cycles)
      ensures result.Finished? && result.stoppedEarly ==> result.status == Paused
      ensures result.Raised? ==> result.completed < cycles && (Terminal(row.status) || raises(result.completed))
    {
      hide History, Replay;
      for done := 0 to cycles
        invariant Valid() && old(log) <= log
        invariant CycleNumbers(log) == CycleNumbers(old(log)) + Consecutive(start, done)
      {
        var status := ReadStatus(commands(done), clock(done));
        if status == Paused {
          return Finished(done, true, status);
        }
        if status in {Stopped, Broken} || raises(done) {
          return Raised(done);
        }
        CycleNumbersOfSum(log, [CycleDone(start + done)]);
        assert Consecutive(start, done + 1) == Consecutive(start, done) + [start + done];
        RecordCycle(start + done);
      }
      Interfere(commands(cycles));
      result := Finished(cycles, false, row.status);
    }
  }

  // --------------------------------------------------------------------- failover

  datatype Reply = Reply(succeeded: bool, detail: string)

  datatype Attempt = Attempt(backend: string, reply: Reply)

  datatype Chain = Chain(final: Attempt, failoverUsed: bool, attempts: seq<Attempt>)

  /** Backends are asked in order until one succeeds; the last one's answer stands in any case.
      None where the source's assertion fails because there is no backend at all. */
  method InvokeWithFailover(backends: seq<string>, invoke: (string, seq<Attempt>) -> Reply) returns (chain: Option<Chain>)
    ensures chain.None? <==> backends == []
    ensures chain.Some? ==>
      var c := chain.value;
      var k := |c.attempts| - 1;
      && 0 <= k < |backends|
      && (forall i :: 0 <= i <= k ==> c.attempts[i] == Attempt(backends[i], invoke(backends[i], c.attempts[..i])))
      && (forall i :: 0 <= i < k ==> !c.attempts[i].reply.succeeded)
      && (c.attempts[k].reply.succeeded || k == |backends| - 1)
      && c.final == c.attempts[k]
      && (c.failoverUsed <==> k > 0)
  {
    var attempts: seq<Attempt> := [];
    chain := None;
    for i := 0 to |backends|
      invariant |attempts| == i && (chain.None? <==> i == 0)
      invariant forall j :: 0 <= j < i ==> attempts[j] == Attempt(backends[j], invoke(backends[j], attempts[..j]))
      invariant forall j :: 0 <= j < i ==> !attempts[j].reply.succeeded
      invariant i < |backends| || backends == []
    {
      var attempt := Attempt(backends[i], invoke(backends[i], attempts));
      ghost var before := attempts;
      attempts := attempts + [attempt];
      assert attempts[..i] == before && forall j :: 0 <= j < i ==> attempts[..j] == before[..j];
      chain := Some(Chain(attempt, i > 0, attempts));
      if attempt.reply.succeeded || i == |backends| - 1 {
        break;
      }
    }
  }
}
