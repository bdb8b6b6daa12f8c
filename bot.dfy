/** The bot's run state (`bot_running`, `bot_paused`, `bot_task`) and the
    `start_bot`, `pause_bot` and `kill_bot` endpoints that change it. The task
    handle is abstracted to whether one is held. */
module BotControl {

  datatype RunState = RunState(running: bool, paused: bool, hasTask: bool)

  /** What an endpoint leaves behind and the status it answers with. */
  datatype Reply = Reply(next: RunState, status: string)

  /** The state at startup: not running, not paused, no task. */
  const Initial: RunState := RunState(false, false, false)

  /** The three states the endpoints can reach. */
  datatype Phase = Stopped | Running | Paused

  /** The state in which a phase is represented. */
  function StateOf(p: Phase): (s: RunState)
    ensures s.running == (p != Stopped) && s.paused == (p == Paused)
    ensures s.hasTask == (p != Stopped)
    ensures p == Stopped ==> s == Initial
  {
    match p
    case Stopped => Initial
    case Running => RunState(true, false, true)
    case Paused => RunState(true, true, true)
  }

  /** Paused only while running, and a task exactly while running. A
      consistent bot that is paused still holds its feed task, and a
      consistent bot that is not running is in the startup state. */
  predicate Consistent(s: RunState): (b: bool)
    ensures b && s.paused ==> s.hasTask
    ensures b && !s.running ==> s == Initial
  {
    (s.paused ==> s.running) && (s.running <==> s.hasTask)
  }

  /** The consistent states are exactly the three phases. */
  lemma ConsistentIsPhase(s: RunState)
    ensures Consistent(s) <==> (s == StateOf(Stopped) || s == StateOf(Running) || s == StateOf(Paused))
  {
  }

  /** `start_bot`: from a stopped bot, run unpaused with a fresh feed task;
      a bot that already runs, paused or not, is left alone. */
  function Start(s: RunState): (r: Reply)
    ensures r.status == "running"
    ensures r.next.running
    ensures s.running ==> r.next == s
    ensures !s.running ==> !r.next.paused && r.next.hasTask
    ensures Consistent(s) ==> Consistent(r.next)
  {
    if !s.running then Reply(RunState(true, false, true), "running")
    else Reply(s, "running")
  }

  /** `pause_bot`: a running bot becomes paused and answers "paused"; a
      stopped bot is left alone and answers "stopped". */
  function Pause(s: RunState): (r: Reply)
    ensures r.status == (if s.running then "paused" else "stopped")
    ensures r.next.running == s.running && r.next.hasTask == s.hasTask
    ensures r.next.paused == (s.paused || s.running)
    ensures Consistent(s) ==> Consistent(r.next)
  {
    if s.running then Reply(s.(paused := true), "paused")
    else Reply(s, "stopped")
  }

  /** `kill_bot`: whatever the state, back to the startup state (the task, if
      any, is cancelled and dropped), answering "killed". */
  function Kill(s: RunState): (r: Reply)
    ensures r.next == StateOf(Stopped) && Consistent(r.next)
    ensures r.status == "killed"
  {
    Reply(Initial, "killed")
  }

  datatype Command = StartCall | PauseCall | KillCall

  function Apply(s: RunState, c: Command): Reply {
    match c
    case StartCall => Start(s)
    case PauseCall => Pause(s)
    case KillCall => Kill(s)
  }

  /** The state after a sequence of endpoint calls, in order. Whatever came
      before, a final kill leaves the startup state and a final start leaves
      the bot running. */
  function Run(s: RunState, cmds: seq<Command>): (r: RunState)
    ensures |cmds| > 0 && cmds[|cmds| - 1] == KillCall ==> r == Initial
    ensures |cmds| > 0 && cmds[|cmds| - 1] == StartCall ==> r.running
    decreases |cmds|
  {
    if cmds == [] then s else Run(Apply(s, cmds[0]).next, cmds[1..])
  }

  /** Every sequence of calls keeps the state consistent. */
  lemma {:induction false} RunKeepsConsistent(s: RunState, cmds: seq<Command>)
    requires Consistent(s)
    ensures Consistent(Run(s, cmds))
    decreases |cmds|
  {
    if cmds != [] {
      RunKeepsConsistent(Apply(s, cmds[0]).next, cmds[1..]);
    }
  }

  /** From startup, whatever the calls, the bot is paused only while running
      and holds a task exactly while running. */
  lemma PausedImpliesRunning(cmds: seq<Command>)
    ensures Run(Initial, cmds).paused ==> Run(Initial, cmds).running
    ensures Run(Initial, cmds).running <==> Run(Initial, cmds).hasTask
  {
    RunKeepsConsistent(Initial, cmds);
  }

  /** There is no resume: once paused, the bot stays paused through any
      number of start and pause calls; only a kill gets it out. */
  lemma {:induction false} PausedUntilKilled(s: RunState, cmds: seq<Command>)
    requires s.running && s.paused
    requires KillCall !in cmds
    ensures Run(s, cmds) == s
    decreases |cmds|
  {
    if cmds != [] {
      assert cmds[0] != KillCall;
      assert Apply(s, cmds[0]).next == s;
      assert KillCall !in cmds[1..] by {
        assert forall c :: c in cmds[1..] ==> c in cmds;
      }
      PausedUntilKilled(s, cmds[1..]);
    }
  }

  /** On a running bot, kill is the only call that stops it, and it drops the
      feed task in the same step: the loop never finds `bot_running` false
      while its task is still held. */
  lemma OnlyKillStops(s: RunState, c: Command)
    requires s.running
    ensures !Apply(s, c).next.running <==> c == KillCall
    ensures !Apply(s, c).next.running ==> !Apply(s, c).next.hasTask
  {
  }

  /** Starting twice is starting once; killing twice is killing once. */
  lemma StartAndKillIdempotent(s: RunState)
    ensures Start(Start(s).next) == Start(s)
    ensures Kill(Kill(s).next) == Kill(s)
  {
  }

  class Bot {
    var running: bool
    var paused: bool
    var hasTask: bool

    function State(): RunState
      reads this
    {
      RunState(running, paused, hasTask)
    }

    constructor ()
      ensures State() == Initial
    {
      running, paused, hasTask := false, false, false;
    }

    method StartBot() returns (status: string)
      modifies this
      ensures Reply(State(), status) == Start(old(State()))
    {
      if !running {
        running := true;
        paused := false;
        hasTask := true;
      }
      status := "running";
    }

    method PauseBot() returns (status: string)
      modifies this
      ensures Reply(State(), status) == Pause(old(State()))
    {
      if running {
        paused := true;
        status := "paused";
        return;
      }
      status := "stopped";
    }

    method KillBot() returns (status: string)
      modifies this
      ensures Reply(State(), status) == Kill(old(State()))
    {
      running := false;
      paused := false;
      if hasTask {
        hasTask := false;
      }
      status := "killed";
    }
  }
}
