/** The price feed loop (`price_feed`): what one turn of the loop does given
    the run state, and the tick it builds from the watchlist. Sleeping,
    timestamps and the random prices are inputs here. */
module PriceFeed {
  import opened Sequences
  import BotControl

  /** What one turn of the loop does: broadcast a tick, sleep without one, or
      leave the loop because its `bot_running` condition fails. */
  datatype Action = Tick | Wait | Finish

  /** The prices message pushed to subscribers on every tick. */
  datatype Message<P> = Prices(timestamp: string, data: map<string, P>)

  /** One turn of the loop, decided by the run state. */
  function NextAction(s: BotControl.RunState): (a: Action)
    ensures a == Finish <==> !s.running
    ensures a == Tick <==> s.running && !s.paused
  {
    if !s.running then Finish
    else if s.paused then Wait
    else Tick
  }

  /** On every consistent state, ticks are produced exactly in the running
      phase: never while paused, never once stopped. */
  lemma TicksOnlyWhileRunning(s: BotControl.RunState)
    requires BotControl.Consistent(s)
    ensures NextAction(s) == Tick <==> s == BotControl.StateOf(BotControl.Running)
    ensures NextAction(s) == Wait <==> s == BotControl.StateOf(BotControl.Paused)
    ensures NextAction(s) == Finish <==> s == BotControl.StateOf(BotControl.Stopped)
  {
  }

  /** After a pause call the loop produces no tick, and a kill leaves a state
      in which the loop condition fails. The running loop never reaches that
      check: `kill_bot` cancels the task in the same step (see
      `BotControl.OnlyKillStops`), so the loop ends by cancellation at the
      await it is suspended in. */
  lemma PauseAndKillStopTicks(s: BotControl.RunState)
    ensures NextAction(BotControl.Pause(s).next) != Tick
    ensures NextAction(BotControl.Kill(s).next) == Finish
  {
  }

  /** A symbol absent from `w[k + 1..i + 1]` is neither `w[i]` nor in `w[k + 1..i]`. */
  lemma LaterWindow(w: seq<string>, k: int, i: int)
    requires 0 <= k < i < |w| && w[k] !in w[k + 1..i + 1]
    ensures w[k] != w[i] && w[k] !in w[k + 1..i]
  {
    assert w[k + 1..i + 1] == w[k + 1..i] + [w[i]];
  }

  /** The price map of one tick: `draws[i]` is the price drawn for
      `watchlist[i]`, written into the map in watchlist order. */
  method BuildPriceData<P>(watchlist: seq<string>, draws: seq<P>) returns (data: map<string, P>)
    requires |draws| == |watchlist|
    ensures data.Keys == set sym | sym in watchlist
    ensures forall i :: 0 <= i < |watchlist| && watchlist[i] !in watchlist[i + 1..] ==>
              data[watchlist[i]] == draws[i]
    ensures NoDup(watchlist) ==> |data| == |watchlist|
  {
    data := map[];
    var i := 0;
    while i < |watchlist|
      invariant 0 <= i <= |watchlist|
      invariant data.Keys == set sym | sym in watchlist[..i]
      invariant forall k :: 0 <= k < i && watchlist[k] !in watchlist[k + 1..i] ==>
                  data[watchlist[k]] == draws[k]
    {
      assert watchlist[..i + 1] == watchlist[..i] + [watchlist[i]];
      forall k | 0 <= k < i && watchlist[k] !in watchlist[k + 1..i + 1]
        ensures watchlist[k] != watchlist[i] && watchlist[k] !in watchlist[k + 1..i]
      {
        LaterWindow(watchlist, k, i);
      }
      data := data[watchlist[i] := draws[i]];
      i := i + 1;
    }
    assert watchlist[..i] == watchlist;
    forall k | 0 <= k < i && watchlist[k] !in watchlist[k + 1..]
      ensures watchlist[k] !in watchlist[k + 1..i]
    {
      assert watchlist[k + 1..] == watchlist[k + 1..i];
    }
    if NoDup(watchlist) {
      DistinctCount(watchlist);
      assert |data| == |data.Keys|;
    }
  }

  /** The message broadcast by one `Tick` turn. */
  method PriceTick<P>(timestamp: string, watchlist: seq<string>, draws: seq<P>) returns (msg: Message<P>)
    requires |draws| == |watchlist|
    ensures msg.timestamp == timestamp
    ensures msg.data.Keys == set sym | sym in watchlist
    ensures forall i :: 0 <= i < |watchlist| && watchlist[i] !in watchlist[i + 1..] ==>
              msg.data[watchlist[i]] == draws[i]
    ensures NoDup(watchlist) ==> |msg.data| == |watchlist|
  {
    var data := BuildPriceData(watchlist, draws);
    msg := Prices(timestamp, data);
  }
}
