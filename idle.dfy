/** The client's idle subscription and the commands it sends.

    The protocol refuses ordinary commands while an `idle` request is
    outstanding. The client is therefore in one of two states: subscribed
    (an `idle` is pending) or executing (commands may be sent). `noidle`
    and reading the idle reply leave the subscribed state; `send_idle`
    enters it. The log records every request sent, in order. */
module Idle {
  import opened Wrappers

  /** A request sent to the daemon. */
  datatype Cmd =
    | NoIdle                             // cancel the pending idle
    | SendIdle                           // subscribe to change notifications
    | FetchIdle                          // read the reply of the pending idle
    | Password(password: string)
    | Status
    | CurrentSong
    | PlaylistInfo
    | Search(field: string, query: string)
    | Add(file: string)
    | DeleteId(id: string)
    | PlayId(id: string)
    | Pause(flag: int)
    | SetVol(volume: int)
  {
    /** An ordinary command: allowed only while not subscribed, and it
        leaves the state unchanged. */
    predicate IsCommand() {
      !(NoIdle? || SendIdle? || FetchIdle?)
    }
  }

  /** One transition of the two-state machine (`true` = subscribed), or
      None when the request is not allowed in that state. */
  function Step(subscribed: bool, c: Cmd): (r: Option<bool>)
    ensures r.None? <==> subscribed == (c.IsCommand() || c.SendIdle?)
    ensures r.Some? ==> (r.value <==> c.SendIdle?)
  {
    match c
    case NoIdle => if subscribed then Some(false) else None
    case FetchIdle => if subscribed then Some(false) else None
    case SendIdle => if subscribed then None else Some(true)
    case _ => if subscribed then None else Some(false)
  }

  /** Run a whole log from a state: the final state, or None if some
      request was sent in a state that forbids it. */
  function Replay(log: seq<Cmd>, subscribed: bool): (r: Option<bool>)
    ensures log == [] ==> r == Some(subscribed)
    ensures r.None? ==> log != []
  {
    if log == [] then Some(subscribed)
    else
      match Step(subscribed, log[0])
      case None => None
      case Some(next) => Replay(log[1..], next)
  }

  /** A log that replays ends subscribed exactly when its last request
      is `send_idle`. */
  lemma {:induction false} ReplayLast(log: seq<Cmd>, subscribed: bool)
    requires log != [] && Replay(log, subscribed).Some?
    ensures Replay(log, subscribed).value <==> log[|log| - 1].SendIdle?
  {
    var next := Step(subscribed, log[0]).value;
    if |log| > 1 {
      ReplayLast(log[1..], next);
      assert log[1..][|log[1..]| - 1] == log[|log| - 1];
    }
  }

  /** Replaying two logs one after the other is replaying their concatenation. */
  lemma {:induction false} ReplayAppend(a: seq<Cmd>, b: seq<Cmd>, subscribed: bool)
    ensures Replay(a + b, subscribed) ==
      match Replay(a, subscribed)
      case None => None
      case Some(mid) => Replay(b, mid)
  {
    if a != [] {
      assert (a + b)[0] == a[0];
      assert (a + b)[1..] == a[1..] + b;
      match Step(subscribed, a[0])
      case None =>
      case Some(next) => ReplayAppend(a[1..], b, next);
    } else {
      assert a + b == b;
    }
  }

  /** A sequence of ordinary commands runs from the executing state and
      stays there; from the subscribed state it is refused. */
  lemma {:induction false} CommandsKeepExecuting(cmds: seq<Cmd>)
    requires forall i :: 0 <= i < |cmds| ==> cmds[i].IsCommand()
    ensures Replay(cmds, false) == Some(false)
    ensures cmds != [] ==> Replay(cmds, true).None?
  {
    if cmds != [] {
      CommandsKeepExecuting(cmds[1..]);
    }
  }

  /** The bracket every user command is wrapped in. */
  function Bracket(cmds: seq<Cmd>): seq<Cmd> {
    [NoIdle] + cmds + [SendIdle]
  }

  lemma AppendAssoc(a: seq<Cmd>, b: seq<Cmd>, c: seq<Cmd>)
    ensures a + b + c == a + (b + c)
  {
  }

  /** Sending `noidle`, the commands and `send_idle` one after the other
      logs their bracket. */
  lemma BracketSent(log: seq<Cmd>, cmds: seq<Cmd>)
    ensures log + [NoIdle] + cmds + [SendIdle] == log + Bracket(cmds)
  {
  }

  /** A bracket of ordinary commands, sent while subscribed, returns to the
      subscribed state: a command handler leaves the subscription as it
      found it. Without the leading `noidle` the commands would be refused. */
  lemma BracketKeepsSubscription(log: seq<Cmd>, cmds: seq<Cmd>)
    requires Replay(log, false) == Some(true)
    requires forall i :: 0 <= i < |cmds| ==> cmds[i].IsCommand()
    ensures Replay(log + Bracket(cmds), false) == Some(true)
    ensures cmds != [] ==> Replay(log + cmds, false).None?
  {
    CommandsKeepExecuting(cmds);
    ReplayAppend(log, Bracket(cmds), false);
    ReplayAppend([NoIdle] + cmds, [SendIdle], true);
    ReplayAppend([NoIdle], cmds, true);
    ReplayAppend(log, cmds, false);
  }

  /** The connection to the daemon, as far as the subscription goes. */
  class Client {
    var subscribed: bool
    var log: seq<Cmd>

    /** The log is a legal run of the state machine from a fresh connection
        (which is not subscribed) and ends in the current state. */
    ghost predicate Valid()
      reads this
    {
      Replay(log, false) == Some(subscribed)
    }

    constructor ()
      ensures Valid() && !subscribed && log == []
    {
      subscribed, log := false, [];
    }

    /** `noidle`: cancel the pending idle. */
    method Unsubscribe()
      requires Valid() && subscribed
      modifies this
      ensures Valid() && !subscribed && log == old(log) + [NoIdle]
    {
      ReplayAppend(log, [NoIdle], false);
      log, subscribed := log + [NoIdle], false;
    }

    /** `fetch_idle`: read the changed subsystems, which ends the idle. */
    method ReadIdle()
      requires Valid() && subscribed
      modifies this
      ensures Valid() && !subscribed && log == old(log) + [FetchIdle]
    {
      ReplayAppend(log, [FetchIdle], false);
      log, subscribed := log + [FetchIdle], false;
    }

    /** `send_idle`: subscribe to change notifications. */
    method Subscribe()
      requires Valid() && !subscribed
      modifies this
      ensures Valid() && subscribed && log == old(log) + [SendIdle]
    {
      ReplayAppend(log, [SendIdle], false);
      log, subscribed := log + [SendIdle], true;
    }

    /** Any ordinary command; refused by the protocol while subscribed. */
    method Execute(c: Cmd)
      requires Valid() && !subscribed && c.IsCommand()
      modifies this
      ensures Valid() && !subscribed && log == old(log) + [c]
    {
      ReplayAppend(log, [c], false);
      log := log + [c];
    }
  }
}
