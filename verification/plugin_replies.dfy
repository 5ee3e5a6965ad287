/**
 What becomes of replies and timeouts on a plugin connection (pluginhost/client.go):
 a reply can always reach the call it is for, and the evidence for a stuck plugin is
 the number of calls that timed out since one was answered.
 */
module PluginReplies {

  import opened Wrappers
  import opened PluginClient

  /** A registered call can still be answered: its id is on the table, or its frame is on the way or there. */
  ghost predicate Reachable(s: State, i: nat)
    requires i < |s.calls|
  {
    var c := s.calls[i];
    c.at.Registered? || c.at.Waiting? ==>
      || (c.id in s.pending && s.pending[c.id] == i)
      || c.inbox.Some?
      || (s.reader.Delivering? && s.reader.to == i)
      || s.failing
  }

  ghost predicate AllReachable(s: State) {
    forall i :: 0 <= i < |s.calls| ==> Reachable(s, i)
  }

  lemma StepReaches(s: State, a: Action, i: nat)
    requires Inv(s) && AllReachable(s) && Enabled(s, a) && i < |Step(s, a).calls|
    ensures Reachable(Step(s, a), i)
  {
    if i < |s.calls| {
      assert CallOk(s, i) && Reachable(s, i);
      match a
      case Register(j) => assert CallOk(s, j);
      case Sent(j, _) => assert CallOk(s, j);
      case GiveUp(j, _) => assert CallOk(s, j);
      case SeeClosed(j) => assert CallOk(s, j);
      case _ =>
    }
  }

  /** As long as the connection has not failed, no registered call is ever cut off from its reply. */
  lemma {:induction false} NoReplyIsLost(actions: seq<Action>)
    ensures AllReachable(Run(actions))
  {
    if actions != [] {
      var front, a := actions[..|actions| - 1], actions[|actions| - 1];
      NoReplyIsLost(front);
      RunKeeps(front);
      if Enabled(Run(front), a) {
        forall i | 0 <= i < |Step(Run(front), a).calls|
          ensures Reachable(Step(Run(front), a), i)
        {
          StepReaches(Run(front), a, i);
        }
      }
    }
  }

  /** A frame with the id of a waiting call is taken off the table, handed over and answers the call. */
  lemma ReplyReachesCaller(actions: seq<Action>, i: nat)
    requires var s := Run(actions);
             s.reader.Reading? && IsAt(s, i, Waiting) && s.calls[i].inbox.None? && !s.failing
    ensures var s, t := Run(actions), Run(actions + [Arrive(i + 1)] + [Deliver] + [Take(i)]);
            && i < |t.calls| && t.calls[i].at == Ended(Answered(Frame(i + 1, s.arrived)))
            && i + 1 !in t.pending && t.timeoutStreak == 0
  {
    RunKeeps(actions);
    NoReplyIsLost(actions);
    var s := Run(actions);
    assert CallOk(s, i) && Reachable(s, i);
    RunGoesOn(actions, Arrive(i + 1));
    RunGoesOn(actions + [Arrive(i + 1)], Deliver);
    RunGoesOn(actions + [Arrive(i + 1)] + [Deliver], Take(i));
  }

  function TimedOutCalls(calls: seq<Call>): nat {
    if calls == [] then 0
    else TimedOutCalls(calls[..|calls| - 1]) + if calls[|calls| - 1].at == Ended(TimedOut) then 1 else 0
  }

  lemma {:induction false} TimedOutUpdate(calls: seq<Call>, i: nat, c: Call)
    requires i < |calls|
    ensures TimedOutCalls(calls[i := c]) + (if calls[i].at == Ended(TimedOut) then 1 else 0)
            == TimedOutCalls(calls) + if c.at == Ended(TimedOut) then 1 else 0
  {
    var n := |calls| - 1;
    if i == n {
      assert calls[i := c][..n] == calls[..n];
    } else {
      TimedOutUpdate(calls[..n], i, c);
      assert calls[i := c][..n] == calls[..n][i := c];
    }
  }

  predicate NoneAnswered(actions: seq<Action>) {
    forall k :: 0 <= k < |actions| ==> !actions[k].Take?
  }

  lemma StepCountsTimeouts(s: State, a: Action)
    requires Enabled(s, a) && !a.Take? && s.timeoutStreak == TimedOutCalls(s.calls)
    ensures Step(s, a).timeoutStreak == TimedOutCalls(Step(s, a).calls)
  {
    var t := Step(s, a);
    match a
    case Begin => assert t.calls[..|s.calls|] == s.calls;
    case Register(i) => TimedOutUpdate(s.calls, i, t.calls[i]);
    case Sent(i, _) => TimedOutUpdate(s.calls, i, t.calls[i]);
    case GiveUp(i, _) => TimedOutUpdate(s.calls, i, t.calls[i]);
    case SeeClosed(i) => TimedOutUpdate(s.calls, i, t.calls[i]);
    case Deliver => TimedOutUpdate(s.calls, s.reader.to, t.calls[s.reader.to]);
    case _ =>
  }

  /** Until a call is answered the streak is exactly the number of calls that timed out; an answer ends it. */
  lemma {:induction false} StreakIsTimeouts(actions: seq<Action>, i: nat)
    requires NoneAnswered(actions)
    ensures Run(actions).timeoutStreak == TimedOutCalls(Run(actions).calls)
    ensures Enabled(Run(actions), Take(i)) ==> Run(actions + [Take(i)]).timeoutStreak == 0
    decreases |actions|
  {
    RunGoesOn(actions, Take(i));
    if actions != [] {
      var front, a := actions[..|actions| - 1], actions[|actions| - 1];
      StreakIsTimeouts(front, i);
      if Enabled(Run(front), a) {
        StepCountsTimeouts(Run(front), a);
      }
    }
  }
}
