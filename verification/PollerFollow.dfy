/** Continuations of a run of the poller. */
module PollerFollow {
  import opened Common
  import opened Poller

  /** Where a continuation leads from s, if each of its steps can be taken. */
  ghost function Follow(s: System, more: seq<Step>): Option<System>
    decreases |more|
  {
    if more == [] then Some(s)
    else if Enabled(s, more[0]) then Follow(Next(s, more[0]), more[1..])
    else None
  }

  lemma FollowCons(s: System, t: Step, more: seq<Step>)
    requires Enabled(s, t)
    ensures Follow(s, [t] + more) == Follow(Next(s, t), more)
  {
    hide Enabled, Next;
    assert ([t] + more)[1..] == more;
  }

  lemma {:induction false} FollowAppend(s: System, a: seq<Step>, b: seq<Step>)
    requires Follow(s, a).Some?
    ensures Follow(s, a + b) == Follow(Follow(s, a).value, b)
    decreases |a|
  {
    hide Enabled, Next;
    if a == [] {
      assert a + b == b;
    } else {
      FollowAppend(Next(s, a[0]), a[1..], b);
      assert (a + b)[1..] == a[1..] + b;
    }
  }

  /** A continuation of a run makes a longer run. */
  lemma {:induction false} FollowIsExecution(ss: seq<System>, ts: seq<Step>, more: seq<Step>) returns (ss': seq<System>)
    requires Execution(ss, ts) && Follow(ss[|ts|], more).Some?
    ensures Execution(ss', ts + more) && ss <= ss' && ss'[|ts + more|] == Follow(ss[|ts|], more).value
    decreases |more|
  {
    hide Enabled, Next, Init;
    if more == [] {
      assert ts + more == ts;
      ss' := ss;
    } else {
      var longer, steps := ss + [Next(ss[|ts|], more[0])], ts + [more[0]];
      forall i: nat | i < |steps|
        ensures StepOk(longer, steps, i)
      {
        assert i < |ts| ==> StepOk(ss, ts, i);
      }
      ss' := FollowIsExecution(longer, steps, more[1..]);
      assert steps + more[1..] == ts + more;
    }
  }
}
