/**
 * The shape of the escalating stop of the local process spawner, as a
 * language of traces.  A trace records what the spawner observed and did:
 * the status each poll returned, each signal it sent (probes with signal 0
 * belong to the poll that made them), and each sleep of `wait_for_death`.
 */
module Escalation {
  import opened Wrappers
  import opened HostOs

  datatype Step = Polled(status: Option<int>) | Sent(sig: int) | Slept

  /** Polls made by `wait_for_death(timeout)`: `int(timeout / 0.1)` for a whole number of seconds */
  function DeathPolls(timeout: int): nat
  {
    if timeout <= 0 then 0 else 10 * timeout
  }

  /** The signals `stop(now)` escalates through, in order. */
  function Ladder(now: bool): seq<int>
  {
    if now then [SIGTERM, SIGKILL] else [SIGINT, SIGTERM, SIGKILL]
  }

  /** The poll bound of the wait that follows each signal of `Ladder(now)`. */
  function Bounds(now: bool, interruptTimeout: int, termTimeout: int, killTimeout: int): (b: seq<nat>)
    ensures |b| == |Ladder(now)|
  {
    if now then [DeathPolls(termTimeout), DeathPolls(killTimeout)]
    else [DeathPolls(interruptTimeout), DeathPolls(termTimeout), DeathPolls(killTimeout)]
  }

  /** The signals of a trace, in the order they were sent. */
  function Signals(s: seq<Step>): seq<int>
  {
    if s == [] then [] else (if s[0].Sent? then [s[0].sig] else []) + Signals(s[1..])
  }

  predicate IsPrefix(a: seq<int>, b: seq<int>)
  {
    |a| <= |b| && a == b[..|a|]
  }

  /** A trace that ends with a poll reporting an exit status. */
  predicate EndsInDeath(w: seq<Step>)
  {
    w != [] && w[|w| - 1].Polled? && w[|w| - 1].status.Some?
  }

  /**
   * The trace of `wait_for_death` with at most `n` polls: polls that report
   * the process running, each followed by a sleep, until either a poll
   * reports an exit status (and the wait ends at once) or `n` polls were made.
   */
  ghost predicate WaitSteps(w: seq<Step>, n: nat)
    decreases n
  {
    if n == 0 then w == []
    else
      |w| >= 1 && w[0].Polled? &&
      if w[0].status.Some? then |w| == 1
      else |w| >= 2 && w[1] == Slept && WaitSteps(w[2..], n - 1)
  }

  /**
   * The trace of the escalation through `sigs`: each stage polls; if the
   * process is gone the stop is over, otherwise the stage's signal is sent and
   * a wait bounded by the stage's poll count follows.  A last poll follows the
   * final stage.  `dead` says an earlier poll already saw the process exit,
   * in which case the next poll must report it too.
   */
  ghost predicate Escalates(s: seq<Step>, sigs: seq<int>, bounds: seq<nat>, dead: bool)
    requires |sigs| == |bounds|
    decreases |sigs|
  {
    |s| >= 1 && s[0].Polled? && (dead ==> s[0].status.Some?) &&
    if s[0].status.Some? || sigs == [] then |s| == 1
    else
      |s| >= 2 && s[1] == Sent(sigs[0]) &&
      exists k :: 2 <= k <= |s| && WaitSteps(s[2..k], bounds[0]) &&
                  Escalates(s[k..], sigs[1..], bounds[1..], EndsInDeath(s[2..k]))
  }

  /** The trace `stop(now)` leaves when no OS error interrupts it. */
  ghost predicate StopTrace(s: seq<Step>, now: bool, interruptTimeout: int, termTimeout: int, killTimeout: int)
  {
    Escalates(s, Ladder(now), Bounds(now, interruptTimeout, termTimeout, killTimeout), false)
  }

  // ----- regrouping traces that grow step by step -----

  lemma AppendOne(a: seq<Step>, b: seq<Step>, x: Step)
    ensures (a + b) + [x] == a + (b + [x])
  {
  }

  lemma AppendTwo(a: seq<Step>, b: seq<Step>, x: Step, y: Step, c: seq<Step>)
    ensures (a + b) + [x] + [y] + c == a + (b + ([x, y] + c))
  {
  }

  // ----- facts about signals in traces -----

  lemma {:induction false} SignalsAppend(a: seq<Step>, b: seq<Step>)
    ensures Signals(a + b) == Signals(a) + Signals(b)
    decreases |a|
  {
    if a == [] {
      assert a + b == b;
    } else {
      var head := if a[0].Sent? then [a[0].sig] else [];
      assert (a + b)[0] == a[0];
      assert (a + b)[1..] == a[1..] + b;
      SignalsAppend(a[1..], b);
      calc {
        Signals(a + b);
        head + Signals(a[1..] + b);
        head + (Signals(a[1..]) + Signals(b));
        (head + Signals(a[1..])) + Signals(b);
      }
    }
  }

  /** A wait sends no signal. */
  lemma {:induction false} WaitSendsNothing(w: seq<Step>, n: nat)
    requires WaitSteps(w, n)
    ensures Signals(w) == []
    ensures forall j :: 0 <= j < |w| ==> !w[j].Sent?
    decreases n
  {
    if n > 0 && w[0].status.None? {
      WaitSendsNothing(w[2..], n - 1);
      assert w == [w[0], w[1]] + w[2..];
      SignalsAppend([w[0], w[1]], w[2..]);
      forall j | 0 <= j < |w| ensures !w[j].Sent? {
        if j >= 2 { assert w[j] == w[2..][j - 2]; }
      }
    }
  }

  /** The number of polls in a trace. */
  function Polls(s: seq<Step>): nat
  {
    if s == [] then 0 else (if s[0].Polled? then 1 else 0) + Polls(s[1..])
  }

  /** A wait never polls more than its bound, and sleeps after every poll that saw the process running. */
  lemma {:induction false} WaitPollCount(w: seq<Step>, n: nat)
    requires WaitSteps(w, n)
    ensures Polls(w) <= n
    ensures |w| <= 2 * n
    ensures forall j :: 0 <= j < |w| - 1 ==> w[j] != Polled(None) || w[j + 1] == Slept
    decreases n
  {
    if n > 0 && w[0].status.None? {
      WaitPollCount(w[2..], n - 1);
      assert w[1..][1..] == w[2..];
      assert Polls(w) == 1 + Polls(w[2..]);
      forall j | 0 <= j < |w| - 1 ensures w[j] != Polled(None) || w[j + 1] == Slept {
        if j >= 2 { assert w[j] == w[2..][j - 2] && w[j + 1] == w[2..][j - 1]; }
      }
    }
  }

  // ----- building wait and escalation traces -----

  /** `i` polls that found the process running, each followed by a sleep. */
  function AlivePolls(i: nat): (w: seq<Step>)
    ensures |w| == 2 * i
    ensures forall j :: 0 <= j < |w| ==> w[j] == if j % 2 == 0 then Polled(None) else Slept
  {
    if i == 0 then [] else AlivePolls(i - 1) + [Polled(None), Slept]
  }

  lemma {:induction false} AlivePollsCons(i: nat)
    requires i > 0
    ensures AlivePolls(i) == [Polled(None), Slept] + AlivePolls(i - 1)
  {
    var a, b := AlivePolls(i), [Polled(None), Slept] + AlivePolls(i - 1);
    assert |a| == |b|;
    forall j | 0 <= j < |a| ensures a[j] == b[j] {
      if j >= 2 {
        assert b[j] == AlivePolls(i - 1)[j - 2];
        assert (j - 2) % 2 == j % 2;
      }
    }
  }

  /** A wait that made `i` polls without seeing an exit, then either used up its bound or saw one. */
  lemma {:induction false} WaitStepsIntro(i: nat, n: nat, last: seq<Step>)
    requires i <= n
    requires (i == n && last == []) || (i < n && |last| == 1 && last[0].Polled? && last[0].status.Some?)
    ensures WaitSteps(AlivePolls(i) + last, n)
    decreases i
  {
    if i > 0 {
      AlivePollsCons(i);
      WaitStepsIntro(i - 1, n - 1, last);
      var w := AlivePolls(i) + last;
      assert w == [Polled(None), Slept] + (AlivePolls(i - 1) + last);
      assert w[2..] == AlivePolls(i - 1) + last;
    } else {
      assert AlivePolls(i) + last == last;
    }
  }

  lemma DeadPollEscalation(st: Option<int>, sigs: seq<int>, bounds: seq<nat>, dead: bool)
    requires |sigs| == |bounds| && st.Some?
    ensures Escalates([Polled(st)], sigs, bounds, dead)
  {
  }

  lemma FinalPollEscalation(st: Option<int>, dead: bool)
    requires dead ==> st.Some?
    ensures Escalates([Polled(st)], [], [], dead)
  {
  }

  /** One stage: a poll that saw the process running, its signal, its wait, then the rest. */
  lemma StageEscalation(w: seq<Step>, rest: seq<Step>, sigs: seq<int>, bounds: seq<nat>)
    requires |sigs| == |bounds| && sigs != []
    requires WaitSteps(w, bounds[0])
    requires Escalates(rest, sigs[1..], bounds[1..], EndsInDeath(w))
    ensures Escalates([Polled(None), Sent(sigs[0])] + w + rest, sigs, bounds, false)
  {
    var s := [Polled(None), Sent(sigs[0])] + w + rest;
    var k := 2 + |w|;
    assert s[2..k] == w;
    assert s[k..] == rest;
  }

  // ----- what every escalation trace satisfies -----

  /** Signals are sent in ladder order, and never more than the ladder holds. */
  lemma {:induction false} EscalationSignalsArePrefix(s: seq<Step>, sigs: seq<int>, bounds: seq<nat>, dead: bool)
    requires |sigs| == |bounds| && Escalates(s, sigs, bounds, dead)
    ensures IsPrefix(Signals(s), sigs)
    decreases |sigs|
  {
    if s[0].status.Some? || sigs == [] {
      assert s == [s[0]];
    } else {
      var k := StageParts(s, sigs, bounds, dead);
      StageSignals(s, sigs[0], k, bounds[0]);
      EscalationSignalsArePrefix(s[k..], sigs[1..], bounds[1..], EndsInDeath(s[2..k]));
      assert sigs == [sigs[0]] + sigs[1..];
    }
  }

  /** A trace that ends with the process still running went through every signal ("never died"). */
  lemma {:induction false} EscalationNeverDied(s: seq<Step>, sigs: seq<int>, bounds: seq<nat>, dead: bool)
    requires |sigs| == |bounds| && Escalates(s, sigs, bounds, dead)
    requires s[|s| - 1] == Polled(None)
    ensures Signals(s) == sigs
    decreases |sigs|
  {
    if s[0].status.Some? || sigs == [] {
      assert s == [s[0]];
    } else {
      var k := StageParts(s, sigs, bounds, dead);
      StageSignals(s, sigs[0], k, bounds[0]);
      assert s[k..][|s[k..]| - 1] == s[|s| - 1];
      EscalationNeverDied(s[k..], sigs[1..], bounds[1..], EndsInDeath(s[2..k]));
      assert sigs == [sigs[0]] + sigs[1..];
    }
  }

  /** Splits a stage that sent its signal into the wait and the rest. */
  lemma StageParts(s: seq<Step>, sigs: seq<int>, bounds: seq<nat>, dead: bool) returns (k: nat)
    requires |sigs| == |bounds| && Escalates(s, sigs, bounds, dead)
    requires s[0].status.None? && sigs != []
    ensures 2 <= k <= |s| && s[0] == Polled(None) && s[1] == Sent(sigs[0]) && !dead
    ensures WaitSteps(s[2..k], bounds[0])
    ensures Escalates(s[k..], sigs[1..], bounds[1..], EndsInDeath(s[2..k]))
    ensures forall j :: 2 <= j < k ==> !s[j].Sent?
  {
    k :| 2 <= k <= |s| && WaitSteps(s[2..k], bounds[0]) &&
         Escalates(s[k..], sigs[1..], bounds[1..], EndsInDeath(s[2..k]));
    WaitSendsNothing(s[2..k], bounds[0]);
    forall j | 2 <= j < k ensures !s[j].Sent? {
      assert s[j] == s[2..k][j - 2];
    }
  }

  /** A stage that sent its signal contributes exactly that signal. */
  lemma StageSignals(s: seq<Step>, sig: int, k: nat, n: nat)
    requires 2 <= k <= |s| && s[0].Polled? && s[1] == Sent(sig)
    requires WaitSteps(s[2..k], n)
    ensures Signals(s) == [sig] + Signals(s[k..])
  {
    WaitSendsNothing(s[2..k], n);
    SignalsSplit(s, 2, k);
    assert s[..2] == [s[0], Sent(sig)];
    SignalsOfStageHead(s[0], sig);
  }

  lemma SignalsAt(s: seq<Step>, k: nat)
    requires k <= |s|
    ensures Signals(s) == Signals(s[..k]) + Signals(s[k..])
  {
    assert s[..k] + s[k..] == s;
    SignalsAppend(s[..k], s[k..]);
  }

  lemma SignalsSplit(s: seq<Step>, i: nat, k: nat)
    requires i <= k <= |s|
    ensures Signals(s) == Signals(s[..i]) + Signals(s[i..k]) + Signals(s[k..])
  {
    SignalsAt(s, k);
    SignalsAt(s[..k], i);
    assert s[..k][..i] == s[..i];
    assert s[..k][i..] == s[i..k];
  }

  lemma SignalsOfStageHead(p: Step, sig: int)
    requires p.Polled?
    ensures Signals([p, Sent(sig)]) == [sig]
  {
    assert [p, Sent(sig)][1..] == [Sent(sig)];
    assert [Sent(sig)][1..] == [];
    assert Signals([Sent(sig)]) == [sig] + Signals([]);
  }

  /** Every signal directly follows a poll that found the process running. */
  lemma {:induction false} EscalationSignalAfterAlivePoll(s: seq<Step>, sigs: seq<int>, bounds: seq<nat>, dead: bool)
    requires |sigs| == |bounds| && Escalates(s, sigs, bounds, dead)
    ensures forall j :: 0 <= j < |s| && s[j].Sent? ==> 1 <= j && s[j - 1] == Polled(None)
    decreases |sigs|
  {
    if s[0].status.Some? || sigs == [] {
      assert s == [s[0]];
    } else {
      var k := StageParts(s, sigs, bounds, dead);
      var rest := s[k..];
      EscalationSignalAfterAlivePoll(rest, sigs[1..], bounds[1..], EndsInDeath(s[2..k]));
      SignalAfterAlivePollInSuffix(s, k);
    }
  }

  /** A suffix whose every signal follows a running poll carries that back into the whole trace. */
  lemma SignalAfterAlivePollInSuffix(s: seq<Step>, k: nat)
    requires k <= |s|
    requires forall j :: 0 <= j < |s[k..]| && s[k..][j].Sent? ==> 1 <= j && s[k..][j - 1] == Polled(None)
    ensures forall j :: k <= j < |s| && s[j].Sent? ==> k < j && s[j - 1] == Polled(None)
  {
    forall j | k <= j < |s| && s[j].Sent? ensures k < j && s[j - 1] == Polled(None) {
      assert s[k..][j - k] == s[j];
      assert s[k..][j - k - 1] == s[j - 1];
    }
  }

  /**
   * Once a poll has seen the process exit, no signal is sent any more; when
   * the escalation starts after such a poll (`dead`), it sends nothing at all.
   */
  lemma {:induction false} EscalationNoSignalAfterDeath(s: seq<Step>, sigs: seq<int>, bounds: seq<nat>, dead: bool)
    requires |sigs| == |bounds| && Escalates(s, sigs, bounds, dead)
    ensures forall i, j :: 0 <= i < j < |s| && s[i].Polled? && s[i].status.Some? ==> !s[j].Sent?
    ensures dead ==> forall j :: 0 <= j < |s| ==> !s[j].Sent?
    decreases |sigs|
  {
    if s[0].status.Some? || sigs == [] {
      assert s == [s[0]];
    } else {
      var k := StageParts(s, sigs, bounds, dead);
      var w, rest := s[2..k], s[k..];
      EscalationNoSignalAfterDeath(rest, sigs[1..], bounds[1..], EndsInDeath(w));
      forall i, j | 0 <= i < j < |s| && s[i].Polled? && s[i].status.Some? ensures !s[j].Sent? {
        if i >= k {
          assert s[i] == rest[i - k] && s[j] == rest[j - k];
        } else if j >= k {
          // a death seen inside the wait ends it, so it is the wait's last poll
          assert i >= 2;
          assert s[i] == w[i - 2];
          WaitDeathIsLast(w, bounds[0], i - 2);
          assert s[j] == rest[j - k];
        }
      }
    }
  }

  /** Inside a wait, a poll that reports an exit is the last step. */
  lemma {:induction false} WaitDeathIsLast(w: seq<Step>, n: nat, i: nat)
    requires WaitSteps(w, n)
    requires i < |w| && w[i].Polled? && w[i].status.Some?
    ensures i == |w| - 1 && EndsInDeath(w)
    decreases n
  {
    if w[0].status.None? {
      assert i >= 2;
      assert w[2..][i - 2] == w[i];
      WaitDeathIsLast(w[2..], n - 1, i - 2);
      assert w[|w| - 1] == w[2..][|w[2..]| - 1];
    }
  }
  // ----- the escalation as `stop` builds it, stage by stage -----

  /**
   * Full stages of an escalation through `sigs`: each wait keeps to its
   * bound and sends nothing, and only the last may have seen the process exit.
   */
  ghost predicate FullStages(ws: seq<seq<Step>>, sigs: seq<int>, bounds: seq<nat>)
  {
    && |ws| <= |sigs| == |bounds|
    && (forall j :: 0 <= j < |ws| ==> WaitSteps(ws[j], bounds[j]) && Signals(ws[j]) == [])
    && (forall j :: 0 <= j < |ws| - 1 ==> !EndsInDeath(ws[j]))
  }

  /** Full stages: a poll that found the process running, the stage's signal, the stage's wait. */
  function Stages(ws: seq<seq<Step>>, sigs: seq<int>): seq<Step>
    requires |ws| <= |sigs|
  {
    if ws == [] then [] else [Polled(None), Sent(sigs[0])] + ws[0] + Stages(ws[1..], sigs[1..])
  }

  lemma {:induction false} StagesSnoc(ws: seq<seq<Step>>, w: seq<Step>, sigs: seq<int>)
    requires |ws| < |sigs|
    ensures Stages(ws + [w], sigs) == Stages(ws, sigs) + ([Polled(None), Sent(sigs[|ws|])] + w)
    decreases |ws|
  {
    if ws == [] {
      assert ws + [w] == [w];
    } else {
      assert (ws + [w])[0] == ws[0];
      assert (ws + [w])[1..] == ws[1..] + [w];
      StagesSnoc(ws[1..], w, sigs[1..]);
    }
  }

  /** Stages whose waits send nothing send exactly their own signals. */
  lemma {:induction false} StagesSignals(ws: seq<seq<Step>>, sigs: seq<int>)
    requires |ws| <= |sigs|
    requires forall j :: 0 <= j < |ws| ==> Signals(ws[j]) == []
    ensures Signals(Stages(ws, sigs)) == sigs[..|ws|]
    decreases |ws|
  {
    if ws != [] {
      StagesSignals(ws[1..], sigs[1..]);
      var head := [Polled(None), Sent(sigs[0])];
      SignalsAppend(head + ws[0], Stages(ws[1..], sigs[1..]));
      SignalsAppend(head, ws[0]);
      assert Signals(head) == [sigs[0]];
      assert sigs[..|ws|] == [sigs[0]] + sigs[1..][..|ws| - 1];
    }
  }

  /**
   * Stages followed by one more poll form an escalation, provided only the
   * last wait may have seen the process exit, and the poll reports an exit
   * whenever the ladder was left early or that wait saw one.
   */
  lemma {:induction false} StagesEscalation(ws: seq<seq<Step>>, last: Option<int>, sigs: seq<int>, bounds: seq<nat>, dead: bool)
    requires |ws| <= |sigs| == |bounds|
    requires forall j :: 0 <= j < |ws| ==> WaitSteps(ws[j], bounds[j])
    requires forall j :: 0 <= j < |ws| - 1 ==> !EndsInDeath(ws[j])
    requires |ws| < |sigs| ==> last.Some?
    requires ws != [] && EndsInDeath(ws[|ws| - 1]) ==> last.Some?
    requires dead ==> ws == [] && last.Some?
    ensures Escalates(Stages(ws, sigs) + [Polled(last)], sigs, bounds, dead)
    decreases |ws|
  {
    if ws == [] {
      assert Stages(ws, sigs) + [Polled(last)] == [Polled(last)];
    } else {
      var rest := Stages(ws[1..], sigs[1..]) + [Polled(last)];
      assert |ws| == 1 || !EndsInDeath(ws[0]);
      StagesEscalation(ws[1..], last, sigs[1..], bounds[1..], EndsInDeath(ws[0]));
      StageEscalation(ws[0], rest, sigs, bounds);
      assert Stages(ws, sigs) + [Polled(last)] == [Polled(None), Sent(sigs[0])] + ws[0] + rest;
    }
  }
  /** Stages, then the start of one more stage: the signals are a prefix of the ladder. */
  lemma StagesThen(ws: seq<seq<Step>>, sigs: seq<int>, tail: seq<Step>)
    requires |ws| < |sigs|
    requires forall j :: 0 <= j < |ws| ==> Signals(ws[j]) == []
    requires IsPrefix(Signals(tail), [sigs[|ws|]])
    ensures Signals(Stages(ws, sigs) + tail) == sigs[..|ws|] + Signals(tail)
    ensures IsPrefix(Signals(Stages(ws, sigs) + tail), sigs)
  {
    StagesSignals(ws, sigs);
    SignalsAppend(Stages(ws, sigs), tail);
    var pre, post := sigs[..|ws|], Signals(tail);
    if post != [] {
      assert post == [sigs[|ws|]];
      TakeOneMore(sigs, |ws|);
    } else {
      assert pre + post == pre;
    }
  }

  /** A stage whose poll found the process running extends the full stages. */
  lemma StagesGrow(ws: seq<seq<Step>>, w: seq<Step>, sigs: seq<int>, bounds: seq<nat>)
    requires FullStages(ws, sigs, bounds) && |ws| < |sigs|
    requires WaitSteps(w, bounds[|ws|]) && Signals(w) == []
    requires ws != [] ==> !EndsInDeath(ws[|ws| - 1])
    ensures FullStages(ws + [w], sigs, bounds)
    ensures Stages(ws + [w], sigs) == Stages(ws, sigs) + ([Polled(None), Sent(sigs[|ws|])] + w)
    ensures sigs[..|ws + [w]|] == sigs[..|ws|] + [sigs[|ws|]]
  {
    var ws' := ws + [w];
    forall j | 0 <= j < |ws'|
      ensures WaitSteps(ws'[j], bounds[j]) && Signals(ws'[j]) == []
    {
      if j < |ws| { assert ws'[j] == ws[j]; }
    }
    forall j | 0 <= j < |ws'| - 1
      ensures !EndsInDeath(ws'[j])
    {
      assert ws'[j] == ws[j];
    }
    StagesSnoc(ws, w, sigs);
    TakeOneMore(sigs, |ws|);
  }

  lemma TakeOneMore(xs: seq<int>, n: nat)
    requires n < |xs|
    ensures xs[..n + 1] == xs[..n] + [xs[n]]
  {
  }
}
