/**
 Runs of the recording hook over a sequence of events, and what the
 transitions of lib/recording.ts imply about whole runs: how `durationSec`
 follows the intervals, what pause freezes and what it does not, and how
 many uploads a run can make.
 */
module RecordingTrace {
  import opened Outcomes
  import opened RecordingHook

  /** Something that happens to the hook: a call of one of its operations, or an interval firing. */
  datatype Event =
    | StartCall(startEnv: StartEnv)
    | PauseCall(pauseCall: Outcome<()>)
    | ResumeCall(startCall: Outcome<()>)
    | IntervalFires(ticker: TickerId)
    | StopCall(user: Option<string>, stopEnv: StopEnv)
    | ClearErrorCall

  /** One event: the next state and the external calls it made. */
  function Step(s: HookState, ev: Event): (r: (HookState, seq<Effect>))
    requires Valid(s)
    ensures Valid(r.0)
    ensures !ev.StopCall? ==> r.1 == []
  {
    match ev
    case StartCall(env) => (StartRecording(s, env).0, [])
    case PauseCall(o) => (PauseRecording(s, o).0, [])
    case ResumeCall(o) => (ResumeRecording(s, o).0, [])
    case IntervalFires(t) => (Tick(s, t), [])
    case StopCall(u, env) =>
      var rep := StopRecording(s, u, env);
      (rep.state, rep.effects)
    case ClearErrorCall => (ClearError(s), [])
  }

  /** A run of events: the final state and every external call, in order. */
  function Run(s: HookState, evs: seq<Event>): (r: (HookState, seq<Effect>))
    requires Valid(s)
    ensures Valid(r.0)
    decreases |evs|
  {
    if evs == [] then (s, [])
    else
      var first := Step(s, evs[0]);
      var rest := Run(first.0, evs[1..]);
      (rest.0, first.1 + rest.1)
  }

  /** A run of a non-empty sequence is its first step followed by the run of the rest. */
  lemma RunCons(s: HookState, ev: Event, rest: seq<Event>)
    requires Valid(s)
    ensures var first := Step(s, ev);
      && Run(s, [ev] + rest).0 == Run(first.0, rest).0
      && Run(s, [ev] + rest).1 == first.1 + Run(first.0, rest).1
  {
    assert ([ev] + rest)[0] == ev && ([ev] + rest)[1..] == rest;
  }

  /** Running `a` then `b` ends where running `a + b` ends. */
  lemma {:induction false} RunAppend(s: HookState, a: seq<Event>, b: seq<Event>)
    requires Valid(s)
    ensures Run(s, a + b).0 == Run(Run(s, a).0, b).0
    decreases |a|
  {
    if a == [] {
      assert a + b == b;
    } else {
      var ev, rest := a[0], a[1..];
      assert a == [ev] + rest;
      assert a + b == [ev] + (rest + b);
      RunCons(s, ev, rest);
      RunCons(s, ev, rest + b);
      RunAppend(Step(s, ev).0, rest, b);
    }
  }

  // ------------------------------------------------------------ intervals

  /** Every event is an interval firing. */
  predicate AllTicks(evs: seq<Event>) {
    forall i :: 0 <= i < |evs| ==> evs[i].IntervalFires?
  }

  /** How many of the firings in `evs` come from a handle in `live`. */
  function LiveFirings(live: set<TickerId>, evs: seq<Event>): nat {
    if evs == [] then 0
    else (if evs[0].IntervalFires? && evs[0].ticker in live then 1 else 0) + LiveFirings(live, evs[1..])
  }

  /**
   Between other calls, the counter grows by exactly one for each firing of a
   running interval, and nothing else changes.
   */
  lemma {:induction false} TicksCountLiveFirings(s: HookState, evs: seq<Event>)
    requires Valid(s) && AllTicks(evs)
    ensures Run(s, evs).0 == s.(durationSec := s.durationSec + LiveFirings(s.live, evs))
    ensures Run(s, evs).1 == []
    decreases |evs|
  {
    if evs != [] {
      var s1 := Tick(s, evs[0].ticker);
      assert AllTicks(evs[1..]) by {
        forall i | 0 <= i < |evs[1..]| ensures evs[1..][i].IntervalFires? {
          assert evs[1..][i] == evs[i + 1];
        }
      }
      TicksCountLiveFirings(s1, evs[1..]);
    }
  }

  /** No firing counts when no interval is running. */
  lemma {:induction false} NoLiveFirings(evs: seq<Event>)
    ensures LiveFirings({}, evs) == 0
    decreases |evs|
  {
    if evs != [] {
      NoLiveFirings(evs[1..]);
    }
  }

  /** `n` firings of handle `t`. */
  function Firings(t: TickerId, n: nat): (r: seq<Event>)
    ensures |r| == n && AllTicks(r)
    ensures forall i :: 0 <= i < n ==> r[i] == IntervalFires(t)
  {
    if n == 0 then [] else [IntervalFires(t)] + Firings(t, n - 1)
  }

  /** Each of `n` firings of a running handle adds one second. */
  lemma {:induction false} FiringsOfRunningTicker(live: set<TickerId>, t: TickerId, n: nat)
    requires t in live
    ensures LiveFirings(live, Firings(t, n)) == n
  {
    if n > 0 {
      assert Firings(t, n)[1..] == Firings(t, n - 1);
      FiringsOfRunningTicker(live, t, n - 1);
    }
  }

  /** At most the remembered interval is running: no interval has been orphaned. */
  predicate NoOrphans(s: HookState) {
    s.live == if s.intervalRef.Some? then {s.intervalRef.value} else {}
  }

  /**
   With no orphaned interval, a successful pause stops every interval, so any
   number of firings afterwards leaves `durationSec` where it was.
   */
  lemma PauseFreezesDuration(s: HookState, pauseCall: Outcome<()>, waits: seq<Event>)
    requires Valid(s) && NoOrphans(s) && s.held.Some? && pauseCall.Ok? && AllTicks(waits)
    ensures PauseRecording(s, pauseCall).0.isPaused
    ensures PauseRecording(s, pauseCall).0.live == {}
    ensures Run(PauseRecording(s, pauseCall).0, waits).0 == PauseRecording(s, pauseCall).0
  {
    var p := PauseRecording(s, pauseCall).0;
    TicksCountLiveFirings(p, waits);
    NoLiveFirings(waits);
  }

  /** Resuming from a clean pause installs exactly one interval again. */
  lemma ResumeAfterPauseHasNoOrphans(s: HookState, startCall: Outcome<()>)
    requires Valid(s) && s.live == {} && s.held.Some? && startCall.Ok?
    ensures NoOrphans(ResumeRecording(s, startCall).0)
    ensures ResumeRecording(s, startCall).0.live == {s.nextTicker}
  {
  }

  /**
   Start, `a` seconds recorded, pause, any firings while paused, resume, `b`
   seconds recorded: the counter reads `a + b`, the pause excluded.
   */
  lemma {:induction false} PauseResumeDuration(s: HookState, env: StartEnv, a: nat, waits: seq<Event>, b: nat)
    requires Valid(s) && s.live == {} && StartFailure(env).None? && AllTicks(waits)
    ensures
      var evs := [StartCall(env)] + Firings(s.nextTicker, a) + [PauseCall(Ok(()))] + waits
                 + [ResumeCall(Ok(()))] + Firings(s.nextTicker + 1, b);
      Run(s, evs).0.durationSec == a + b
  {
    var e1 := [StartCall(env)];
    var e2 := Firings(s.nextTicker, a);
    var e3 := [PauseCall(Ok(()))];
    var e5 := [ResumeCall(Ok(()))];
    var e6 := Firings(s.nextTicker + 1, b);

    assert e1[0] == StartCall(env) && e1[1..] == [];
    var st := Step(s, StartCall(env)).0;
    assert st == StartRecording(s, env).0;
    assert Run(st, []).0 == st;
    var s1 := Run(s, e1).0;
    assert s1 == StartRecording(s, env).0;
    TicksCountLiveFirings(s1, e2);
    FiringsOfRunningTicker(s1.live, s.nextTicker, a);
    var s2 := Run(s1, e2).0;
    assert s2.durationSec == a && s2.live == {s.nextTicker} && s2.intervalRef == Some(s.nextTicker);
    assert e3[1..] == [];
    var s3 := Run(s2, e3).0;
    assert s3 == PauseRecording(s2, Ok(())).0;
    PauseFreezesDuration(s2, Ok(()), waits);
    var s4 := Run(s3, waits).0;
    assert s4 == s3 && s4.live == {} && s4.durationSec == a;
    assert e5[1..] == [];
    var s5 := Run(s4, e5).0;
    assert s5 == ResumeRecording(s4, Ok(())).0;
    assert s5.live == {s.nextTicker + 1} && s5.durationSec == a;
    TicksCountLiveFirings(s5, e6);
    FiringsOfRunningTicker(s5.live, s.nextTicker + 1, b);
    var s6 := Run(s5, e6).0;
    assert s6.durationSec == a + b;

    RunAppend(s, e1, e2);
    RunAppend(s, e1 + e2, e3);
    RunAppend(s, e1 + e2 + e3, waits);
    RunAppend(s, e1 + e2 + e3 + waits, e5);
    RunAppend(s, e1 + e2 + e3 + waits + e5, e6);
  }

  /** Five seconds recorded, a ten-second pause, three more seconds: the counter reads eight. */
  lemma FiveThenThreeIsEight(env: StartEnv)
    requires StartFailure(env).None?
    ensures
      var evs := [StartCall(env)] + Firings(0, 5) + [PauseCall(Ok(()))] + Firings(0, 10)
                 + [ResumeCall(Ok(()))] + Firings(1, 3);
      Run(Initial, evs).0.durationSec == 8
  {
    PauseResumeDuration(Initial, env, 5, Firings(0, 10), 3);
  }

  /**
   Starting while a recording is held installs a second interval without
   clearing the first. Pause then clears only the newer one: the orphan keeps
   firing, and `durationSec` keeps growing while `isPaused` is set.
   */
  lemma DoubleStartOrphansTicker(s: HookState, env1: StartEnv, env2: StartEnv, pauseCall: Outcome<()>)
    requires Valid(s) && StartFailure(env1).None? && StartFailure(env2).None? && pauseCall.Ok?
    ensures
      var s1 := StartRecording(s, env1).0;
      var s2 := StartRecording(s1, env2).0;
      var s3 := PauseRecording(s2, pauseCall).0;
      && s2.held == Some(env2.create.value)
      && s2.live == s.live + {s.nextTicker, s.nextTicker + 1}
      && s3.isPaused && s.nextTicker in s3.live
      && Tick(s3, s.nextTicker).durationSec == s3.durationSec + 1
  {
  }

  /**
   Resuming while the interval is still running (no pause before it) installs
   a second interval over the first; a later pause clears only the newer one.
   */
  lemma ResumeWithoutPauseOrphansTicker(s: HookState, startCall: Outcome<()>, pauseCall: Outcome<()>)
    requires Valid(s) && s.held.Some? && s.intervalRef.Some? && startCall.Ok? && pauseCall.Ok?
    ensures
      var s1 := ResumeRecording(s, startCall).0;
      var s2 := PauseRecording(s1, pauseCall).0;
      && s1.live == s.live + {s.nextTicker}
      && s2.isPaused && s.intervalRef.value in s2.live
      && Tick(s2, s.intervalRef.value).durationSec == s2.durationSec + 1
  {
  }

  /** Stop clears only the remembered interval: an orphan keeps adding to `durationSec` after stop. */
  lemma StopLeavesOrphanRunning(s: HookState, t: TickerId, user: Option<string>, env: StopEnv)
    requires Valid(s) && s.held.Some? && user.Some? && t in s.live && s.intervalRef != Some(t)
    ensures
      var st := StopRecording(s, user, env).state;
      && !st.isRecording
      && Tick(st, t).durationSec == st.durationSec + 1
  {
  }

  // --------------------------------------------------------- guarded runs

  /**
   What the record screen lets the user call: Start is shown only while not
   recording, Resume only while paused. Pause, stop, clearing the error and
   interval firings are never held back.
   */
  predicate Guarded(s: HookState, ev: Event) {
    match ev
    case StartCall(_) => !s.isRecording
    case ResumeCall(_) => s.isPaused
    case _ => true
  }

  /** Every event of the run is allowed by the screen in the state it meets. */
  predicate GuardedRun(s: HookState, evs: seq<Event>)
    requires Valid(s)
    decreases |evs|
  {
    evs == [] || (Guarded(s, evs[0]) && GuardedRun(Step(s, evs[0]).0, evs[1..]))
  }

  /**
   The states the screen can reach: no orphaned interval, a recording held
   exactly while `isRecording`, and no interval running while not recording
   or while paused.
   */
  predicate Clean(s: HookState) {
    && NoOrphans(s)
    && (s.held.Some? <==> s.isRecording)
    && (!s.isRecording ==> s.live == {})
    && (s.isPaused ==> s.isRecording && s.live == {})
  }

  /** A freshly mounted hook is clean. */
  lemma InitialClean()
    ensures Valid(Initial) && Clean(Initial)
  {
  }

  /** Every event the screen allows keeps the hook clean. */
  lemma StepKeepsClean(s: HookState, ev: Event)
    requires Valid(s) && Clean(s) && Guarded(s, ev)
    ensures Clean(Step(s, ev).0)
  {
  }

  /** A run of allowed events keeps the hook clean. */
  lemma {:induction false} RunKeepsClean(s: HookState, evs: seq<Event>)
    requires Valid(s) && Clean(s) && GuardedRun(s, evs)
    ensures Clean(Run(s, evs).0)
    decreases |evs|
  {
    if evs != [] {
      StepKeepsClean(s, evs[0]);
      RunKeepsClean(Step(s, evs[0]).0, evs[1..]);
    }
  }

  /**
   On every run the screen allows, once the hook is paused the counter is
   frozen: any number of firings leaves the state as it is.
   */
  lemma {:induction false} GuardedPauseFreezesDuration(evs: seq<Event>, waits: seq<Event>)
    requires GuardedRun(Initial, evs) && Run(Initial, evs).0.isPaused && AllTicks(waits)
    ensures Run(Run(Initial, evs).0, waits).0 == Run(Initial, evs).0
  {
    var p := Run(Initial, evs).0;
    RunKeepsClean(Initial, evs);
    TicksCountLiveFirings(p, waits);
    NoLiveFirings(waits);
  }

  // -------------------------------------------------------------- uploads

  /** Number of calls that created a recording (a start whose awaited calls all succeeded). */
  function Created(evs: seq<Event>): nat {
    if evs == [] then 0
    else (if evs[0].StartCall? && StartFailure(evs[0].startEnv).None? then 1 else 0) + Created(evs[1..])
  }

  /** One if the hook holds a recording. */
  function Holding(s: HookState): nat {
    if s.held.Some? then 1 else 0
  }

  /** Upload counts add up over concatenated logs. */
  lemma {:induction false} UploadsAppend(a: seq<Effect>, b: seq<Effect>)
    ensures Uploads(a + b) == Uploads(a) + Uploads(b)
    decreases |a|
  {
    if a == [] {
      assert a + b == b;
    } else {
      assert (a + b)[0] == a[0];
      assert (a + b)[1..] == a[1..] + b;
      UploadsAppend(a[1..], b);
    }
  }

  /** One event: it uploads at most once, and only by giving up the held recording. */
  lemma StepUploads(s: HookState, ev: Event)
    requires Valid(s)
    ensures Uploads(Step(s, ev).1) + Holding(Step(s, ev).0)
            <= Holding(s) + (if ev.StartCall? && StartFailure(ev.startEnv).None? then 1 else 0)
  {
    if ev.StopCall? && s.held.Some? && ev.user.Some? {
      PipelineUploadsAtMostOnce(s.held.value, ev.user.value, ev.stopEnv);
    }
  }

  /**
   Every upload gives up a held recording, and only a successful start makes
   one: over any run, uploads plus the recording still held never exceed the
   recordings created plus the one held at the outset. In particular a
   recording is uploaded at most once, and a second stop uploads nothing.
   */
  lemma {:induction false} UploadsBoundedByRecordings(s: HookState, evs: seq<Event>)
    requires Valid(s)
    ensures Uploads(Run(s, evs).1) + Holding(Run(s, evs).0) <= Holding(s) + Created(evs)
    decreases |evs|
  {
    if evs != [] {
      var first := Step(s, evs[0]);
      StepUploads(s, evs[0]);
      UploadsBoundedByRecordings(first.0, evs[1..]);
      UploadsAppend(first.1, Run(first.0, evs[1..]).1);
    }
  }

  /** After a stop that had something to stop, another stop returns null and calls nothing. */
  lemma SecondStopIsNull(s: HookState, u1: Option<string>, env1: StopEnv, u2: Option<string>, env2: StopEnv)
    requires Valid(s) && s.held.Some? && u1.Some?
    ensures
      var st := StopRecording(s, u1, env1).state;
      StopRecording(st, u2, env2) == StopReport(st, [], Ok(None))
  {
  }
}
