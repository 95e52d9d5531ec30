/** Any number of threads calling `get_posthog`, which builds the client behind a double-checked lock. */
module PosthogSingleton {
  import opened Wrappers

  /** The client object the `n`th successful construction made. */
  datatype Client = NullPosthog(n: nat) | PosthogClient(n: nat)

  /** Where a thread is: about to read the instance; wanting the lock; holding it and about to read
      again; constructing; holding the constructed client; about to release the lock; about to read
      the value it returns; returned; or left with the exception construction raised. */
  datatype Place =
    | Start | Wanting | Inside | Building | Built(c: Client) | Leaving | Reading
    | Returned(r: Option<Client>) | Raised

  datatype State = State(instance: Option<Client>, lock: Option<nat>, threads: seq<Place>, builds: nat)

  /** How a construction goes: no key, a working SDK, an SDK that fails (both caught and replaced by
      the null client), or settings that cannot be read, which is not caught. */
  datatype Outcome = NoKey | Works | Fails | NoSettings

  datatype Step = Step(thread: nat, outcome: Outcome)

  predicate Enabled(st: State, step: Step) {
    && step.thread < |st.threads|
    && match st.threads[step.thread]
       case Wanting => st.lock.None?
       case Returned(_) => false
       case Raised => false
       case _ => true
  }

  function Move(st: State, i: nat, p: Place): State
    requires i < |st.threads|
  {
    st.(threads := st.threads[i := p])
  }

  function Do(st: State, step: Step): State
    requires Enabled(st, step)
  {
    var i := step.thread;
    match st.threads[i]
    case Start => Move(st, i, if st.instance.None? then Wanting else Reading)
    case Wanting => Move(st, i, Inside).(lock := Some(i))
    case Inside => Move(st, i, if st.instance.None? then Building else Leaving)
    case Building =>
      if step.outcome == NoSettings then Move(st, i, Raised).(lock := None)
      else
        var c := if step.outcome == Works then PosthogClient(st.builds) else NullPosthog(st.builds);
        Move(st, i, Built(c)).(builds := st.builds + 1)
    case Built(c) => Move(st, i, Leaving).(instance := Some(c))
    case Leaving => Move(st, i, Reading).(lock := None)
    case Reading => Move(st, i, Returned(st.instance))
    case _ => st
  }

  function Run(st: State, steps: seq<Step>): State
    decreases |steps|
  {
    if steps == [] then st
    else if Enabled(st, steps[0]) then Run(Do(st, steps[0]), steps[1..])
    else Run(st, steps[1..])
  }

  predicate Initial(st: State) {
    st.instance.None? && st.lock.None? && st.builds == 0 && forall i | 0 <= i < |st.threads| :: st.threads[i] == Start
  }

  // ---- What every step keeps -----------------------------------------------

  predicate HoldsLock(p: Place) {
    p == Inside || p == Building || p.Built? || p == Leaving
  }

  predicate ThreadOk(st: State, i: nat)
    requires i < |st.threads|
  {
    var p := st.threads[i];
    && (HoldsLock(p) <==> st.lock == Some(i))
    && (p == Building || p.Built? ==> st.instance.None?)
    && (p == Leaving || p == Reading || p.Returned? ==> st.instance.Some?)
    && (p.Returned? ==> p.r == st.instance)
    && (p == Building ==> st.builds == 0)
    && (p.Built? ==> st.builds == 1 && p.c.n == 0)
  }

  /** A construction that has succeeded is either stored or still in the hands of its builder. */
  predicate Inv(st: State) {
    && (st.lock.Some? ==> st.lock.value < |st.threads|)
    && (forall i | 0 <= i < |st.threads| :: ThreadOk(st, i))
    && (st.instance.Some? ==> st.builds == 1)
    && (st.builds > 0 ==> st.instance.Some? || (st.lock.Some? && st.threads[st.lock.value].Built?))
  }

  lemma DoKeepsInv(st: State, step: Step)
    requires Inv(st) && Enabled(st, step)
    ensures Inv(Do(st, step))
    ensures st.instance.Some? ==> Do(st, step).instance == st.instance
  {
    var next, i := Do(st, step), step.thread;
    assert ThreadOk(st, i);
    forall j | 0 <= j < |next.threads| ensures ThreadOk(next, j) {
      assert ThreadOk(st, j);
    }
  }

  lemma {:induction false} RunKeepsInv(st: State, steps: seq<Step>)
    requires Inv(st)
    ensures Inv(Run(st, steps)) && |Run(st, steps).threads| == |st.threads|
    ensures st.instance.Some? ==> Run(st, steps).instance == st.instance
    decreases |steps|
  {
    if steps != [] {
      if Enabled(st, steps[0]) {
        DoKeepsInv(st, steps[0]);
        RunKeepsInv(Do(st, steps[0]), steps[1..]);
      } else {
        RunKeepsInv(st, steps[1..]);
      }
    }
  }

  lemma InitialInv(st: State)
    requires Initial(st)
    ensures Inv(st)
  {
  }

  /** In every interleaving of any number of calls: the client is built successfully at most once,
      nobody gets None, everyone who gets a client gets the same one, and it is the one stored. */
  lemma OneClientForAll(st: State, steps: seq<Step>)
    requires Initial(st)
    ensures var end := Run(st, steps);
            && end.builds <= 1
            && (forall i | 0 <= i < |end.threads| && end.threads[i].Returned? :: end.threads[i].r.Some?)
            && (forall i, j | 0 <= i < |end.threads| && 0 <= j < |end.threads| && end.threads[i].Returned? && end.threads[j].Returned? ::
                  end.threads[i].r == end.threads[j].r == end.instance)
  {
    InitialInv(st);
    RunKeepsInv(st, steps);
    InvMeans(Run(st, steps));
  }

  lemma InvMeans(end: State)
    requires Inv(end)
    ensures end.builds <= 1
    ensures forall i | 0 <= i < |end.threads| && end.threads[i].Returned? :: end.threads[i].r.Some? && end.threads[i].r == end.instance
  {
    if end.builds > 0 && end.instance.None? {
      assert ThreadOk(end, end.lock.value);
    }
    forall i | 0 <= i < |end.threads| && end.threads[i].Returned?
      ensures end.threads[i].r.Some? && end.threads[i].r == end.instance
    {
      assert ThreadOk(end, i);
    }
  }

  /** Once stored, the client is never replaced. */
  lemma ClientIsFinal(st: State, steps: seq<Step>, more: seq<Step>)
    requires Initial(st) && Run(st, steps).instance.Some?
    ensures Run(Run(st, steps), more).instance == Run(st, steps).instance
  {
    InitialInv(st);
    RunKeepsInv(st, steps);
    RunKeepsInv(Run(st, steps), more);
  }

  predicate Finished(p: Place) {
    p.Returned? || p == Raised
  }

  /** No call is ever stuck: while one is unfinished, some thread can move -- also after a
      construction has raised, because the lock is released then too. */
  lemma NeverStuck(st: State, i: nat)
    requires Inv(st) && i < |st.threads| && !Finished(st.threads[i])
    ensures exists j: nat :: j < |st.threads| && Enabled(st, Step(j, NoKey))
  {
    if st.threads[i] == Wanting && st.lock.Some? {
      var j := st.lock.value;
      assert ThreadOk(st, j);
      assert Enabled(st, Step(j, NoKey));
    } else {
      assert Enabled(st, Step(i, NoKey));
    }
  }

  // ---- When a call raises --------------------------------------------------

  /** A step makes a call raise exactly if that call is constructing and the settings cannot be read. */
  lemma StepRaisesIff(st: State, step: Step, i: nat)
    requires Enabled(st, step) && i < |st.threads| && st.threads[i] != Raised
    ensures i < |Do(st, step).threads|
    ensures Do(st, step).threads[i] == Raised <==> step == Step(i, NoSettings) && st.threads[i] == Building
  {
  }

  /** Step `k` of the run meets thread `i` constructing, and the settings cannot be read. */
  predicate FailsAt(st: State, steps: seq<Step>, k: nat, i: nat)
    requires k < |steps|
  {
    var before := Run(st, steps[..k]);
    steps[k] == Step(i, NoSettings) && i < |before.threads| && before.threads[i] == Building
  }

  lemma RunUnfolds(st: State, steps: seq<Step>)
    requires steps != []
    ensures Run(st, steps) == Run(if Enabled(st, steps[0]) then Do(st, steps[0]) else st, steps[1..])
  {
  }

  lemma FailsOnward(st: State, steps: seq<Step>, k: nat, i: nat)
    requires 0 < k < |steps|
    ensures var next := if Enabled(st, steps[0]) then Do(st, steps[0]) else st;
            FailsAt(st, steps, k, i) <==> FailsAt(next, steps[1..], k - 1, i)
  {
    assert steps[..k][0] == steps[0] && steps[..k][1..] == steps[1..][..k - 1];
    RunUnfolds(st, steps[..k]);
  }

  /** Over every interleaving: a call has raised exactly if at one of its steps it was the one constructing and
      the settings could not be read. Nothing else makes a call raise. */
  lemma {:induction false} RaisedIff(st: State, steps: seq<Step>, i: nat)
    requires i < |st.threads| && st.threads[i] != Raised
    ensures i < |Run(st, steps).threads|
    ensures Run(st, steps).threads[i] == Raised <==> exists k: nat :: k < |steps| && FailsAt(st, steps, k, i)
    decreases |steps|
  {
    if steps != [] {
      var next := if Enabled(st, steps[0]) then Do(st, steps[0]) else st;
      assert steps[..0] == [];
      if Enabled(st, steps[0]) {
        StepRaisesIff(st, steps[0], i);
      }
      forall k: nat | 0 < k < |steps| ensures FailsAt(st, steps, k, i) <==> FailsAt(next, steps[1..], k - 1, i) {
        FailsOnward(st, steps, k, i);
      }
      if next.threads[i] == Raised {
        assert FailsAt(st, steps, 0, i);
        RaisedStays(next, steps[1..], i);
      } else {
        RaisedIff(next, steps[1..], i);
        assert !FailsAt(st, steps, 0, i);
        if k: nat :| k < |steps| - 1 && FailsAt(next, steps[1..], k, i) {
          assert FailsAt(st, steps, k + 1, i);
        }
      }
    }
  }

  lemma {:induction false} RaisedStays(st: State, steps: seq<Step>, i: nat)
    requires i < |st.threads| && st.threads[i] == Raised
    ensures i < |Run(st, steps).threads| && Run(st, steps).threads[i] == Raised
    decreases |steps|
  {
    if steps != [] {
      RaisedStays(if Enabled(st, steps[0]) then Do(st, steps[0]) else st, steps[1..], i);
    }
  }

  /** While the settings can be read no call raises, whatever the SDK does. */
  lemma ReadableNeverRaises(st: State, steps: seq<Step>, i: nat)
    requires Initial(st) && i < |st.threads| && forall k | 0 <= k < |steps| :: steps[k].outcome != NoSettings
    ensures i < |Run(st, steps).threads| && Run(st, steps).threads[i] != Raised
  {
    RaisedIff(st, steps, i);
  }

  /** The steps of one call that constructs. */
  function OneCall(i: nat, outcome: Outcome): seq<Step> {
    [Step(i, NoKey), Step(i, NoKey), Step(i, NoKey), Step(i, outcome)]
  }

  function TheRest(i: nat): seq<Step> {
    [Step(i, NoKey), Step(i, NoKey), Step(i, NoKey)]
  }

  lemma CallConstructs(st: State, i: nat, outcome: Outcome, rest: seq<Step>)
    requires i < |st.threads| && st.threads[i] == Start && st.instance.None? && st.lock.None?
    ensures Run(st, OneCall(i, outcome) + rest) ==
            Run(if outcome == NoSettings then Move(st, i, Raised)
                else
                  var c := if outcome == Works then PosthogClient(st.builds) else NullPosthog(st.builds);
                  Move(st, i, Built(c)).(lock := Some(i), builds := st.builds + 1), rest)
  {
    var steps := OneCall(i, outcome) + rest;
    RunUnfolds(st, steps);
    var one := Do(st, steps[0]);
    RunUnfolds(one, steps[1..]);
    var two := Do(one, steps[1]);
    assert steps[1..][0] == steps[1] && steps[1..][1..][0] == steps[2] && steps[1..][1..][1..][0] == steps[3];
    RunUnfolds(two, steps[1..][1..]);
    var three := Do(two, steps[2]);
    RunUnfolds(three, steps[1..][1..][1..]);
    assert steps[1..][1..][1..][1..] == rest;
    assert Do(three, steps[3]).threads == st.threads[i := Do(three, steps[3]).threads[i]];
  }

  lemma CallReturns(st: State, i: nat, c: Client)
    requires i < |st.threads| && st.threads[i] == Built(c) && st.instance.None? && st.lock == Some(i)
    ensures Run(st, TheRest(i)) == Move(st, i, Returned(Some(c))).(instance := Some(c), lock := None)
  {
    var steps := TheRest(i);
    RunUnfolds(st, steps);
    var one := Do(st, steps[0]);
    RunUnfolds(one, steps[1..]);
    var two := Do(one, steps[1]);
    assert steps[1..][0] == steps[1] && steps[1..][1..][0] == steps[2] && steps[1..][1..][1..] == [];
    RunUnfolds(two, steps[1..][1..]);
    assert Do(two, steps[2]).threads == st.threads[i := Returned(Some(c))];
  }

  /** Two calls: the first cannot read the settings and raises; the second, after it, gets the client. */
  lemma OneRaisesOneReturns()
    ensures var st := State(None, None, [Start, Start], 0);
            Run(st, OneCall(0, NoSettings) + (OneCall(1, Works) + TheRest(1))).threads ==
            [Raised, Returned(Some(PosthogClient(0)))]
  {
    var st := State(None, None, [Start, Start], 0);
    CallConstructs(st, 0, NoSettings, OneCall(1, Works) + TheRest(1));
    var mid := Move(st, 0, Raised);
    CallConstructs(mid, 1, Works, TheRest(1));
    CallReturns(Move(mid, 1, Built(PosthogClient(0))).(lock := Some(1), builds := 1), 1, PosthogClient(0));
  }
}
