/** The metrics middleware: a capped set of endpoint labels, a gauge of requests in flight and a
    counter, shared by overlapping requests. */
module MetricsLabels {

  datatype Label = Label(verb: string, endpoint: string, status: int)

  datatype InFlight = InFlight(verb: string, endpoint: string)

  const MAX: nat := 256
  const OTHER: string := "_other"

  function Count(counts: map<Label, nat>, l: Label): nat {
    if l in counts then counts[l] else 0
  }

  /** The label an endpoint is recorded under, given the labels seen so far. */
  function LabelFor(seen: set<string>, endpoint: string): string {
    if endpoint in seen || |seen| < MAX then endpoint else OTHER
  }

  function SeenAfter(seen: set<string>, endpoint: string): set<string> {
    if endpoint in seen || |seen| >= MAX then seen else seen + {endpoint}
  }

  /** How far recording gets before it fails, if it does. */
  datatype Recording = Complete | FailsFirst | FailsBetween

  /** What was recorded, in order: the endpoint and the label that stood for it. */
  datatype Record = Record(endpoint: string, shown: string)

  datatype State = State(seen: set<string>, active: int, counts: map<Label, nat>, latency: map<(string, string), nat>,
                         open: map<nat, InFlight>, finished: nat, lost: nat, log: seq<Record>)

  datatype Event =
    | Begin(id: nat, verb: string, endpoint: string)
    | Finish(id: nat, status: int, recording: Recording)   // 500 when the handler raised

  predicate Enabled(st: State, e: Event) {
    match e
    case Begin(id, _, _) => id !in st.open
    case Finish(id, _, _) => id in st.open
  }

  function Bump(m: map<(string, string), nat>, k: (string, string)): map<(string, string), nat> {
    m[k := (if k in m then m[k] else 0) + 1]
  }

  function Do(st: State, e: Event): State
    requires Enabled(st, e)
  {
    match e
    case Begin(id, verb, endpoint) =>
      st.(active := st.active + 1, open := st.open[id := InFlight(verb, endpoint)])
    case Finish(id, status, recording) =>
      var r := st.open[id];
      Closed(st, id, r, status, recording, LabelFor(st.seen, r.endpoint), SeenAfter(st.seen, r.endpoint))
  }

  /** The end of a request, recorded under `name`. */
  function Closed(st: State, id: nat, r: InFlight, status: int, recording: Recording, name: string, seen: set<string>): State {
    var l := Label(r.verb, name, status);
    State(seen, st.active - 1,
          if recording == Complete then st.counts[l := Count(st.counts, l) + 1] else st.counts,
          if recording != FailsFirst then Bump(st.latency, (r.verb, name)) else st.latency,
          st.open - {id}, st.finished + 1,
          if recording == Complete then st.lost else st.lost + 1,
          if recording != FailsFirst then st.log + [Record(r.endpoint, name)] else st.log)
  }

  function Run(st: State, es: seq<Event>): State
    decreases |es|
  {
    if es == [] then st
    else if Enabled(st, es[0]) then Run(Do(st, es[0]), es[1..])
    else Run(st, es[1..])
  }

  predicate Initial(st: State) {
    st == State({}, 0, map[], map[], map[], 0, 0, [])
  }

  // ---- Sums over the counter -----------------------------------------------

  ghost function Sum(counts: map<Label, nat>): nat
    decreases |counts|
  {
    if counts == map[] then 0
    else
      var l :| l in counts;
      counts[l] + Sum(counts - {l})
  }

  lemma {:induction false} SumSplits(counts: map<Label, nat>, l: Label)
    requires l in counts
    ensures Sum(counts) == counts[l] + Sum(counts - {l})
    decreases |counts|
  {
    var first :| first in counts && Sum(counts) == counts[first] + Sum(counts - {first});
    if first != l {
      SumSplits(counts - {first}, l);
      SumSplits(counts - {l}, first);
      assert counts - {first} - {l} == counts - {l} - {first};
    }
  }

  lemma SumBumps(counts: map<Label, nat>, l: Label)
    ensures Sum(counts[l := Count(counts, l) + 1]) == Sum(counts) + 1
  {
    var next := counts[l := Count(counts, l) + 1];
    SumSplits(next, l);
    if l in counts {
      SumSplits(counts, l);
      assert next - {l} == counts - {l};
    } else {
      assert next - {l} == counts;
    }
  }

  // ---- What every event keeps ----------------------------------------------

  /** The label an endpoint keeps from its first record on: its own name if it is in the set, and
      otherwise the common one, for good, because the set is full. */
  predicate Settled(seen: set<string>, r: Record) {
    if r.endpoint in seen then r.shown == r.endpoint else |seen| >= MAX && r.shown == OTHER
  }

  ghost predicate Inv(st: State) {
    && |st.seen| <= MAX
    && st.active == |st.open|
    && Sum(st.counts) + st.lost == st.finished
    && (forall l | l in st.counts :: l.endpoint in st.seen || l.endpoint == OTHER)
    && (forall k | k in st.latency :: k.1 in st.seen || k.1 == OTHER)
    && (forall k | 0 <= k < |st.log| :: Settled(st.seen, st.log[k]))
  }

  lemma OpenSize(open: map<nat, InFlight>, id: nat, r: InFlight)
    ensures id !in open ==> |open[id := r]| == |open| + 1
    ensures id in open ==> |open - {id}| == |open| - 1
  {
    assert open[id := r].Keys == open.Keys + {id};
    assert (open - {id}).Keys == open.Keys - {id};
    assert |open[id := r]| == |open[id := r].Keys| && |open - {id}| == |(open - {id}).Keys| && |open| == |open.Keys|;
  }

  lemma SettledStays(seen: set<string>, endpoint: string, r: Record)
    requires |seen| <= MAX && Settled(seen, r)
    ensures Settled(SeenAfter(seen, endpoint), r)
  {
  }

  lemma SettledNow(seen: set<string>, endpoint: string)
    requires |seen| <= MAX
    ensures |SeenAfter(seen, endpoint)| <= MAX
    ensures Settled(SeenAfter(seen, endpoint), Record(endpoint, LabelFor(seen, endpoint)))
    ensures LabelFor(seen, endpoint) in SeenAfter(seen, endpoint) || LabelFor(seen, endpoint) == OTHER
    ensures seen <= SeenAfter(seen, endpoint)
  {
  }

  lemma FinishKeepsInv(st: State, id: nat, status: int, recording: Recording)
    requires Inv(st) && id in st.open
    ensures Inv(Do(st, Finish(id, status, recording)))
  {
    var next, r := Do(st, Finish(id, status, recording)), st.open[id];
    OpenSize(st.open, id, r);
    SumBumps(st.counts, Label(r.verb, LabelFor(st.seen, r.endpoint), status));
    SettledNow(st.seen, r.endpoint);
    forall k | 0 <= k < |next.log| ensures Settled(next.seen, next.log[k]) {
      if k < |st.log| { SettledStays(st.seen, r.endpoint, st.log[k]); }
    }
  }

  lemma DoKeepsInv(st: State, e: Event)
    requires Inv(st) && Enabled(st, e)
    ensures Inv(Do(st, e))
    ensures st.log <= Do(st, e).log
  {
    match e
    case Begin(id, verb, endpoint) => OpenSize(st.open, id, InFlight(verb, endpoint));
    case Finish(id, status, recording) => FinishKeepsInv(st, id, status, recording);
  }

  lemma {:induction false} RunKeepsInv(st: State, es: seq<Event>)
    requires Inv(st)
    ensures Inv(Run(st, es)) && st.log <= Run(st, es).log
    decreases |es|
  {
    if es != [] {
      if Enabled(st, es[0]) {
        DoKeepsInv(st, es[0]);
        RunKeepsInv(Do(st, es[0]), es[1..]);
      } else {
        RunKeepsInv(st, es[1..]);
      }
    }
  }

  function Emitted(st: State): set<string> {
    (set l | l in st.counts :: l.endpoint) + (set k | k in st.latency :: k.1)
  }

  /** Over every run of overlapping requests: at most 257 endpoint labels are emitted, the gauge is the
      number of requests in flight, and the counts add up to the requests finished, raised or not,
      less those whose recording failed. */
  lemma MetricsAddUp(st: State, es: seq<Event>)
    requires Initial(st)
    ensures var end := Run(st, es);
            |Emitted(end)| <= 257 && end.active == |end.open| && Sum(end.counts) + end.lost == end.finished
  {
    InitialInv(st);
    RunKeepsInv(st, es);
    EmittedFew(Run(st, es));
  }

  lemma EmittedFew(st: State)
    requires Inv(st)
    ensures |Emitted(st)| <= MAX + 1
  {
    SubsetSize(Emitted(st), st.seen + {OTHER});
  }

  lemma InitialInv(st: State)
    requires Initial(st)
    ensures Inv(st)
  {
  }

  lemma {:induction false} SubsetSize<T>(a: set<T>, b: set<T>)
    requires a <= b
    ensures |a| <= |b|
  {
    if a != {} {
      var x :| x in a;
      SubsetSize(a - {x}, b - {x});
    }
  }

  /** An endpoint is recorded under one label for the life of the process: its own name every time, or
      the common one every time. */
  lemma OneLabelPerEndpoint(st: State, es: seq<Event>, i: nat, j: nat)
    requires Initial(st) && i < |Run(st, es).log| && j < |Run(st, es).log|
    requires Run(st, es).log[i].endpoint == Run(st, es).log[j].endpoint
    ensures Run(st, es).log[i].shown == Run(st, es).log[j].shown
    ensures Run(st, es).log[i].shown in {Run(st, es).log[i].endpoint, OTHER}
  {
    InitialInv(st);
    RunKeepsInv(st, es);
    SettledAlike(Run(st, es), i, j);
  }

  lemma SettledAlike(end: State, i: nat, j: nat)
    requires Inv(end) && i < |end.log| && j < |end.log| && end.log[i].endpoint == end.log[j].endpoint
    ensures end.log[i].shown == end.log[j].shown && end.log[i].shown in {end.log[i].endpoint, OTHER}
  {
    assert Settled(end.seen, end.log[i]) && Settled(end.seen, end.log[j]);
  }

  // ---- The middleware's shared state ---------------------------------------

  class Metrics {
    var seen: set<string>
    var active: int
    var counts: map<Label, nat>
    var latency: map<(string, string), nat>
    ghost var open: map<nat, InFlight>
    ghost var finished: nat
    ghost var lost: nat
    ghost var log: seq<Record>

    ghost function Now(): State
      reads this
    {
      State(seen, active, counts, latency, open, finished, lost, log)
    }

    constructor ()
      ensures Initial(Now())
    {
      seen, active, counts, latency := {}, 0, map[], map[];
      open, finished, lost, log := map[], 0, 0, [];
    }

    /** `dispatch` up to the handler. */
    method Enter(id: nat, verb: string, endpoint: string)
      requires Enabled(Now(), Begin(id, verb, endpoint))
      modifies this
      ensures Now() == Do(old(Now()), Begin(id, verb, endpoint))
    {
      active := active + 1;
      open := open[id := InFlight(verb, endpoint)];
    }

    /** The cardinality cap. */
    method Cap(endpoint: string) returns (name: string)
      modifies this`seen
      ensures name == LabelFor(old(seen), endpoint) && seen == SeenAfter(old(seen), endpoint)
    {
      name := endpoint;
      if endpoint !in seen {
        if |seen| >= MAX {
          name := OTHER;
        } else {
          seen := seen + {endpoint};
        }
      }
    }

    /** Its `finally` block. */
    method Leave(id: nat, verb: string, endpoint: string, status: int, recording: Recording)
      requires Enabled(Now(), Finish(id, status, recording)) && open[id] == InFlight(verb, endpoint)
      modifies this
      ensures Now() == Do(old(Now()), Finish(id, status, recording))
    {
      var name := Cap(endpoint);
      Close(id, verb, endpoint, status, recording, name);
    }

    /** Everything but the cap. */
    method Close(id: nat, verb: string, endpoint: string, status: int, recording: Recording, name: string)
      modifies this
      ensures Now() == Closed(old(Now()), id, InFlight(verb, endpoint), status, recording, name, old(seen))
    {
      active := active - 1;
      open, finished := open - {id}, finished + 1;
      if recording != FailsFirst {
        latency := Bump(latency, (verb, name));
        log := log + [Record(endpoint, name)];
      }
      if recording == Complete {
        Increment(Label(verb, name, status));
      } else {
        lost := lost + 1;
      }
    }

    method Increment(l: Label)
      modifies this`counts
      ensures counts == old(counts)[l := Count(old(counts), l) + 1]
    {
      counts := counts[l := Count(counts, l) + 1];
    }
  }
}
