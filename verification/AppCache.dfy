/**
 * The read-through cache: several processes share one Redis with a version
 * counter for each namespace; each process keeps its own map of running loads.
 * One step is what happens between two points where a request waits.
 */
module AppCache {
  import opened Common
  import TimeUtil

  // ---- Keys ----

  /** Where a value is stored: the digest stands for the identity. */
  datatype Key = Key(namespace: string, version: nat, digest: string)

  function VersionKeyText(prefix: string, namespace: string): string {
    prefix + (":cache-version:" + namespace)
  }

  function ValueKeyText(prefix: string, key: Key): string {
    prefix + (":cache:" + (key.namespace + (":v" + (TimeUtil.Decimal(key.version) + (":" + key.digest)))))
  }

  predicate NoColon(s: string) {
    ':' !in s
  }

  function UpToColon(s: string): (n: nat)
    ensures n <= |s|
  {
    if s != [] && s[0] != ':' then 1 + UpToColon(s[1..]) else 0
  }

  lemma {:induction false} ColonFound(a: string, x: string)
    requires NoColon(a)
    ensures UpToColon(a + (":" + x)) == |a|
  {
    if a != [] {
      ColonFound(a[1..], x);
      assert (a + (":" + x))[1..] == a[1..] + (":" + x);
    }
  }

  lemma SplitAtColon(a: string, b: string, x: string, y: string)
    requires NoColon(a) && NoColon(b)
    requires a + (":" + x) == b + (":" + y)
    ensures a == b && x == y
  {
    var s, t := a + (":" + x), b + (":" + y);
    ColonFound(a, x);
    ColonFound(b, y);
    assert a == s[..|a|] == t[..|b|] == b;
    assert x == s[|a| + 1..] == t[|b| + 1..] == y;
  }

  /** Different keys have different texts, so the text of a key may stand for the key. */
  lemma KeyTextDetermines(prefix: string, k: Key, l: Key)
    requires NoColon(k.namespace) && NoColon(l.namespace)
    ensures ValueKeyText(prefix, k) == ValueKeyText(prefix, l) <==> k == l
  {
    if ValueKeyText(prefix, k) == ValueKeyText(prefix, l) {
      var dk, dl := TimeUtil.Decimal(k.version), TimeUtil.Decimal(l.version);
      var restK, restL := "v" + (dk + (":" + k.digest)), "v" + (dl + (":" + l.digest));
      var s, t := ValueKeyText(prefix, k), ValueKeyText(prefix, l);
      assert ":v" + (dk + (":" + k.digest)) == ":" + restK;
      assert ":v" + (dl + (":" + l.digest)) == ":" + restL;
      assert s[|prefix| + 7..] == k.namespace + (":" + restK);
      assert t[|prefix| + 7..] == l.namespace + (":" + restL);
      SplitAtColon(k.namespace, l.namespace, restK, restL);
      assert restK[1..] == dk + (":" + k.digest) && restL[1..] == dl + (":" + l.digest);
      TimeUtil.DecimalDigits(k.version);
      TimeUtil.DecimalDigits(l.version);
      SplitAtColon(dk, dl, k.digest, l.digest);
      TimeUtil.DecimalDetermines(k.version, l.version);
    }
  }

  /** A stored value can never be mistaken for a version counter. */
  lemma ValueKeyIsNoVersionKey(prefix: string, k: Key, namespace: string)
    ensures ValueKeyText(prefix, k) != VersionKeyText(prefix, namespace)
  {
    var i := |prefix| + |":cache"|;
    assert ValueKeyText(prefix, k)[i] == ':';
    assert VersionKeyText(prefix, namespace)[i] == '-';
  }

  // ---- State ----

  /** A loaded value together with when its loader started and for what. */
  datatype Loaded = Loaded(namespace: string, digest: string, startedAt: nat, payload: int)

  datatype Outcome = Pending | Fulfilled(payload: int) | Rejected

  /** A load that some request of the process started; several requests may wait for it. */
  datatype Load = Load(process: int, key: Key, startedAt: nat, outcome: Outcome)

  datatype Phase =
    | Begun
    | HasVersion(version: nat)
    | Missed(key: Key)
    | Waiting(key: Key, load: nat, leads: bool)
    | Writing(key: Key, value: Loaded)
    | Bypassing(startedAt: nat)
    | Answered(value: Loaded)
    | Failed

  datatype Request = Request(process: int, namespace: string, digest: string, begunAt: nat, phase: Phase)

  /**
   * `bumps` lists, for each namespace, when its version counter was raised; the
   * counter is the length of that list, and a missing counter reads as 0.
   */
  datatype State = State(
    clock: nat,
    bumps: map<string, seq<nat>>,
    store: map<Key, Loaded>,
    inFlight: map<(int, Key), nat>,
    loads: seq<Load>,
    requests: map<int, Request>)

  const INITIAL: State := State(0, map[], map[], map[], [], map[])

  function Bumps(s: State, namespace: string): seq<nat> {
    if namespace in s.bumps then s.bumps[namespace] else []
  }

  datatype Step =
    | Begin(id: int, process: int, namespace: string, digest: string)
    | LookupFails(id: int)
    | ReadVersion(id: int)
    | ReadValue(id: int)
    | JoinOrLoad(id: int)
    | LoaderSettles(load: nat, outcome: Outcome)
    | BypassSettles(id: int, outcome: Outcome)
    | Resume(id: int)
    | WriteBack(id: int, succeeds: bool)
    | Invalidate(namespace: string)
    | Expire(key: Key)

  function SetPhase(s: State, id: int, phase: Phase): State
    requires id in s.requests
  {
    s.(requests := s.requests[id := s.requests[id].(phase := phase)])
  }

  /** What a request's own loader brings. */
  function LoadedBy(r: Request, startedAt: nat, payload: int): Loaded {
    Loaded(r.namespace, r.digest, startedAt, payload)
  }

  /** What a shared load brings: a value for the key under which it runs, whoever waits for it. */
  function LoadedUnder(load: Load, payload: int): Loaded {
    Loaded(load.key.namespace, load.key.digest, load.startedAt, payload)
  }

  /** The effect of a step; a step that cannot happen now has none. */
  function Effect(s: State, step: Step): State {
    match step
    case Begin(id, process, namespace, digest) =>
      if id in s.requests then s
      else s.(requests := s.requests[id := Request(process, namespace, digest, s.clock, Begun)])
    case LookupFails(id) =>
      // Redis is disabled, unreachable or returns garbage: the loader runs on its own.
      if id in s.requests && (s.requests[id].phase.Begun? || s.requests[id].phase.HasVersion?)
      then SetPhase(s, id, Bypassing(s.clock)) else s
    case ReadVersion(id) =>
      if id in s.requests && s.requests[id].phase.Begun?
      then SetPhase(s, id, HasVersion(|Bumps(s, s.requests[id].namespace)|)) else s
    case ReadValue(id) =>
      if id in s.requests && s.requests[id].phase.HasVersion? then
        var r := s.requests[id];
        var key := Key(r.namespace, r.phase.version, r.digest);
        SetPhase(s, id, if key in s.store then Answered(s.store[key]) else Missed(key))
      else s
    case JoinOrLoad(id) =>
      if id in s.requests && s.requests[id].phase.Missed? then
        var r := s.requests[id];
        var slot := (r.process, r.phase.key);
        if slot in s.inFlight then SetPhase(s, id, Waiting(r.phase.key, s.inFlight[slot], false))
        else SetPhase(s, id, Waiting(r.phase.key, |s.loads|, true))
             .(inFlight := s.inFlight[slot := |s.loads|],
               loads := s.loads + [Load(r.process, r.phase.key, s.clock, Pending)])
      else s
    case LoaderSettles(load, outcome) =>
      if load < |s.loads| && s.loads[load].outcome.Pending?
      then s.(loads := s.loads[load := s.loads[load].(outcome := outcome)]) else s
    case BypassSettles(id, outcome) =>
      if id in s.requests && s.requests[id].phase.Bypassing? then
        var r := s.requests[id];
        match outcome
        case Pending => s
        case Fulfilled(payload) => SetPhase(s, id, Answered(LoadedBy(r, r.phase.startedAt, payload)))
        case Rejected => SetPhase(s, id, Failed)
      else s
    case Resume(id) =>
      if id in s.requests && s.requests[id].phase.Waiting? && s.requests[id].phase.load < |s.loads| then
        var r := s.requests[id];
        var load := s.loads[r.phase.load];
        var s' := if r.phase.leads then s.(inFlight := s.inFlight - {(r.process, r.phase.key)}) else s;
        match load.outcome
        case Pending => s
        case Fulfilled(payload) => SetPhase(s', id, Writing(r.phase.key, LoadedUnder(load, payload)))
        case Rejected => SetPhase(s', id, Failed)
      else s
    case WriteBack(id, succeeds) =>
      if id in s.requests && s.requests[id].phase.Writing? then
        var w := s.requests[id].phase;
        SetPhase(if succeeds then s.(store := s.store[w.key := w.value]) else s, id, Answered(w.value))
      else s
    case Invalidate(namespace) =>
      s.(bumps := s.bumps[namespace := Bumps(s, namespace) + [s.clock]])
    case Expire(key) => s.(store := s.store - {key})
  }

  function Do(s: State, step: Step): State {
    Effect(s, step).(clock := s.clock + 1)
  }

  /** The state after any schedule of steps of any processes. */
  function Run(steps: seq<Step>): State {
    if steps == [] then INITIAL else Do(Run(steps[..|steps| - 1]), steps[|steps| - 1])
  }

  // ---- What must hold ----

  /** Whatever started at `time` started after every invalidation up to this version. */
  ghost predicate After(s: State, namespace: string, version: nat, time: nat) {
    && version <= |Bumps(s, namespace)|
    && forall i :: 0 <= i < version ==> Bumps(s, namespace)[i] < time
  }

  /** The version takes in every invalidation made before `time`. */
  ghost predicate Covers(s: State, namespace: string, version: nat, time: nat) {
    && version <= |Bumps(s, namespace)|
    && forall i :: version <= i < |Bumps(s, namespace)| ==> time <= Bumps(s, namespace)[i]
  }

  ghost predicate ValueOk(s: State, key: Key, value: Loaded) {
    && value.namespace == key.namespace && value.digest == key.digest
    && After(s, key.namespace, key.version, value.startedAt)
    && value.startedAt < s.clock
  }

  /** An answer came from a loader started after every invalidation that preceded the request. */
  ghost predicate FreshFor(s: State, r: Request, value: Loaded) {
    && value.namespace == r.namespace && value.digest == r.digest
    && forall i :: 0 <= i < |Bumps(s, r.namespace)| && Bumps(s, r.namespace)[i] < r.begunAt ==>
         Bumps(s, r.namespace)[i] < value.startedAt
  }

  ghost predicate KeyOk(s: State, r: Request, key: Key) {
    && key.namespace == r.namespace && key.digest == r.digest
    && Covers(s, key.namespace, key.version, r.begunAt)
  }

  ghost predicate RequestOk(s: State, r: Request) {
    && r.begunAt < s.clock
    && match r.phase
       case Begun => true
       case HasVersion(version) => Covers(s, r.namespace, version, r.begunAt)
       case Missed(key) => KeyOk(s, r, key)
       case Waiting(key, load, leads) =>
         && KeyOk(s, r, key)
         && load < |s.loads| && s.loads[load].key == key && s.loads[load].process == r.process
       case Writing(key, value) => KeyOk(s, r, key) && ValueOk(s, key, value)
       case Bypassing(startedAt) => r.begunAt <= startedAt < s.clock
       case Answered(value) => FreshFor(s, r, value)
       case Failed => true
  }

  ghost predicate ClockOk(s: State) {
    forall namespace, i :: 0 <= i < |Bumps(s, namespace)| ==> Bumps(s, namespace)[i] < s.clock
  }

  ghost predicate StoreOk(s: State) {
    forall key :: key in s.store ==> ValueOk(s, key, s.store[key])
  }

  ghost predicate LoadsOk(s: State) {
    forall n :: 0 <= n < |s.loads| ==>
      && s.loads[n].startedAt < s.clock
      && After(s, s.loads[n].key.namespace, s.loads[n].key.version, s.loads[n].startedAt)
  }

  ghost predicate RequestsOk(s: State) {
    forall id :: id in s.requests ==> RequestOk(s, s.requests[id])
  }

  /** The request is the one that started this load and has not taken it out of the map yet. */
  ghost predicate Leads(s: State, id: int, load: nat) {
    && id in s.requests
    && s.requests[id].phase.Waiting? && s.requests[id].phase.leads && s.requests[id].phase.load == load
  }

  /** What the map of running loads points at is a load of that process under that key. */
  ghost predicate FlightsPoint(s: State) {
    forall slot :: slot in s.inFlight ==>
      && s.inFlight[slot] < |s.loads|
      && (s.loads[s.inFlight[slot]].process, s.loads[s.inFlight[slot]].key) == slot
  }

  ghost predicate InMap(s: State, load: nat) {
    && load < |s.loads|
    && (s.loads[load].process, s.loads[load].key) in s.inFlight
    && s.inFlight[(s.loads[load].process, s.loads[load].key)] == load
  }

  /** A load is in the map as long as its leader waits, and in any case until it settles. */
  ghost predicate LeadersFly(s: State) {
    forall id, n :: Leads(s, id, n) ==> InMap(s, n)
  }

  ghost predicate PendingFly(s: State) {
    forall n :: 0 <= n < |s.loads| && s.loads[n].outcome.Pending? ==> InMap(s, n)
  }

  ghost predicate OneLeader(s: State) {
    forall i, j, n :: Leads(s, i, n) && Leads(s, j, n) ==> i == j
  }

  /** Nothing is left in the map once its leader has taken it up, however the load ended. */
  ghost predicate FlightsAreLed(s: State) {
    forall slot :: slot in s.inFlight ==> IsLed(s, s.inFlight[slot])
  }

  ghost predicate IsLed(s: State, load: nat) {
    exists id :: Leads(s, id, load)
  }

  ghost predicate FlightsOk(s: State) {
    FlightsPoint(s) && LeadersFly(s) && PendingFly(s) && OneLeader(s) && FlightsAreLed(s)
  }

  ghost predicate Inv(s: State) {
    ClockOk(s) && StoreOk(s) && LoadsOk(s) && RequestsOk(s) && FlightsOk(s)
  }

  // ---- Every step keeps it ----

  lemma BumpsAfter(s: State, step: Step, namespace: string)
    ensures Bumps(Do(s, step), namespace) ==
        Bumps(s, namespace) + (if step == Invalidate(namespace) then [s.clock] else [])
  {
  }

  /** Loads are never forgotten, and what a load was started for never changes. */
  lemma LoadsAfter(s: State, step: Step)
    ensures |s.loads| <= |Do(s, step).loads|
    ensures forall n :: 0 <= n < |s.loads| ==>
        var m := Do(s, step).loads[n];
        s.loads[n].process == m.process && s.loads[n].key == m.key && s.loads[n].startedAt == m.startedAt
  {
  }

  lemma AfterKept(s: State, step: Step, namespace: string, version: nat, time: nat)
    requires After(s, namespace, version, time)
    ensures After(Do(s, step), namespace, version, time)
  {
    BumpsAfter(s, step, namespace);
  }

  lemma CoversKept(s: State, step: Step, namespace: string, version: nat, time: nat)
    requires Covers(s, namespace, version, time) && time <= s.clock
    ensures Covers(Do(s, step), namespace, version, time)
  {
    BumpsAfter(s, step, namespace);
  }

  lemma ValueKept(s: State, step: Step, key: Key, value: Loaded)
    requires ValueOk(s, key, value)
    ensures ValueOk(Do(s, step), key, value)
  {
    AfterKept(s, step, key.namespace, key.version, value.startedAt);
  }

  lemma RequestKept(s: State, step: Step, r: Request)
    requires RequestOk(s, r)
    ensures RequestOk(Do(s, step), r)
  {
    hide Effect;
    BumpsAfter(s, step, r.namespace);
    LoadsAfter(s, step);
    match r.phase {
      case HasVersion(version) => CoversKept(s, step, r.namespace, version, r.begunAt);
      case Missed(key) => CoversKept(s, step, key.namespace, key.version, r.begunAt);
      case Waiting(key, _, _) => CoversKept(s, step, key.namespace, key.version, r.begunAt);
      case Writing(key, value) =>
        CoversKept(s, step, key.namespace, key.version, r.begunAt);
        ValueKept(s, step, key, value);
      case _ =>
    }
  }

  /** A value stored under a key is fresh for every request that computed that key. */
  lemma CoveredValueIsFresh(s: State, r: Request, key: Key, value: Loaded)
    requires KeyOk(s, r, key) && ValueOk(s, key, value)
    ensures FreshFor(s, r, value)
  {
  }

  /** A load started now is later than every invalidation so far. */
  lemma NowIsAfter(s: State, namespace: string, version: nat)
    requires ClockOk(s) && version <= |Bumps(s, namespace)|
    ensures After(s, namespace, version, s.clock)
  {
  }

  /** The request that a step moves on, if it moves any. */
  function Moved(step: Step): Option<int> {
    match step
    case Begin(id, _, _, _) => Some(id)
    case LookupFails(id) => Some(id)
    case ReadVersion(id) => Some(id)
    case ReadValue(id) => Some(id)
    case JoinOrLoad(id) => Some(id)
    case BypassSettles(id, _) => Some(id)
    case Resume(id) => Some(id)
    case WriteBack(id, _) => Some(id)
    case _ => None
  }

  lemma OthersStay(s: State, step: Step, id: int)
    requires Moved(step) != Some(id)
    ensures id in Do(s, step).requests <==> id in s.requests
    ensures id in s.requests ==> Do(s, step).requests[id] == s.requests[id]
  {
    OnlyMovedRequest(s, step);
    hide Do;
  }

  /** The steps of a load and of its taking up. */
  predicate IsLoadStep(step: Step) {
    step.JoinOrLoad? || step.Resume? || step.WriteBack?
  }

  lemma OnlyLoadingRequest(s: State, step: Step)
    requires IsLoadStep(step)
    ensures var after := Do(s, step).requests;
            after == s.requests || (step.id in after && after == s.requests[step.id := after[step.id]])
  {
    hide LoadedUnder;
  }

  /** A step rewrites the request it is about, if any, and no other. */
  lemma OnlyMovedRequest(s: State, step: Step)
    ensures var after := Do(s, step).requests;
            if Moved(step).None? then after == s.requests
            else after == s.requests
                 || (Moved(step).value in after && after == s.requests[Moved(step).value := after[Moved(step).value]])
  {
    if IsLoadStep(step) {
      OnlyLoadingRequest(s, step);
      hide Do;
    } else {
      hide LoadedBy, Bumps;
    }
  }

  lemma MovedRequestOk(s: State, step: Step, id: int)
    requires Inv(s) && Moved(step) == Some(id) && id in Do(s, step).requests
    ensures RequestOk(Do(s, step), Do(s, step).requests[id])
  {
    var s' := Do(s, step);
    if id in s.requests {
      var r := s.requests[id];
      assert RequestOk(s, r);
      if s'.requests[id] == r {
        RequestKept(s, step, r);
      } else {
        AdvancedRequestOk(s, step, id);
      }
    }
  }

  lemma AdvancedRequestOk(s: State, step: Step, id: int)
    requires Inv(s) && Moved(step) == Some(id) && id in s.requests
    requires Do(s, step).requests[id] != s.requests[id]
    ensures RequestOk(Do(s, step), Do(s, step).requests[id])
  {
    PhaseBefore(s, step, id);
    hide Do;
    match step {
      case ReadValue(_) => ReadValueOk(s, id);
      case Resume(_) => ResumeOk(s, id);
      case WriteBack(_, succeeds) => WriteBackOk(s, id, succeeds);
      case JoinOrLoad(_) => JoinOk(s, id);
      case _ => EarlyRequestOk(s, step, id);
    }
  }

  /** In which phase each step finds the request it moves on. */
  lemma PhaseBefore(s: State, step: Step, id: int)
    requires Moved(step) == Some(id) && id in s.requests && Do(s, step).requests[id] != s.requests[id]
    ensures step.ReadValue? ==> s.requests[id].phase.HasVersion?
    ensures step.JoinOrLoad? ==> s.requests[id].phase.Missed?
    ensures step.WriteBack? ==> s.requests[id].phase.Writing?
    ensures step.Resume? ==>
              && s.requests[id].phase.Waiting? && s.requests[id].phase.load < |s.loads|
              && !s.loads[s.requests[id].phase.load].outcome.Pending?
    ensures !step.Begin?
  {
    hide LoadedBy, LoadedUnder, Bumps;
  }

  lemma EarlyRequestOk(s: State, step: Step, id: int)
    requires Inv(s) && Moved(step) == Some(id) && id in s.requests && id in Do(s, step).requests
    requires step.LookupFails? || step.ReadVersion? || step.BypassSettles?
    requires Do(s, step).requests[id] != s.requests[id]
    ensures RequestOk(Do(s, step), Do(s, step).requests[id])
  {
    assert RequestOk(s, s.requests[id]);
  }

  lemma ReadValueOk(s: State, id: int)
    requires Inv(s) && id in s.requests && s.requests[id].phase.HasVersion?
    ensures RequestOk(Do(s, ReadValue(id)), Do(s, ReadValue(id)).requests[id])
  {
    var r := s.requests[id];
    assert RequestOk(s, r);
    var key := Key(r.namespace, r.phase.version, r.digest);
    if key in s.store {
      assert ValueOk(s, key, s.store[key]);
      CoveredValueIsFresh(s, r, key, s.store[key]);
    }
  }

  lemma JoinOk(s: State, id: int)
    requires Inv(s) && id in s.requests && s.requests[id].phase.Missed?
    ensures RequestOk(Do(s, JoinOrLoad(id)), Do(s, JoinOrLoad(id)).requests[id])
  {
    assert RequestOk(s, s.requests[id]);
  }

  lemma ResumeDoes(s: State, id: int)
    requires id in s.requests && s.requests[id].phase.Waiting?
    requires s.requests[id].phase.load < |s.loads| && !s.loads[s.requests[id].phase.load].outcome.Pending?
    ensures var s' := Do(s, Resume(id)); var r := s.requests[id]; var load := s.loads[r.phase.load];
            && s'.bumps == s.bumps && s'.store == s.store && s'.loads == s.loads && s'.clock == s.clock + 1
            && id in s'.requests
            && s'.requests[id] == r.(phase :=
                 if load.outcome.Fulfilled? then Writing(r.phase.key, LoadedUnder(load, load.outcome.payload))
                 else Failed)
  {
    hide LoadedUnder;
  }

  lemma ResumeOk(s: State, id: int)
    requires Inv(s) && id in s.requests && s.requests[id].phase.Waiting?
    requires s.requests[id].phase.load < |s.loads| && !s.loads[s.requests[id].phase.load].outcome.Pending?
    ensures RequestOk(Do(s, Resume(id)), Do(s, Resume(id)).requests[id])
  {
    var r := s.requests[id];
    assert RequestOk(s, r);
    var load := s.loads[r.phase.load];
    ResumeDoes(s, id);
    hide Do;
    assert After(s, load.key.namespace, load.key.version, load.startedAt);
  }

  lemma WriteBackOk(s: State, id: int, succeeds: bool)
    requires Inv(s) && id in s.requests && s.requests[id].phase.Writing?
    ensures RequestOk(Do(s, WriteBack(id, succeeds)), Do(s, WriteBack(id, succeeds)).requests[id])
  {
    var r := s.requests[id];
    assert RequestOk(s, r);
    CoveredValueIsFresh(s, r, r.phase.key, r.phase.value);
  }

  lemma StepKeepsRequests(s: State, step: Step)
    requires Inv(s)
    ensures RequestsOk(Do(s, step))
  {
    hide Do;
    var s' := Do(s, step);
    forall id | id in s'.requests ensures RequestOk(s', s'.requests[id]) {
      if Moved(step) == Some(id) {
        MovedRequestOk(s, step, id);
      } else {
        OthersStay(s, step, id);
        RequestKept(s, step, s.requests[id]);
      }
    }
  }

  lemma StepKeepsClock(s: State, step: Step)
    requires Inv(s)
    ensures ClockOk(Do(s, step))
  {
    forall namespace, i | 0 <= i < |Bumps(Do(s, step), namespace)|
      ensures Bumps(Do(s, step), namespace)[i] < Do(s, step).clock
    {
      BumpsAfter(s, step, namespace);
    }
  }

  lemma StepKeepsStore(s: State, step: Step)
    requires Inv(s)
    ensures StoreOk(Do(s, step))
  {
    var s' := Do(s, step);
    forall key | key in s'.store ensures ValueOk(s', key, s'.store[key]) {
      if key in s.store && s.store[key] == s'.store[key] {
        ValueKept(s, step, key, s.store[key]);
      } else {
        var id := step.id;
        assert RequestOk(s, s.requests[id]);
        ValueKept(s, step, key, s'.store[key]);
      }
    }
  }

  lemma StepKeepsLoads(s: State, step: Step)
    requires Inv(s)
    ensures LoadsOk(Do(s, step))
  {
    var s' := Do(s, step);
    LoadsAfter(s, step);
    forall n | 0 <= n < |s'.loads|
      ensures s'.loads[n].startedAt < s'.clock
      ensures After(s', s'.loads[n].key.namespace, s'.loads[n].key.version, s'.loads[n].startedAt)
    {
      var key := s'.loads[n].key;
      if n >= |s.loads| {
        var r := s.requests[step.id];
        assert RequestOk(s, r);
        NowIsAfter(s, key.namespace, key.version);
        AfterKept(s, step, key.namespace, key.version, s.clock);
      } else {
        AfterKept(s, step, key.namespace, key.version, s.loads[n].startedAt);
      }
    }
  }

  /** The only new leader is a request that found no running load, and its load is new. */
  lemma LeadersAfter(s: State, step: Step, id: int, n: nat)
    requires Leads(Do(s, step), id, n)
    ensures Leads(s, id, n) || (step == JoinOrLoad(id) && n == |s.loads|)
  {
    hide LoadedBy, LoadedUnder, Bumps;
  }

  /** The map of running loads changes when a load starts, and when its leader takes it up. */
  lemma MapChanges(s: State, step: Step)
    ensures var after := Do(s, step).inFlight;
            || after == s.inFlight
            || (&& step.JoinOrLoad? && step.id in s.requests && s.requests[step.id].phase.Missed?
                && (var slot := (s.requests[step.id].process, s.requests[step.id].phase.key);
                    slot !in s.inFlight && after == s.inFlight[slot := |s.loads|]))
            || (&& step.Resume? && step.id in s.requests && s.requests[step.id].phase.Waiting?
                && s.requests[step.id].phase.leads && s.requests[step.id].phase.load < |s.loads|
                && !s.loads[s.requests[step.id].phase.load].outcome.Pending?
                && (var slot := (s.requests[step.id].process, s.requests[step.id].phase.key);
                    after == s.inFlight - {slot} && !Do(s, step).requests[step.id].phase.Waiting?))
  {
    hide LoadedBy, LoadedUnder, Bumps;
  }

  /** A load leaves the map only when its leader resumes, after it settled. */
  lemma MapAfter(s: State, step: Step, n: nat)
    requires Inv(s) && InMap(s, n)
    ensures InMap(Do(s, step), n)
         || (step.Resume? && Leads(s, step.id, n) && !Leads(Do(s, step), step.id, n) && !s.loads[n].outcome.Pending?)
  {
    LoadsAfter(s, step);
    MapChanges(s, step);
    hide Do;
    if step.Resume? && step.id in s.requests && s.requests[step.id].phase.Waiting? {
      var r := s.requests[step.id];
      assert RequestOk(s, r);
      if r.phase.leads {
        assert Leads(s, step.id, r.phase.load);
        assert InMap(s, r.phase.load);
      }
    }
  }

  /** What is in the map was there before, or is the load that was just started. */
  lemma MapEntryAfter(s: State, step: Step, slot: (int, Key))
    requires slot in Do(s, step).inFlight
    ensures var n := Do(s, step).inFlight[slot];
        || (slot in s.inFlight && s.inFlight[slot] == n)
        || (&& n == |s.loads| && |Do(s, step).loads| == n + 1
            && (Do(s, step).loads[n].process, Do(s, step).loads[n].key) == slot)
  {
  }

  lemma NoEarlyLeader(s: State, id: int)
    requires Inv(s)
    ensures !Leads(s, id, |s.loads|)
  {
    if id in s.requests {
      assert RequestOk(s, s.requests[id]);
    }
  }

  lemma FlightsStillPoint(s: State, step: Step)
    requires Inv(s)
    ensures FlightsPoint(Do(s, step))
  {
    hide Do;
    LoadsAfter(s, step);
    var s' := Do(s, step);
    forall slot | slot in s'.inFlight
      ensures s'.inFlight[slot] < |s'.loads|
      ensures (s'.loads[s'.inFlight[slot]].process, s'.loads[s'.inFlight[slot]].key) == slot
    {
      MapEntryAfter(s, step, slot);
    }
  }

  lemma StillOneLeader(s: State, step: Step)
    requires Inv(s)
    ensures OneLeader(Do(s, step))
  {
    hide Do;
    var s' := Do(s, step);
    forall i, j, n: nat | Leads(s', i, n) && Leads(s', j, n) ensures i == j {
      LeadersAfter(s, step, i, n);
      LeadersAfter(s, step, j, n);
      NoEarlyLeader(s, i);
      NoEarlyLeader(s, j);
    }
  }

  lemma StepKeepsFlights(s: State, step: Step)
    requires Inv(s)
    ensures FlightsOk(Do(s, step))
  {
    hide Do;
    FlightsStillPoint(s, step);
    LeadersStillFly(s, step);
    PendingStillFly(s, step);
    StillOneLeader(s, step);
    FlightsStillLed(s, step);
  }

  /** A leader that stops leading takes its load out of the map. */
  lemma LeaderLeaves(s: State, step: Step, id: int, n: nat)
    requires Inv(s) && Leads(s, id, n)
    ensures Leads(Do(s, step), id, n) || !InMap(Do(s, step), n)
  {
    assert RequestOk(s, s.requests[id]);
    assert InMap(s, n);
    if Moved(step) != Some(id) {
      OthersStay(s, step, id);
    }
    hide LoadedUnder, LoadedBy, Bumps;
  }

  lemma NewLoadIsLed(s: State, step: Step)
    requires |Do(s, step).loads| > |s.loads|
    ensures step.JoinOrLoad? && Leads(Do(s, step), step.id, |s.loads|)
  {
    hide LoadedUnder, LoadedBy, Bumps;
  }

  lemma FlightsStillLed(s: State, step: Step)
    requires Inv(s)
    ensures FlightsAreLed(Do(s, step))
  {
    var s' := Do(s, step);
    FlightsStillPoint(s, step);
    hide Do;
    forall slot | slot in s'.inFlight ensures IsLed(s', s'.inFlight[slot]) {
      var n := s'.inFlight[slot];
      MapEntryAfter(s, step, slot);
      if slot in s.inFlight && s.inFlight[slot] == n {
        assert IsLed(s, n);
        var id :| Leads(s, id, n);
        LeaderLeaves(s, step, id, n);
        assert InMap(s', n);
        assert Leads(s', id, n);
      } else {
        NewLoadIsLed(s, step);
        assert Leads(s', step.id, n);
      }
    }
  }

  lemma LeadersStillFly(s: State, step: Step)
    requires Inv(s)
    ensures LeadersFly(Do(s, step))
  {
    var s' := Do(s, step);
    forall id, n: nat | Leads(s', id, n) ensures InMap(s', n) {
      LeadersAfter(s, step, id, n);
      if Leads(s, id, n) {
        assert InMap(s, n);
        MapAfter(s, step, n);
      }
    }
  }

  /** A new load is in the map from the start; an old one is pending only if it was. */
  lemma PendingBefore(s: State, step: Step, n: nat)
    requires n < |Do(s, step).loads| && Do(s, step).loads[n].outcome.Pending?
    ensures if n < |s.loads| then s.loads[n].outcome.Pending? else InMap(Do(s, step), n)
  {
    hide LoadedBy, LoadedUnder, Bumps;
  }

  lemma PendingStillFly(s: State, step: Step)
    requires Inv(s)
    ensures PendingFly(Do(s, step))
  {
    var s' := Do(s, step);
    hide Do;
    forall n | 0 <= n < |s'.loads| && s'.loads[n].outcome.Pending? ensures InMap(s', n) {
      PendingBefore(s, step, n);
      if n < |s.loads| {
        assert InMap(s, n);
        MapAfter(s, step, n);
      }
    }
  }

  lemma {:induction false} RunKeepsInv(steps: seq<Step>)
    ensures Inv(Run(steps))
  {
    if steps != [] {
      var before, step := Run(steps[..|steps| - 1]), steps[|steps| - 1];
      RunKeepsInv(steps[..|steps| - 1]);
      hide Do;
      StepKeepsClock(before, step);
      StepKeepsStore(before, step);
      StepKeepsLoads(before, step);
      StepKeepsRequests(before, step);
      StepKeepsFlights(before, step);
    }
  }

  // ---- Main results ----

  /**
   * In every schedule of requests, late writes, expiries and invalidations: the
   * answer to a request was loaded for that request's identity by a loader that
   * started after every invalidation completed before the request began.
   */
  lemma AnswersAreFresh(steps: seq<Step>, id: int)
    requires id in Run(steps).requests && Run(steps).requests[id].phase.Answered?
    ensures var s := Run(steps); var r := s.requests[id]; var value := r.phase.value;
            && value.namespace == r.namespace && value.digest == r.digest
            && forall t :: t in Bumps(s, r.namespace) && t < r.begunAt ==> t < value.startedAt
  {
    RunKeepsInv(steps);
    assert RequestOk(Run(steps), Run(steps).requests[id]);
  }

  /** No process ever runs two loaders for one key at the same time. */
  lemma OneLoaderPerKey(steps: seq<Step>, m: nat, n: nat)
    requires m < |Run(steps).loads| && n < |Run(steps).loads|
    requires Run(steps).loads[m].outcome.Pending? && Run(steps).loads[n].outcome.Pending?
    requires Run(steps).loads[m].process == Run(steps).loads[n].process
    requires Run(steps).loads[m].key == Run(steps).loads[n].key
    ensures m == n
  {
    RunKeepsInv(steps);
    assert InMap(Run(steps), m) && InMap(Run(steps), n);
  }

  /** A request of this process that started a load for the key and has not taken it up yet. */
  ghost predicate LeaderWaits(s: State, process: int, key: Key) {
    exists id :: && id in s.requests && s.requests[id].process == process
                 && s.requests[id].phase.Waiting? && s.requests[id].phase.leads && s.requests[id].phase.key == key
  }

  /** Whatever came before, also failures: what is in the map has a leader that still waits for it. */
  lemma OnlyAwaitedLoadsAreShared(steps: seq<Step>, slot: (int, Key))
    ensures slot in Run(steps).inFlight <==> LeaderWaits(Run(steps), slot.0, slot.1)
  {
    var s := Run(steps);
    RunKeepsInv(steps);
    hide Run;
    if slot in s.inFlight {
      assert IsLed(s, s.inFlight[slot]);
      var id :| Leads(s, id, s.inFlight[slot]);
      assert RequestOk(s, s.requests[id]);
    }
    if LeaderWaits(s, slot.0, slot.1) {
      var id :| && id in s.requests && s.requests[id].process == slot.0
                && s.requests[id].phase.Waiting? && s.requests[id].phase.leads && s.requests[id].phase.key == slot.1;
      assert RequestOk(s, s.requests[id]);
      assert Leads(s, id, s.requests[id].phase.load);
      assert InMap(s, s.requests[id].phase.load);
    }
  }

  /**
   * A miss starts a loader of its own exactly when no request of its process still
   * waits for a load of that key that it started; otherwise it waits for that load.
   */
  lemma MissLoadsUnlessAwaited(steps: seq<Step>, id: int)
    requires id in Run(steps).requests && Run(steps).requests[id].phase.Missed?
    ensures var s, s' := Run(steps), Run(steps + [JoinOrLoad(id)]);
            var r := s.requests[id];
            && id in s'.requests && s'.requests[id].phase.Waiting? && s'.requests[id].phase.key == r.phase.key
            && (s'.requests[id].phase.leads <==> !LeaderWaits(s, r.process, r.phase.key))
            && (if s'.requests[id].phase.leads
                then s'.loads == s.loads + [Load(r.process, r.phase.key, s.clock, Pending)]
                else s'.loads == s.loads && s'.requests[id].phase.load < |s.loads|
                     && s.loads[s'.requests[id].phase.load].process == r.process
                     && s.loads[s'.requests[id].phase.load].key == r.phase.key)
  {
    var s := Run(steps);
    assert (steps + [JoinOrLoad(id)])[..|steps|] == steps;
    OnlyAwaitedLoadsAreShared(steps, (s.requests[id].process, s.requests[id].phase.key));
    RunKeepsInv(steps);
    hide LeaderWaits;
  }

  // ---- The service ----

  datatype CacheStatus = Hit | Miss | Bypass

  /**
   * The processes running the service and the Redis they share. Each method is
   * what happens between two points where a request waits; `history` is the
   * schedule so far, and the fields are what the schedule led to.
   */
  class CacheCluster {
    var clock: nat
    var bumps: map<string, seq<nat>>
    var store: map<Key, Loaded>
    var inFlight: map<(int, Key), nat>
    var loads: seq<Load>
    var requests: map<int, Request>
    ghost var history: seq<Step>

    ghost function Snapshot(): State
      reads this
    {
      State(clock, bumps, store, inFlight, loads, requests)
    }

    ghost predicate Valid()
      reads this
    {
      Snapshot() == Run(history)
    }

    constructor ()
      ensures Valid() && history == []
    {
      clock, bumps, store, inFlight, loads, requests := 0, map[], map[], map[], [], map[];
      history := [];
    }

    ghost method Record(step: Step)
      modifies this`history
      ensures history == old(history) + [step]
      ensures Run(history) == Do(Run(old(history)), step)
    {
      history := history + [step];
      assert history[..|history| - 1] == old(history);
    }

    method Begin(id: int, process: int, namespace: string, digest: string)
      requires Valid()
      modifies this
      ensures Valid() && history == old(history) + [Step.Begin(id, process, namespace, digest)]
      ensures Snapshot() == Do(old(Snapshot()), Step.Begin(id, process, namespace, digest))
      ensures requests == if id in old(requests) then old(requests)
                          else old(requests)[id := Request(process, namespace, digest, old(clock), Begun)]
      ensures bumps == old(bumps) && store == old(store) && inFlight == old(inFlight) && loads == old(loads)
      ensures clock == old(clock) + 1
    {
      Record(Step.Begin(id, process, namespace, digest));
      if id !in requests {
        requests := requests[id := Request(process, namespace, digest, clock, Begun)];
      }
      clock := clock + 1;
    }

    /** The version is read; a missing counter reads as 0. */
    method ReadVersion(id: int)
      requires Valid()
      modifies this
      ensures Valid() && history == old(history) + [Step.ReadVersion(id)]
      ensures Snapshot() == Do(old(Snapshot()), Step.ReadVersion(id))
      ensures id in old(requests) && old(requests)[id].phase.Begun? ==>
                var r := old(requests)[id];
                var version := if r.namespace in bumps then |bumps[r.namespace]| else 0;
                requests == old(requests)[id := r.(phase := HasVersion(version))]
      ensures bumps == old(bumps) && store == old(store) && inFlight == old(inFlight) && loads == old(loads)
      ensures clock == old(clock) + 1
    {
      Record(Step.ReadVersion(id));
      if id in requests && requests[id].phase.Begun? {
        var version := 0;
        if requests[id].namespace in bumps {
          version := |bumps[requests[id].namespace]|;
        }
        requests := requests[id := requests[id].(phase := HasVersion(version))];
      }
      clock := clock + 1;
    }

    method ReadValue(id: int)
      requires Valid()
      modifies this
      ensures Valid() && history == old(history) + [Step.ReadValue(id)]
      ensures Snapshot() == Do(old(Snapshot()), Step.ReadValue(id))
      ensures id in old(requests) && old(requests)[id].phase.HasVersion? ==>
                var r := old(requests)[id];
                var key := Key(r.namespace, r.phase.version, r.digest);
                requests == old(requests)[id := r.(phase := if key in store then Answered(store[key]) else Missed(key))]
      ensures bumps == old(bumps) && store == old(store) && inFlight == old(inFlight) && loads == old(loads)
      ensures clock == old(clock) + 1
    {
      Record(Step.ReadValue(id));
      if id in requests && requests[id].phase.HasVersion? {
        var r := requests[id];
        var key := Key(r.namespace, r.phase.version, r.digest);
        if key in store {
          requests := requests[id := r.(phase := Answered(store[key]))];
        } else {
          requests := requests[id := r.(phase := Missed(key))];
        }
      }
      clock := clock + 1;
    }

    /** Joins the load already running in this process for the key, or starts one. */
    method JoinOrLoad(id: int)
      requires Valid()
      modifies this
      ensures Valid() && history == old(history) + [Step.JoinOrLoad(id)]
      ensures Snapshot() == Do(old(Snapshot()), Step.JoinOrLoad(id))
    {
      Record(Step.JoinOrLoad(id));
      if id in requests && requests[id].phase.Missed? {
        var r := requests[id];
        var key := r.phase.key;
        if (r.process, key) in inFlight {
          requests := requests[id := r.(phase := Waiting(key, inFlight[(r.process, key)], false))];
        } else {
          inFlight := inFlight[(r.process, key) := |loads|];
          requests := requests[id := r.(phase := Waiting(key, |loads|, true))];
          loads := loads + [Load(r.process, key, clock, Pending)];
        }
      }
      clock := clock + 1;
    }

    /** Whether the load that the request waits for has settled. */
    predicate CanResume(id: int)
      reads this
    {
      && id in requests && requests[id].phase.Waiting? && requests[id].phase.load < |loads|
      && loads[requests[id].phase.load].outcome != Pending
    }

    method LoaderSettles(load: nat, outcome: Outcome)
      requires Valid()
      modifies this
      ensures Valid() && history == old(history) + [Step.LoaderSettles(load, outcome)]
      ensures Snapshot() == Do(old(Snapshot()), Step.LoaderSettles(load, outcome))
      ensures loads == if load < |old(loads)| && old(loads)[load].outcome.Pending?
                       then old(loads)[load := old(loads)[load].(outcome := outcome)] else old(loads)
    {
      Record(Step.LoaderSettles(load, outcome));
      if load < |loads| && loads[load].outcome.Pending? {
        loads := loads[load := loads[load].(outcome := outcome)];
      }
      clock := clock + 1;
    }

    /** A waiting request takes up the settled load; the one that started it clears the map first. */
    method Resume(id: int)
      requires Valid()
      modifies this
      ensures Valid() && history == old(history) + [Step.Resume(id)]
      ensures Snapshot() == Do(old(Snapshot()), Step.Resume(id))
      ensures if old(CanResume(id))
              then var r := old(requests[id]); var load := old(loads[requests[id].phase.load]);
                   && inFlight == (if r.phase.leads then old(inFlight) - {(r.process, r.phase.key)} else old(inFlight))
                   && requests == old(requests)[id := r.(phase :=
                        if load.outcome.Rejected? then Failed
                        else Writing(r.phase.key, Loaded(load.key.namespace, load.key.digest, load.startedAt,
                                                         load.outcome.payload)))]
              else requests == old(requests) && inFlight == old(inFlight)
    {
      Record(Step.Resume(id));
      if id in requests && requests[id].phase.Waiting? && requests[id].phase.load < |loads| {
        var r := requests[id];
        var load := loads[r.phase.load];
        if !load.outcome.Pending? {
          if r.phase.leads {
            inFlight := inFlight - {(r.process, r.phase.key)};
          }
          if load.outcome.Fulfilled? {
            var value := LoadedUnder(load, load.outcome.payload);
            requests := requests[id := r.(phase := Writing(r.phase.key, value))];
          } else {
            requests := requests[id := r.(phase := Failed)];
          }
        }
      }
      clock := clock + 1;
    }

    method WriteBack(id: int, succeeds: bool)
      requires Valid()
      modifies this
      ensures Valid() && history == old(history) + [Step.WriteBack(id, succeeds)]
      ensures Snapshot() == Do(old(Snapshot()), Step.WriteBack(id, succeeds))
      ensures id in old(requests) && old(requests)[id].phase.Writing? ==>
                var w := old(requests)[id].phase;
                && requests == old(requests)[id := old(requests)[id].(phase := Answered(w.value))]
                && store == if succeeds then old(store)[w.key := w.value] else old(store)
    {
      Record(Step.WriteBack(id, succeeds));
      if id in requests && requests[id].phase.Writing? {
        var w := requests[id].phase;
        if succeeds {
          store := store[w.key := w.value];
        }
        requests := requests[id := requests[id].(phase := Answered(w.value))];
      }
      clock := clock + 1;
    }

    method Invalidate(namespace: string)
      requires Valid()
      modifies this
      ensures Valid() && history == old(history) + [Step.Invalidate(namespace)]
      ensures Snapshot() == Do(old(Snapshot()), Step.Invalidate(namespace))
      ensures namespace in bumps && |bumps[namespace]| ==
                (if namespace in old(bumps) then |old(bumps)[namespace]| else 0) + 1
      ensures forall other :: other != namespace ==>
                (other in bumps <==> other in old(bumps)) && (other in bumps ==> bumps[other] == old(bumps)[other])
      ensures store == old(store) && inFlight == old(inFlight) && requests == old(requests)
    {
      Record(Step.Invalidate(namespace));
      var times := [];
      if namespace in bumps {
        times := bumps[namespace];
      }
      bumps := bumps[namespace := times + [clock]];
      clock := clock + 1;
    }

    /** Redis failed the look-up: the loader runs for this request alone, and nothing is shared or stored. */
    method LookupFails(id: int)
      requires Valid()
      modifies this
      ensures Valid() && history == old(history) + [Step.LookupFails(id)]
      ensures Snapshot() == Do(old(Snapshot()), Step.LookupFails(id))
      ensures id in old(requests) && (old(requests)[id].phase.Begun? || old(requests)[id].phase.HasVersion?) ==>
                requests == old(requests)[id := old(requests)[id].(phase := Bypassing(old(clock)))]
      ensures store == old(store) && inFlight == old(inFlight) && loads == old(loads)
    {
      Record(Step.LookupFails(id));
      if id in requests && (requests[id].phase.Begun? || requests[id].phase.HasVersion?) {
        requests := requests[id := requests[id].(phase := Bypassing(clock))];
      }
      clock := clock + 1;
    }

    method BypassSettles(id: int, outcome: Outcome)
      requires Valid()
      modifies this
      ensures Valid() && history == old(history) + [Step.BypassSettles(id, outcome)]
      ensures Snapshot() == Do(old(Snapshot()), Step.BypassSettles(id, outcome))
      ensures id in old(requests) && old(requests)[id].phase.Bypassing? && outcome != Pending ==>
                var r := old(requests)[id];
                requests == old(requests)[id := r.(phase :=
                  if outcome.Rejected? then Failed
                  else Answered(Loaded(r.namespace, r.digest, r.phase.startedAt, outcome.payload)))]
      ensures store == old(store) && inFlight == old(inFlight) && loads == old(loads)
    {
      Record(Step.BypassSettles(id, outcome));
      if id in requests && requests[id].phase.Bypassing? {
        var r := requests[id];
        match outcome {
          case Pending =>
          case Fulfilled(payload) =>
            requests := requests[id := r.(phase := Answered(LoadedBy(r, r.phase.startedAt, payload)))];
          case Rejected =>
            requests := requests[id := r.(phase := Failed)];
        }
      }
      clock := clock + 1;
    }

    /** A stored value runs out, or is evicted. */
    method Expire(key: Key)
      requires Valid()
      modifies this
      ensures Valid() && history == old(history) + [Step.Expire(key)]
      ensures Snapshot() == Do(old(Snapshot()), Step.Expire(key))
      ensures key !in store
      ensures forall other :: other != key && other in old(store) ==>
                other in store && store[other] == old(store)[other]
    {
      Record(Step.Expire(key));
      store := store - {key};
      clock := clock + 1;
    }

    /** The first half of a call: the version, then the stored value if there is one. */
    method LookUp(id: int, process: int, namespace: string, digest: string)
      requires Valid() && id !in requests
      modifies this
      ensures Valid() && old(history) <= history
      ensures var key := Key(namespace, |old(Bumps(Snapshot(), namespace))|, digest);
              requests == old(requests)[id := Request(process, namespace, digest, old(clock),
                                              if key in store then Answered(store[key]) else Missed(key))]
      ensures bumps == old(bumps) && store == old(store) && inFlight == old(inFlight) && loads == old(loads)
      ensures clock >= old(clock)
    {
      hide Do, Effect, Run;
      Begin(id, process, namespace, digest);
      ReadVersion(id);
      ReadValue(id);
    }

    /** The second half of a call that missed, with a loader that succeeds. */
    method LoadAndStore(id: int, payload: int)
      requires Valid() && id in requests && requests[id].phase.Missed?
      requires (requests[id].process, requests[id].phase.key) !in inFlight
      modifies this
      ensures Valid() && old(history) <= history
      ensures var r := old(requests[id]);
              var value := Loaded(r.phase.key.namespace, r.phase.key.digest, old(clock), payload);
              && store == old(store)[r.phase.key := value]
              && requests == old(requests)[id := r.(phase := Answered(value))]
      ensures bumps == old(bumps) && inFlight == old(inFlight) && |loads| == old(|loads|) + 1
    {
      ghost var s := Snapshot();
      LoadedAlone(s, id, payload);
      hide Do, Run;
      JoinOrLoad(id);
      LoaderSettles(|loads| - 1, Fulfilled(payload));
      label loaded:
      Resume(id);
      WriteBack(id, true);
      StoredAlone(old@loaded(Snapshot()), id);
    }

    /**
     * One whole call that nothing interrupts, with a loader that succeeds: a hit
     * returns what is stored and loads nothing; a miss loads once, stores the
     * value under the current version and leaves no load running.
     */
    method GetOrLoadWithStatus(id: int, process: int, namespace: string, digest: string, payload: int)
      returns (value: Loaded, status: CacheStatus)
      requires Valid() && id !in requests
      requires (process, Key(namespace, |Bumps(Snapshot(), namespace)|, digest)) !in inFlight
      modifies this
      ensures Valid() && old(history) <= history
      ensures status == Hit <==> Key(namespace, |old(Bumps(Snapshot(), namespace))|, digest) in old(store)
      ensures status == Hit ==> store == old(store) && loads == old(loads)
      ensures status != Hit ==> status == Miss && |loads| == old(|loads|) + 1
      ensures status != Hit ==> value.payload == payload && value.startedAt >= old(clock)
      ensures store == old(store)[Key(namespace, |old(Bumps(Snapshot(), namespace))|, digest) := value]
      ensures bumps == old(bumps) && inFlight == old(inFlight)
    {
      LookUp(id, process, namespace, digest);
      if requests[id].phase.Answered? {
        return requests[id].phase.value, Hit;
      }
      LoadAndStore(id, payload);
      return requests[id].phase.value, Miss;
    }
  }

  lemma LoadedAlone(s: State, id: int, payload: int)
    requires id in s.requests && s.requests[id].phase.Missed?
    requires (s.requests[id].process, s.requests[id].phase.key) !in s.inFlight
    ensures |Do(s, JoinOrLoad(id)).loads| == |s.loads| + 1
    ensures Do(Do(s, JoinOrLoad(id)), LoaderSettles(|s.loads|, Fulfilled(payload))) ==
            var r := s.requests[id];
            s.(clock := s.clock + 2,
               inFlight := s.inFlight[(r.process, r.phase.key) := |s.loads|],
               loads := s.loads + [Load(r.process, r.phase.key, s.clock, Fulfilled(payload))],
               requests := s.requests[id := r.(phase := Waiting(r.phase.key, |s.loads|, true))])
  {
  }

  lemma StoredAlone(s: State, id: int)
    requires id in s.requests && s.requests[id].phase.Waiting? && s.requests[id].phase.leads
    requires s.requests[id].phase.load < |s.loads| && s.loads[s.requests[id].phase.load].outcome.Fulfilled?
    ensures Do(Do(s, Resume(id)), WriteBack(id, true)) ==
            var r := s.requests[id];
            var load := s.loads[r.phase.load];
            var value := LoadedUnder(load, load.outcome.payload);
            s.(clock := s.clock + 2,
               inFlight := s.inFlight - {(r.process, r.phase.key)},
               store := s.store[r.phase.key := value],
               requests := s.requests[id := r.(phase := Answered(value))])
  {
  }
}
