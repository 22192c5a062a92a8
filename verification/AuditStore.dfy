/** The audit ring: a bounded deque in front of a log that only exists in the specification. */
module AuditStore {
  import opened Common
  import opened Ids
  import opened Lifecycle
  import opened AuditEvent

  const DEFAULT_MAX_EVENTS: nat := 100
  const HARD_MAX_EVENTS: nat := 1000

  function ClampCapacity(requested: nat): (c: nat)
    ensures 1 <= requested <= 1000 ==> c == requested
    ensures requested == 0 ==> c == 100
    ensures requested > 1000 ==> c == 1000
  {
    if requested == 0 then DEFAULT_MAX_EVENTS
    else if requested > HARD_MAX_EVENTS then HARD_MAX_EVENTS
    else requested
  }

  datatype StoredEvent = StoredEvent(auditId: string, kind: AuditKind, fields: AuditFields)

  function Min(a: nat, b: nat): nat {
    if a < b then a else b
  }

  /** The last `n` elements, or all of them. */
  function Newest<T>(s: seq<T>, n: nat): (r: seq<T>)
    ensures |r| == Min(n, |s|)
  {
    s[|s| - Min(n, |s|)..]
  }

  /** The newest of the newest are the newest. */
  lemma NewestNewest<T>(s: seq<T>, m: nat, n: nat)
    ensures Newest(Newest(s, m), n) == Newest(s, Min(m, n))
  {
  }

  lemma NewestSnoc<T>(s: seq<T>, x: T, n: nat)
    requires n >= 1
    ensures Newest(s + [x], n) == Newest(s, n - 1) + [x]
  {
  }

  /** `limit` as the store understands it: no limit means everything. */
  function Bounded(limit: Option<nat>, length: nat): nat {
    match limit
    case None => length
    case Some(n) => Min(n, length)
  }

  /** Numbered without gaps from one, and sanitised for good. */
  predicate InOrder(log: seq<StoredEvent>) {
    forall k :: 0 <= k < |log| ==>
      log[k].auditId == CounterId("aud_", k + 1) && Sanitized(log[k].fields) == log[k].fields
  }

  lemma EmptyInOrder()
    ensures InOrder([])
  {
  }

  lemma InOrderSnoc(log: seq<StoredEvent>, kind: AuditKind, fields: AuditFields)
    requires InOrder(log)
    ensures InOrder(log + [StoredEvent(CounterId("aud_", |log| + 1), kind, Sanitized(fields))])
  {
    hide Sanitized, CounterId;
    SanitizedFixed(fields);
  }

  class AuditStore {
    const capacity: nat
    var events: seq<StoredEvent>
    var counter: nat
    ghost var log: seq<StoredEvent>

    /** The ring is the newest part of the log. */
    ghost predicate Valid()
      reads this
    {
      && 1 <= capacity <= HARD_MAX_EVENTS
      && events == Newest(log, capacity)
      && counter == |log|
      && InOrder(log)
    }

    constructor (requested: nat)
      ensures Valid() && log == [] && capacity == ClampCapacity(requested)
    {
      capacity := ClampCapacity(requested);
      events, counter, log := [], 0, [];
      new;
      StartsValid();
    }

    lemma StartsValid()
      requires events == [] && counter == 0 && log == [] && 1 <= capacity <= HARD_MAX_EVENTS
      ensures Valid()
    {
      hide InOrder;
      EmptyInOrder();
    }

    /** Number, sanitise, make room, append. */
    method Record(kind: AuditKind, fields: AuditFields) returns (event: StoredEvent)
      requires Valid()
      modifies this
      ensures Valid() && log == old(log) + [event]
      ensures event == StoredEvent(CounterId("aud_", old(|log|) + 1), kind, Sanitized(fields))
      ensures Keeps(fields, event.fields)
      ensures events != [] && events[|events| - 1] == event
    {
      hide InOrder, Sanitized, CounterId, Keeps, Newest;
      SanitizedKeeps(fields);
      event := BuildEvent(kind, fields);
      InOrderSnoc(log, kind, fields);
      MakeRoom();
      NewestNewest(log, capacity, capacity - 1);
      NewestSnoc(log, event, capacity);
      events := events + [event];
      log := log + [event];
    }

    /** Evict from the front until one more event fits. */
    method MakeRoom()
      requires capacity >= 1
      modifies this`events
      ensures events == Newest(old(events), capacity - 1)
    {
      while |events| >= capacity
        invariant |events| <= old(|events|) && events == old(events)[old(|events|) - |events|..]
        invariant |events| >= Min(capacity - 1, old(|events|))
      {
        events := events[1..];
      }
    }

    method BuildEvent(kind: AuditKind, fields: AuditFields) returns (event: StoredEvent)
      modifies this`counter
      ensures counter == old(counter) + 1
      ensures event == StoredEvent(CounterId("aud_", counter), kind, Sanitized(fields))
    {
      counter := counter + 1;
      event := StoredEvent(CounterId("aud_", counter), kind, Sanitized(fields));
    }

    /** The newest events, newest last. */
    method ListRecent(limit: Option<nat>) returns (recent: seq<StoredEvent>)
      requires Valid()
      ensures recent == Newest(log, Bounded(limit, Min(capacity, |log|)))
      ensures |recent| <= |events| && recent == events[|events| - |recent|..]
      ensures |recent| == if limit.None? || limit.value > |events| then |events| else limit.value
    {
      hide InOrder;
      var total := |events|;
      var take := match limit case None => total case Some(n) => Min(n, total);
      var start := total - take;
      recent := events[start..];
      NewestNewest(log, capacity, take);
    }
  }

  /** The IPC handler's clamp on `limit` never changes the answer. */
  method HandleAuditRecent(store: AuditStore, limit: Option<nat>) returns (recent: seq<StoredEvent>)
    requires store.Valid()
    ensures recent == Newest(store.log, Bounded(limit, Min(store.capacity, |store.log|)))
    ensures |recent| == if limit.None? || limit.value > |store.events| then |store.events| else limit.value
  {
    var bounded := match limit case None => None case Some(n) => Some(Min(n, HARD_MAX_EVENTS));
    recent := store.ListRecent(bounded);
  }

  /** Ids in the log are distinct, hence so are those in the ring. */
  lemma IdsDistinct(log: seq<StoredEvent>, j: nat, k: nat)
    requires InOrder(log) && j < |log| && k < |log| && log[j].auditId == log[k].auditId
    ensures j == k
  {
    CounterIdInjective("aud_", j + 1, k + 1);
  }

  // ----- overlapping records ----------------------------------------------------------------

  /** `record` draws its number before it takes the lock, so two threads can append in the other
      order.  A thread holds the number it has drawn until it appends. */
  datatype Race = Race(counter: nat, held: map<nat, nat>, ring: seq<nat>, log: seq<nat>)

  datatype RaceStep = Draw(thread: nat) | Append(thread: nat)

  predicate RaceEnabled(s: Race, step: RaceStep) {
    match step
    case Draw(t) => t !in s.held
    case Append(t) => t in s.held
  }

  function RaceApply(s: Race, capacity: nat, step: RaceStep): Race
    requires RaceEnabled(s, step) && capacity >= 1
  {
    match step
    case Draw(t) => s.(counter := s.counter + 1, held := s.held[t := s.counter + 1])
    case Append(t) =>
      s.(held := s.held - {t}, log := s.log + [s.held[t]], ring := Newest(s.ring, capacity - 1) + [s.held[t]])
  }

  ghost predicate RaceRuns(s: Race, capacity: nat, steps: seq<RaceStep>, s': Race)
    requires capacity >= 1
    decreases |steps|
  {
    if steps == [] then s' == s
    else RaceEnabled(s, steps[0]) && RaceRuns(RaceApply(s, capacity, steps[0]), capacity, steps[1..], s')
  }

  const NOTHING_RECORDED := Race(0, map[], [], [])

  predicate SamePlace(log: seq<nat>, j: nat, k: nat) {
    j < |log| && k < |log| && log[j] == log[k]
  }

  /** Every number is held by one thread or logged once. */
  ghost predicate RaceInv(s: Race, capacity: nat) {
    && s.ring == Newest(s.log, capacity)
    && (forall k :: 0 <= k < |s.log| ==> 1 <= s.log[k] <= s.counter)
    && (forall j: nat, k: nat :: SamePlace(s.log, j, k) ==> j == k)
    && (forall t :: t in s.held ==> 1 <= s.held[t] <= s.counter && s.held[t] !in s.log)
    && (forall t, u :: t in s.held && u in s.held && s.held[t] == s.held[u] ==> t == u)
  }

  lemma RaceStepKeeps(s: Race, capacity: nat, step: RaceStep)
    requires capacity >= 1 && RaceInv(s, capacity) && RaceEnabled(s, step)
    ensures RaceInv(RaceApply(s, capacity, step), capacity)
  {
    hide Newest;
    var s' := RaceApply(s, capacity, step);
    if step.Append? {
      var x := s.held[step.thread];
      NewestNewest(s.log, capacity, capacity - 1);
      NewestSnoc(s.log, x, capacity);
      forall j: nat, k: nat | SamePlace(s'.log, j, k) ensures j == k {
        if j < |s.log| && k < |s.log| { assert SamePlace(s.log, j, k); }
      }
    }
  }

  lemma {:induction false} RaceRunKeeps(s: Race, capacity: nat, steps: seq<RaceStep>, s': Race)
    requires capacity >= 1 && RaceInv(s, capacity) && RaceRuns(s, capacity, steps, s')
    ensures RaceInv(s', capacity)
    decreases |steps|
  {
    if steps != [] {
      RaceStepKeeps(s, capacity, steps[0]);
      RaceRunKeeps(RaceApply(s, capacity, steps[0]), capacity, steps[1..], s');
    }
  }

  lemma NothingRecorded(capacity: nat)
    requires capacity >= 1
    ensures RaceInv(NOTHING_RECORDED, capacity)
  {
    hide Newest;
    NothingNewest(capacity);
  }

  lemma NothingNewest(n: nat)
    ensures Newest<nat>([], n) == []
  {
  }

  predicate Distinct(log: seq<nat>) {
    forall j, k :: 0 <= j < k < |log| ==> log[j] != log[k]
  }

  /** Whatever the interleaving, the ring is the newest part of the log and no number is stored
      twice, nor one that was never drawn. */
  lemma RacingIdsDistinct(capacity: nat, steps: seq<RaceStep>, s: Race)
    requires capacity >= 1 && RaceRuns(NOTHING_RECORDED, capacity, steps, s)
    ensures s.ring == Newest(s.log, capacity) && Distinct(s.log) && Distinct(s.ring)
    ensures forall k :: 0 <= k < |s.log| ==> 1 <= s.log[k] <= s.counter
  {
    hide Newest, RaceRuns;
    NothingRecorded(capacity);
    RaceRunKeeps(NOTHING_RECORDED, capacity, steps, s);
    forall j, k | 0 <= j < k < |s.log| ensures s.log[j] != s.log[k] {
      assert s.log[j] == s.log[k] ==> SamePlace(s.log, j, k);
    }
    NewestDistinct(s.log, capacity);
  }

  lemma NewestDistinct(log: seq<nat>, n: nat)
    requires Distinct(log)
    ensures Distinct(Newest(log, n))
  {
  }

  predicate Ascending(log: seq<nat>) {
    forall j, k :: 0 <= j < k < |log| ==> log[j] < log[k]
  }

  /** This thread appends while another one still holds a smaller number. */
  ghost predicate Overtakes(s: Race, step: RaceStep) {
    step.Append? && step.thread in s.held && exists u :: u in s.held && s.held[u] < s.held[step.thread]
  }

  /** No append of this run overtakes. */
  ghost predicate InTurn(s: Race, capacity: nat, steps: seq<RaceStep>)
    requires capacity >= 1
    decreases |steps|
  {
    steps == []
    || (RaceEnabled(s, steps[0]) && !Overtakes(s, steps[0])
        && InTurn(RaceApply(s, capacity, steps[0]), capacity, steps[1..]))
  }

  /** The log ascends, and everything that is held belongs behind it. */
  ghost predicate Sorted(s: Race) {
    Ascending(s.log) && forall t, k :: t in s.held && 0 <= k < |s.log| ==> s.log[k] < s.held[t]
  }

  lemma StepSorted(s: Race, capacity: nat, step: RaceStep)
    requires capacity >= 1 && RaceInv(s, capacity) && RaceEnabled(s, step) && Sorted(s) && !Overtakes(s, step)
    ensures Sorted(RaceApply(s, capacity, step))
  {
    hide Newest;
    var s' := RaceApply(s, capacity, step);
    if step.Append? {
      forall u | u in s'.held ensures s.held[step.thread] < s'.held[u] {
        assert s.held[u] != s.held[step.thread];
      }
    }
  }

  lemma {:induction false} InTurnSorted(s: Race, capacity: nat, steps: seq<RaceStep>, s': Race)
    requires capacity >= 1 && RaceInv(s, capacity) && RaceRuns(s, capacity, steps, s')
    requires Sorted(s) && InTurn(s, capacity, steps)
    ensures Sorted(s')
    decreases |steps|
  {
    hide Sorted, RaceInv, Overtakes;
    if steps != [] {
      StepSorted(s, capacity, steps[0]);
      RaceStepKeeps(s, capacity, steps[0]);
      InTurnSorted(RaceApply(s, capacity, steps[0]), capacity, steps[1..], s');
    }
  }

  /** A number in the log has a smaller one still to come, or already behind it. */
  ghost predicate Inverted(s: Race) {
    exists j :: 0 <= j < |s.log| && Passed(s, j)
  }

  ghost predicate Passed(s: Race, j: nat)
    requires j < |s.log|
  {
    || (exists t :: t in s.held && s.held[t] < s.log[j])
    || (exists k :: j < k < |s.log| && s.log[k] < s.log[j])
  }

  lemma PassedStays(s: Race, capacity: nat, step: RaceStep, j: nat)
    requires capacity >= 1 && RaceEnabled(s, step) && j < |s.log| && Passed(s, j)
    ensures Passed(RaceApply(s, capacity, step), j)
  {
    hide Newest;
    var s' := RaceApply(s, capacity, step);
    if k :| j < k < |s.log| && s.log[k] < s.log[j] {
      assert s'.log[k] == s.log[k];
    } else {
      var t :| t in s.held && s.held[t] < s.log[j];
      if step == Append(t) {
        assert s'.log[|s.log|] == s.held[t];
      } else {
        assert t in s'.held && s'.held[t] == s.held[t];
      }
    }
  }

  lemma OvertakingInverts(s: Race, capacity: nat, step: RaceStep)
    requires capacity >= 1 && RaceEnabled(s, step) && Overtakes(s, step)
    ensures Inverted(RaceApply(s, capacity, step))
  {
    hide Newest;
    var s' := RaceApply(s, capacity, step);
    var u :| u in s.held && s.held[u] < s.held[step.thread];
    assert s'.log[|s.log|] == s.held[step.thread] && u in s'.held;
    assert Passed(s', |s.log|);
  }

  lemma {:induction false} InvertedStays(s: Race, capacity: nat, steps: seq<RaceStep>, s': Race)
    requires capacity >= 1 && RaceRuns(s, capacity, steps, s')
    requires Inverted(s) || !InTurn(s, capacity, steps)
    ensures Inverted(s')
    decreases |steps|
  {
    hide Inverted, Overtakes, RaceApply;
    if steps != [] {
      if Inverted(s) {
        InvertedStep(s, capacity, steps[0]);
      } else if Overtakes(s, steps[0]) {
        OvertakingInverts(s, capacity, steps[0]);
      }
      InvertedStays(RaceApply(s, capacity, steps[0]), capacity, steps[1..], s');
    }
  }

  lemma InvertedStep(s: Race, capacity: nat, step: RaceStep)
    requires capacity >= 1 && RaceEnabled(s, step) && Inverted(s)
    ensures Inverted(RaceApply(s, capacity, step))
  {
    hide Newest, Passed;
    var j :| 0 <= j < |s.log| && Passed(s, j);
    PassedStays(s, capacity, step, j);
  }

  /** Once every thread has appended, ids ascend exactly if no append overtook. */
  lemma AscendsExactly(capacity: nat, steps: seq<RaceStep>, s: Race)
    requires capacity >= 1 && RaceRuns(NOTHING_RECORDED, capacity, steps, s) && s.held == map[]
    ensures Ascending(s.log) <==> InTurn(NOTHING_RECORDED, capacity, steps)
  {
    hide RaceRuns, InTurn;
    NothingRecorded(capacity);
    if InTurn(NOTHING_RECORDED, capacity, steps) {
      InTurnSorted(NOTHING_RECORDED, capacity, steps, s);
    } else {
      InvertedStays(NOTHING_RECORDED, capacity, steps, s);
    }
  }

  /** Every number is appended before the next one is drawn; the last may still be held. */
  predicate OneByOne(steps: seq<RaceStep>) {
    forall k :: 0 <= k < |steps| - 1 && steps[k].Draw? ==> steps[k + 1] == Append(steps[k].thread)
  }

  /** At most one thread holds a number, and if one does, its append is next. */
  ghost predicate Alone(s: Race, steps: seq<RaceStep>) {
    s.held == map[] || exists t :: t in s.held && s.held.Keys == {t} && (steps == [] || steps[0] == Append(t))
  }

  lemma {:induction false} AloneInTurn(s: Race, capacity: nat, steps: seq<RaceStep>, s': Race)
    requires capacity >= 1 && RaceRuns(s, capacity, steps, s') && OneByOne(steps) && Alone(s, steps)
    ensures InTurn(s, capacity, steps)
    decreases |steps|
  {
    hide Newest;
    if steps != [] {
      var rest := steps[1..];
      assert OneByOne(rest) by {
        forall k | 0 <= k < |rest| - 1 && rest[k].Draw? ensures rest[k + 1] == Append(rest[k].thread) {
          assert rest[k] == steps[k + 1] && rest[k + 1] == steps[k + 2];
        }
      }
      AloneStays(s, capacity, steps);
      AloneInTurn(RaceApply(s, capacity, steps[0]), capacity, rest, s');
    }
  }

  lemma AloneStays(s: Race, capacity: nat, steps: seq<RaceStep>)
    requires capacity >= 1 && steps != [] && RaceEnabled(s, steps[0]) && OneByOne(steps) && Alone(s, steps)
    ensures !Overtakes(s, steps[0]) && Alone(RaceApply(s, capacity, steps[0]), steps[1..])
  {
    hide Newest;
    var step, s' := steps[0], RaceApply(s, capacity, steps[0]);
    if step.Draw? {
      assert s'.held.Keys == {step.thread};
      if |steps| > 1 { assert steps[1] == Append(step.thread); }
    } else {
      assert s.held.Keys == {step.thread};
      assert s'.held == map[];
    }
  }

  /** While records do not overlap, ids ascend, in the log and in the ring. */
  lemma NoOverlapAscends(capacity: nat, steps: seq<RaceStep>, s: Race)
    requires capacity >= 1 && RaceRuns(NOTHING_RECORDED, capacity, steps, s) && OneByOne(steps)
    ensures Ascending(s.log) && Ascending(s.ring)
  {
    hide RaceRuns, InTurn, OneByOne;
    NothingRecorded(capacity);
    AloneInTurn(NOTHING_RECORDED, capacity, steps, s);
    InTurnSorted(NOTHING_RECORDED, capacity, steps, s);
    RacingIdsDistinct(capacity, steps, s);
  }

  /** With overlap they need not: two threads draw, the second appends first. */
  lemma OverlapCanSwap(capacity: nat)
    requires capacity >= 2
    ensures RaceRuns(NOTHING_RECORDED, capacity, [Draw(0), Draw(1), Append(1), Append(0)], Race(2, map[], [2, 1], [2, 1]))
  {
    var s0 := NOTHING_RECORDED;
    var s1 := RaceApply(s0, capacity, Draw(0));
    var s2 := RaceApply(s1, capacity, Draw(1));
    assert s2.held == map[0 := 1, 1 := 2];
    var s3 := RaceApply(s2, capacity, Append(1));
    assert s3.held == map[0 := 1] && s3.ring == [2] && s3.log == [2];
    var s4 := RaceApply(s3, capacity, Append(0));
    assert s4 == Race(2, map[], [2, 1], [2, 1]);
    var steps := [Draw(0), Draw(1), Append(1), Append(0)];
    assert steps[1..] == [Draw(1), Append(1), Append(0)];
    assert steps[1..][1..] == [Append(1), Append(0)];
    assert steps[1..][1..][1..] == [Append(0)];
    assert steps[1..][1..][1..][1..] == [];
    assert RaceRuns(s4, capacity, [], s4);
    assert RaceRuns(s3, capacity, [Append(0)], s4);
    assert RaceRuns(s2, capacity, [Append(1), Append(0)], s4);
    assert RaceRuns(s1, capacity, [Draw(1), Append(1), Append(0)], s4);
  }
}
