/**
 The single-flight cache: `wrap`, `getCache` and `setCache` share a map from keys to in-flight promises,
 read and written between awaits, in front of Redis.

 A call is a process that stops at every await. One event lets Redis serve one command, settles one
 promise, or resumes one call up to its next await; a run is any sequence of such events, so it is any
 interleaving. The class `CacheClient` carries out the segments that touch the shared maps.
 */
module SingleFlight {
  import opened Options

  type Key = int

  /** What `fn` produces: `null`, another falsy value, or a truthy value. */
  datatype Value = Null | Falsy(code: int) | Truthy(id: int)

  datatype Outcome = Returned(value: Value) | Threw(error: int)

  /** Names a call, and the promise of the `fn` that call started. */
  type Id = int

  datatype Kind = Wrap | SetFunction | SetPlain

  datatype Phase =
    | AwaitGet                          // the GET is on its way
    | GotReply(reply: Option<Value>)    // Redis answered, `getCache` has not resumed
    | AwaitInFlight(promise: Id)        // `getCache` returned the promise of another call
    | Resolved(value: Value)            // `getCache` is done, `wrap` has not resumed
    | Leading                           // awaiting the own `fn`
    | AwaitShared(promise: Id)          // `wrap` returned the promise of another call
    | Saving(value: Value)              // the SET is on its way
    | Done(outcome: Outcome)

  datatype Call = Call(kind: Kind, key: Key, ttl: bool, phase: Phase)

  /**
   `cache` is Redis; `calling` is `callingMaps`; a promise without outcome is pending, its `fn` still runs.
   The last three fields only record: how the `fn` calls of each key ended and which errors its calls met, the keys
   on which `setCache` was called from outside with a function, and the plain values it was called with.
   */
  datatype State = State(
    cache: map<Key, Value>,
    calling: map<Key, Id>,
    promises: map<Id, Option<Outcome>>,
    calls: map<Id, Call>,
    made: set<(Key, Outcome)>,
    functionKeys: set<Key>,
    supplied: set<(Key, Value)>)

  const INITIAL := State(map[], map[], map[], map[], {}, {}, {})

  datatype Event =
    | StartWrap(id: Id, key: Key, ttl: bool)
    | ServeGet(id: Id)
    | ResumeGet(id: Id)
    | ResumeInFlight(id: Id)
    | ResumeWrap(id: Id, immediate: Option<int>)  // Some: `fn` throws before it returns a promise
    | Settle(id: Id, outcome: Outcome)
    | ResumeLeader(id: Id)
    | ResumeShared(id: Id)
    | ServeSet(id: Id)
    | RedisFails(id: Id, error: int)
    | StartSetFunction(id: Id, key: Key, ttl: bool, immediate: Option<int>)
    | StartSetPlain(id: Id, key: Key, value: Value, ttl: bool)
    | Evict(key: Key)                             // `deleteCache`, a wildcard delete, or expiry

  // ---------------------------------------------------------------- the transition system

  predicate Settled(s: State, promise: Id) {
    promise in s.promises && s.promises[promise].Some?
  }

  predicate Enabled(s: State, e: Event) {
    match e
    case StartWrap(id, _, _) => id !in s.calls
    case ServeGet(id) => id in s.calls && s.calls[id].phase.AwaitGet?
    case ResumeGet(id) => id in s.calls && s.calls[id].phase.GotReply?
    case ResumeInFlight(id) =>
      id in s.calls && s.calls[id].phase.AwaitInFlight? && Settled(s, s.calls[id].phase.promise)
    case ResumeWrap(id, _) => id in s.calls && s.calls[id].phase.Resolved?
    case Settle(id, _) => id in s.promises && s.promises[id].None?
    case ResumeLeader(id) => id in s.calls && s.calls[id].phase.Leading? && Settled(s, id)
    case ResumeShared(id) => id in s.calls && s.calls[id].phase.AwaitShared? && Settled(s, s.calls[id].phase.promise)
    case ServeSet(id) => id in s.calls && s.calls[id].phase.Saving?
    case RedisFails(id, _) => id in s.calls && (s.calls[id].phase.AwaitGet? || s.calls[id].phase.Saving?)
    case StartSetFunction(id, _, _, _) => id !in s.calls
    case StartSetPlain(id, _, _, _) => id !in s.calls
    case Evict(_) => true
  }

  function MoveTo(s: State, id: Id, phase: Phase): State
    requires id in s.calls
  {
    s.(calls := s.calls[id := s.calls[id].(phase := phase)])
  }

  /** A call ends with an error of its own. */
  function Fail(s: State, id: Id, error: int): State
    requires id in s.calls
  {
    MoveTo(s.(made := s.made + {(s.calls[id].key, Threw(error))}), id, Done(Threw(error)))
  }

  /** A call starts its `fn`: it publishes the promise and awaits it. */
  function Lead(s: State, id: Id, call: Call): State {
    s.(calling := s.calling[call.key := id], promises := s.promises[id := None],
       calls := s.calls[id := call.(phase := Leading)])
  }

  /** Where a call goes when its own `fn` has settled; the key leaves the map in every case. */
  function AfterLeading(call: Call, outcome: Outcome): Phase {
    match outcome
    case Threw(_) => Done(outcome)
    case Returned(v) => if call.ttl && (call.kind.Wrap? ==> v.Truthy?) then Saving(v) else Done(outcome)
  }

  function Apply(s: State, e: Event): State
    requires Enabled(s, e)
  {
    match e
    case StartWrap(id, key, ttl) => s.(calls := s.calls[id := Call(Wrap, key, ttl, AwaitGet)])
    case ServeGet(id) =>
      var key := s.calls[id].key;
      MoveTo(s, id, GotReply(if key in s.cache then Some(s.cache[key]) else None))
    case ResumeGet(id) =>
      var Call(_, key, _, GotReply(reply)) := s.calls[id];
      if reply.None? && key in s.calling then MoveTo(s, id, AwaitInFlight(s.calling[key]))
      else MoveTo(s, id, Resolved(if reply.Some? then reply.value else Null))
    case ResumeInFlight(id) =>
      var outcome := s.promises[s.calls[id].phase.promise].value;
      MoveTo(s, id, if outcome.Returned? then Resolved(outcome.value) else Done(outcome))
    case ResumeWrap(id, immediate) =>
      var call := s.calls[id];
      if call.phase.value != Null then MoveTo(s, id, Done(Returned(call.phase.value)))
      else if call.key in s.calling then MoveTo(s, id, AwaitShared(s.calling[call.key]))
      else if immediate.Some? then Fail(s, id, immediate.value)
      else Lead(s, id, call)
    case Settle(id, outcome) =>
      var made := if id in s.calls then {(s.calls[id].key, outcome)} else {};
      s.(promises := s.promises[id := Some(outcome)], made := s.made + made)
    case ResumeLeader(id) =>
      var call := s.calls[id];
      MoveTo(s.(calling := s.calling - {call.key}), id, AfterLeading(call, s.promises[id].value))
    case ResumeShared(id) =>
      MoveTo(s, id, Done(s.promises[s.calls[id].phase.promise].value))
    case ServeSet(id) =>
      var call := s.calls[id];
      MoveTo(s.(cache := s.cache[call.key := call.phase.value]), id, Done(Returned(call.phase.value)))
    case RedisFails(id, error) => Fail(s, id, error)
    case StartSetFunction(id, key, ttl, immediate) =>
      var call := Call(SetFunction, key, ttl, Leading);
      var noted := s.(functionKeys := s.functionKeys + {key});
      if immediate.Some?
      then noted.(calling := s.calling - {key}, calls := s.calls[id := call.(phase := Done(Threw(immediate.value)))],
                  made := s.made + {(key, Threw(immediate.value))})
      else Lead(noted, id, call)
    case StartSetPlain(id, key, value, ttl) =>
      var phase := if ttl then Saving(value) else Done(Returned(value));
      s.(calls := s.calls[id := Call(SetPlain, key, ttl, phase)], supplied := s.supplied + {(key, value)})
    case Evict(key) => s.(cache := s.cache - {key})
  }

  /** An event that cannot happen yet changes nothing. */
  function Step(s: State, e: Event): State {
    if Enabled(s, e) then Apply(s, e) else s
  }

  function Run(events: seq<Event>): State {
    if events == [] then INITIAL else Step(Run(events[..|events| - 1]), events[|events| - 1])
  }

  // ---------------------------------------------------------------- the code between two awaits

  class CacheClient {
    var cache: map<Key, Value>
    var callingMaps: map<Key, Id>
    var promises: map<Id, Option<Outcome>>
    var calls: map<Id, Call>
    ghost var made: set<(Key, Outcome)>
    ghost var functionKeys: set<Key>
    ghost var supplied: set<(Key, Value)>

    ghost function View(): State
      reads this
    {
      State(cache, callingMaps, promises, calls, made, functionKeys, supplied)
    }

    constructor ()
      ensures View() == INITIAL
    {
      cache, callingMaps, promises, calls := map[], map[], map[], map[];
      made, functionKeys, supplied := {}, {}, {};
    }

    /** `getCache` once its GET has been answered. */
    method ResumeGetCache(id: Id)
      requires Enabled(View(), ResumeGet(id))
      modifies this
      ensures View() == Apply(old(View()), ResumeGet(id))
    {
      var key, value := calls[id].key, calls[id].phase.reply;
      var next := Resolved(Null);
      if value == None {
        if key in callingMaps {
          next := AwaitInFlight(callingMaps[key]);
        }
      } else {
        next := Resolved(value.value);
      }
      calls := calls[id := calls[id].(phase := next)];
    }

    /** `wrap` from the value `getCache` gave it to its next await. */
    method ResumeWrapCall(id: Id, immediate: Option<int>)
      requires Enabled(View(), ResumeWrap(id, immediate))
      modifies this
      ensures View() == Apply(old(View()), ResumeWrap(id, immediate))
    {
      var call := calls[id];
      var next := Done(Returned(call.phase.value));
      if call.phase.value == Null {
        if call.key in callingMaps {
          next := AwaitShared(callingMaps[call.key]);
        } else if immediate.Some? {
          callingMaps := callingMaps - {call.key};
          made := made + {(call.key, Threw(immediate.value))};
          next := Done(Threw(immediate.value));
        } else {
          promises := promises[id := None];
          callingMaps := callingMaps[call.key := id];
          next := Leading;
        }
      }
      calls := calls[id := call.(phase := next)];
    }

    /** `wrap` or `setCache` once the promise of its own `fn` has settled. */
    method ResumeLeaderCall(id: Id)
      requires Enabled(View(), ResumeLeader(id))
      modifies this
      ensures View() == Apply(old(View()), ResumeLeader(id))
    {
      var call, outcome := calls[id], promises[id].value;
      callingMaps := callingMaps - {call.key};
      var next := Done(outcome);
      if outcome.Returned? {
        var save := call.ttl;
        if call.kind.Wrap? && !outcome.value.Truthy? {
          save := false;
        }
        if save {
          next := Saving(outcome.value);
        }
      }
      calls := calls[id := call.(phase := next)];
    }

    /** `setCache` given a function, up to its await. */
    method SetCacheFunction(id: Id, key: Key, ttl: bool, immediate: Option<int>)
      requires Enabled(View(), StartSetFunction(id, key, ttl, immediate))
      modifies this
      ensures View() == Apply(old(View()), StartSetFunction(id, key, ttl, immediate))
    {
      functionKeys := functionKeys + {key};
      if immediate.Some? {
        callingMaps := callingMaps - {key};
        made := made + {(key, Threw(immediate.value))};
        calls := calls[id := Call(SetFunction, key, ttl, Done(Threw(immediate.value)))];
      } else {
        promises := promises[id := None];
        callingMaps := callingMaps[key := id];
        calls := calls[id := Call(SetFunction, key, ttl, Leading)];
      }
    }

    /** Redis executes the SET of a call. */
    method StoreValue(id: Id)
      requires Enabled(View(), ServeSet(id))
      modifies this
      ensures View() == Apply(old(View()), ServeSet(id))
    {
      var call := calls[id];
      cache := cache[call.key := call.phase.value];
      calls := calls[id := call.(phase := Done(Returned(call.phase.value)))];
    }

    method DeleteCache(key: Key)
      modifies this
      ensures View() == Apply(old(View()), Evict(key))
    {
      cache := cache - {key};
    }
  }

  // ---------------------------------------------------------------- single flight

  /** The `fn` that some call started for this key has not settled yet. */
  predicate Flies(s: State, id: Id, key: Key) {
    Running(s, id) && id in s.calls && s.calls[id].key == key
  }

  /** The promise of this call is pending. */
  predicate Running(s: State, id: Id) {
    id in s.promises && s.promises[id].None?
  }

  predicate Leads(s: State, id: Id, key: Key) {
    id in s.calls && s.calls[id].key == key && s.calls[id].phase.Leading?
  }

  /** A promise belongs to a call; while it is pending that call awaits it, and a leading call has one. */
  ghost predicate PromisesOwned(s: State) {
    && (forall id :: id in s.promises ==> id in s.calls)
    && (forall id :: Running(s, id) ==> Leads(s, id, s.calls[id].key))
    && (forall id :: id in s.calls && s.calls[id].phase.Leading? ==> id in s.promises)
  }

  /** The map holds the key exactly while a leader is in flight, and then holds the only leader. */
  ghost predicate MapIsLeader(s: State, key: Key) {
    && (key in s.calling ==> Leads(s, s.calling[key], key))
    && (forall id :: Leads(s, id, key) ==> key in s.calling && s.calling[key] == id)
  }

  predicate Starts(e: Event) {
    e.StartWrap? || e.StartSetFunction? || e.StartSetPlain?
  }

  lemma StartKeepsPromises(s: State, e: Event)
    requires PromisesOwned(s) && Starts(e) && Enabled(s, e)
    ensures PromisesOwned(Step(s, e))
  {
  }

  lemma ResumesKeepPromises(s: State, e: Event)
    requires PromisesOwned(s) && (e.ResumeWrap? || e.ResumeLeader?) && Enabled(s, e)
    ensures PromisesOwned(Step(s, e))
  {
  }

  lemma LaterKeepsPromises(s: State, e: Event)
    requires PromisesOwned(s) && !Starts(e) && Enabled(s, e)
    ensures PromisesOwned(Step(s, e))
  {
    if e.ResumeWrap? || e.ResumeLeader? {
      ResumesKeepPromises(s, e);
    }
  }

  lemma StepKeepsPromises(s: State, e: Event)
    requires PromisesOwned(s)
    ensures PromisesOwned(Step(s, e))
  {
    if Starts(e) && Enabled(s, e) {
      StartKeepsPromises(s, e);
    } else if Enabled(s, e) {
      LaterKeepsPromises(s, e);
    }
  }

  /** A call that neither led nor leads may change without touching the leader of any key. */
  lemma QuietCallKeepsLeader(s: State, t: State, id: Id, key: Key)
    requires MapIsLeader(s, key)
    requires t.calling == s.calling && id in t.calls && t.calls == s.calls[id := t.calls[id]]
    requires !t.calls[id].phase.Leading? && (id in s.calls ==> !s.calls[id].phase.Leading?)
    ensures MapIsLeader(t, key)
  {
    forall other | Leads(t, other, key) ensures key in t.calling && t.calling[key] == other {
      assert Leads(s, other, key);
    }
  }

  lemma NewLeaderIsAlone(s: State, t: State, id: Id, key: Key)
    requires MapIsLeader(s, key) && id in t.calls
    requires t.calling == s.calling[t.calls[id].key := id] && t.calls == s.calls[id := t.calls[id]]
    requires t.calls[id].phase.Leading? && (id in s.calls ==> !s.calls[id].phase.Leading?)
    requires t.calls[id].key == key ==> key !in s.calling
    ensures MapIsLeader(t, key)
  {
    forall other | Leads(t, other, key) ensures key in t.calling && t.calling[key] == other {
      assert other == id || Leads(s, other, key);
    }
  }

  lemma LeaderLeaves(s: State, t: State, id: Id, key: Key)
    requires MapIsLeader(s, key) && id in s.calls && s.calls[id].phase.Leading?
    requires id in t.calls && t.calls == s.calls[id := t.calls[id]] && t.calls[id].key == s.calls[id].key
    requires t.calling == s.calling - {s.calls[id].key} && !t.calls[id].phase.Leading?
    ensures MapIsLeader(t, key)
  {
    forall other | Leads(t, other, key) ensures key in t.calling && t.calling[key] == other {
      assert Leads(s, other, key) && other != id;
      assert s.calls[id].key == key ==> Leads(s, id, key);
    }
  }

  /** `setCache` is called with a function on a key that is led. */
  ghost predicate SetsWhileLed(s: State, e: Event, key: Key) {
    e.StartSetFunction? && e.key == key && Enabled(s, e) && exists id :: Leads(s, id, key)
  }

  lemma StartKeepsLeader(s: State, e: Event, key: Key)
    requires MapIsLeader(s, key) && !SetsWhileLed(s, e, key) && Starts(e) && Enabled(s, e)
    ensures MapIsLeader(Step(s, e), key)
  {
    var t := Step(s, e);
    if e.StartSetFunction? && e.immediate.None? {
      NewLeaderIsAlone(s, t, e.id, key);
    } else {
      QuietCallKeepsLeader(s, t.(calling := s.calling), e.id, key);
      assert forall c :: Leads(t, c, key) <==> Leads(t.(calling := s.calling), c, key);
    }
  }

  lemma WrapKeepsLeader(s: State, id: Id, immediate: Option<int>, key: Key)
    requires MapIsLeader(s, key) && Enabled(s, ResumeWrap(id, immediate))
    ensures MapIsLeader(Step(s, ResumeWrap(id, immediate)), key)
  {
    var t := Step(s, ResumeWrap(id, immediate));
    if t.calls[id].phase.Leading? {
      NewLeaderIsAlone(s, t, id, key);
    } else {
      QuietCallKeepsLeader(s, t, id, key);
    }
  }

  /** All other events leave the map and the leaders alone. */
  lemma QuietKeepsLeads(s: State, e: Event, key: Key, id: Id)
    requires !Starts(e) && !e.ResumeWrap? && !e.ResumeLeader?
    ensures Step(s, e).calling == s.calling && (Leads(Step(s, e), id, key) <==> Leads(s, id, key))
  {
  }

  lemma StepKeepsLeader(s: State, e: Event, key: Key)
    requires MapIsLeader(s, key) && !SetsWhileLed(s, e, key)
    ensures MapIsLeader(Step(s, e), key)
  {
    if Enabled(s, e) {
      if Starts(e) {
        StartKeepsLeader(s, e, key);
      } else if e.ResumeWrap? {
        WrapKeepsLeader(s, e.id, e.immediate, key);
      } else if e.ResumeLeader? {
        LeaderLeaves(s, Step(s, e), e.id, key);
      } else {
        forall id ensures Step(s, e).calling == s.calling && (Leads(Step(s, e), id, key) <==> Leads(s, id, key)) {
          QuietKeepsLeads(s, e, key, id);
        }
      }
    }
  }

  /** A second leader appears, or the map loses the one there is. */
  lemma SetWhileLedBreaks(s: State, e: Event, key: Key)
    requires MapIsLeader(s, key) && SetsWhileLed(s, e, key)
    ensures !MapIsLeader(Step(s, e), key)
  {
    var leader :| Leads(s, leader, key);
    assert Leads(Step(s, e), leader, key) && leader != e.id;
  }

  lemma KeysOnlyGrow(s: State, e: Event)
    ensures s.functionKeys <= Step(s, e).functionKeys && s.supplied <= Step(s, e).supplied
    ensures s.made <= Step(s, e).made
  {
  }

  lemma {:induction false} RunPromises(events: seq<Event>)
    ensures PromisesOwned(Run(events))
    decreases |events|
  {
    if events != [] {
      var n := |events| - 1;
      RunPromises(events[..n]);
      StepKeepsPromises(Run(events[..n]), events[n]);
    }
  }

  lemma {:induction false} RunLeader(events: seq<Event>, key: Key)
    requires forall i :: 0 <= i < |events| ==> !SetsWhileLed(Run(events[..i]), events[i], key)
    ensures MapIsLeader(Run(events), key)
    decreases |events|
  {
    if events != [] {
      var n := |events| - 1;
      assert forall i :: 0 <= i < n ==> events[..n][..i] == events[..i];
      RunLeader(events[..n], key);
      StepKeepsLeader(Run(events[..n]), events[n], key);
    }
  }

  /** On every run: the map holds the key exactly while its only leader is in flight, at every moment, exactly when
      `setCache` is never called with a function on the key while it is led. */
  lemma SingleFlightIffNeverSetWhileLed(events: seq<Event>, key: Key)
    ensures (forall i :: 0 <= i <= |events| ==> MapIsLeader(Run(events[..i]), key))
            <==> (forall i :: 0 <= i < |events| ==> !SetsWhileLed(Run(events[..i]), events[i], key))
  {
    if forall i :: 0 <= i < |events| ==> !SetsWhileLed(Run(events[..i]), events[i], key) {
      forall i | 0 <= i <= |events| ensures MapIsLeader(Run(events[..i]), key) {
        assert forall j :: 0 <= j < i ==> events[..i][..j] == events[..j];
        RunLeader(events[..i], key);
      }
    } else {
      var i :| 0 <= i < |events| && SetsWhileLed(Run(events[..i]), events[i], key);
      assert events[..i + 1][..i] == events[..i];
      if MapIsLeader(Run(events[..i]), key) {
        SetWhileLedBreaks(Run(events[..i]), events[i], key);
        assert !MapIsLeader(Run(events[..i + 1]), key);
      }
    }
  }

  lemma {:induction false} FunctionKeysGrow(events: seq<Event>, i: nat)
    requires i <= |events|
    ensures Run(events[..i]).functionKeys <= Run(events).functionKeys
    decreases |events|
  {
    if i == |events| {
      assert events[..i] == events;
    } else {
      var n := |events| - 1;
      assert events[..n][..i] == events[..i];
      FunctionKeysGrow(events[..n], i);
      KeysOnlyGrow(Run(events[..n]), events[n]);
    }
  }

  lemma NoFunctionNoSet(events: seq<Event>, key: Key, i: nat)
    requires key !in Run(events).functionKeys && i < |events|
    ensures !SetsWhileLed(Run(events[..i]), events[i], key)
  {
    FunctionKeysGrow(events, i + 1);
    assert events[..i + 1][..i] == events[..i];
  }

  /** In every interleaving, on a key that nobody passes to `setCache` with a function, at most one `fn` runs
      at a time and `callingMaps` holds the key exactly while the call that started it is in flight. */
  lemma AtMostOneFlight(events: seq<Event>, key: Key, a: Id, b: Id)
    requires key !in Run(events).functionKeys
    ensures var s := Run(events);
            && (key in s.calling <==> exists id :: Leads(s, id, key))
            && (Flies(s, a, key) ==> key in s.calling && s.calling[key] == a)
            && (Leads(s, a, key) && Leads(s, b, key) ==> a == b)
            && (Flies(s, a, key) && Flies(s, b, key) ==> a == b)
  {
    forall i | 0 <= i < |events| ensures !SetsWhileLed(Run(events[..i]), events[i], key) {
      NoFunctionNoSet(events, key, i);
    }
    RunLeader(events, key);
    RunPromises(events);
  }

  lemma RunSteps(events: seq<Event>, e: Event)
    ensures Run(events + [e]) == Step(Run(events), e)
  {
  }

  /** A run after which call 0 leads on the key and its `fn` has not settled. */
  lemma OneLeader(key: Key) returns (events: seq<Event>)
    ensures Flies(Run(events), 0, key) && Leads(Run(events), 0, key) && 1 !in Run(events).calls
    ensures key in Run(events).calling
  {
    events := [];
    RunSteps([], StartWrap(0, key, true));
    RunSteps([] + [StartWrap(0, key, true)], ServeGet(0));
    RunSteps([] + [StartWrap(0, key, true)] + [ServeGet(0)], ResumeGet(0));
    events := [] + [StartWrap(0, key, true)] + [ServeGet(0)] + [ResumeGet(0)];
    assert Run(events).calls[0] == Call(Wrap, key, true, Resolved(Null)) && Run(events).calling == map[];
    RunSteps(events, ResumeWrap(0, None));
    events := events + [ResumeWrap(0, None)];
  }

  /** The condition is needed: one `setCache` with a function starts a second `fn` on the key, and when it
      ends, the first call still leads while the map has lost the key. */
  lemma FunctionSetBreaksSingleFlight(key: Key)
    ensures exists events :: Flies(Run(events), 0, key) && Flies(Run(events), 1, key)
    ensures exists events :: Leads(Run(events), 0, key) && key !in Run(events).calling
  {
    var e3 := OneLeader(key);
    var start, settle := StartSetFunction(1, key, true, None), Settle(1, Returned(Truthy(7)));
    RunSteps(e3, start);
    var e4 := e3 + [start];
    assert Flies(Run(e4), 0, key) && Flies(Run(e4), 1, key);
    RunSteps(e4, settle);
    RunSteps(e4 + [settle], ResumeLeader(1));
    assert Leads(Run(e4 + [settle] + [ResumeLeader(1)]), 0, key);
  }

  // ---------------------------------------------------------------- provenance

  /** The outcome is that of some `fn` call for this key, an error that one of its calls met, or a value supplied to
      `setCache` for it. */
  predicate SourcedOutcome(s: State, key: Key, outcome: Outcome) {
    (key, outcome) in s.made || (outcome.Returned? && (key, outcome.value) in s.supplied)
  }

  predicate Sourced(s: State, key: Key, value: Value) {
    SourcedOutcome(s, key, Returned(value))
  }

  /** A promise names a call on the same key. */
  predicate SameKey(s: State, promise: Id, key: Key) {
    promise in s.calls && s.calls[promise].key == key
  }

  predicate SourcedPhase(s: State, key: Key, phase: Phase) {
    match phase
    case GotReply(reply) => reply.Some? ==> Sourced(s, key, reply.value)
    case AwaitInFlight(p) => SameKey(s, p, key)
    case AwaitShared(p) => SameKey(s, p, key)
    case Resolved(v) => v == Null || Sourced(s, key, v)
    case Saving(v) => Sourced(s, key, v)
    case Done(outcome) => SourcedOutcome(s, key, outcome)
    case _ => true
  }

  ghost predicate Provenance(s: State, key: Key) {
    && (key in s.cache ==> Sourced(s, key, s.cache[key]))
    && (key in s.calling ==> SameKey(s, s.calling[key], key))
    && (forall id :: SourcedCall(s, id, key))
    && (forall id :: id in s.promises && id in s.calls && s.calls[id].key == key && s.promises[id].Some? ==>
          SourcedOutcome(s, key, s.promises[id].value))
  }

  ghost predicate SourcedCall(s: State, id: Id, key: Key) {
    id in s.calls && s.calls[id].key == key ==> SourcedPhase(s, key, s.calls[id].phase)
  }

  /** Facts about a key survive when the records of values and the calls only grow. */
  ghost predicate Extends(s: State, t: State) {
    && s.made <= t.made && s.supplied <= t.supplied
    && (forall id :: id in s.calls ==> id in t.calls && t.calls[id].key == s.calls[id].key)
  }

  lemma StepExtends(s: State, e: Event)
    ensures Extends(s, Step(s, e))
  {
  }

  lemma PhaseStaysSourced(s: State, t: State, key: Key, phase: Phase)
    requires Extends(s, t) && SourcedPhase(s, key, phase)
    ensures SourcedPhase(t, key, phase)
  {
  }

  /** Redis or a failure of it gives a call on the key a sourced phase. */
  lemma ServedPhaseIsSourced(s: State, e: Event, key: Key, id: Id)
    requires Provenance(s, key) && Enabled(s, e)
    requires (e.ServeGet? || e.ServeSet? || e.RedisFails?) && e.id == id
    requires id in s.calls && s.calls[id].key == key && SourcedCall(s, id, key)
    ensures SourcedPhase(Step(s, e), key, Step(s, e).calls[id].phase)
  {
  }

  /** A settled promise gives a call that awaited it a sourced phase. */
  lemma AwaitedPhaseIsSourced(s: State, e: Event, key: Key, id: Id)
    requires PromisesOwned(s) && Provenance(s, key) && Enabled(s, e)
    requires (e.ResumeInFlight? || e.ResumeLeader? || e.ResumeShared?) && e.id == id
    requires id in s.calls && s.calls[id].key == key && SourcedCall(s, id, key)
    ensures SourcedPhase(Step(s, e), key, Step(s, e).calls[id].phase)
  {
    if !e.ResumeLeader? {
      assert SameKey(s, s.calls[id].phase.promise, key);
    }
  }

  /** The phase an event gives to a call on the key is sourced in the state after it. */
  lemma NewPhaseIsSourced(s: State, e: Event, key: Key, id: Id)
    requires PromisesOwned(s) && Provenance(s, key) && Enabled(s, e) && SourcedCall(s, id, key)
    requires !e.Evict? && !e.Settle? && !Starts(e) && e.id == id
    requires id in s.calls && s.calls[id].key == key
    ensures SourcedPhase(Step(s, e), key, Step(s, e).calls[id].phase)
  {
    if e.ServeGet? || e.ServeSet? || e.RedisFails? {
      ServedPhaseIsSourced(s, e, key, id);
    } else if e.ResumeInFlight? || e.ResumeLeader? || e.ResumeShared? {
      AwaitedPhaseIsSourced(s, e, key, id);
    }
  }

  lemma OtherCallsStay(s: State, e: Event, id: Id)
    requires Enabled(s, e) && id in s.calls
    ensures id in Step(s, e).calls && Step(s, e).calls[id].kind == s.calls[id].kind
    ensures e.Evict? || e.Settle? || e.id != id ==> Step(s, e).calls[id] == s.calls[id]
    ensures Starts(e) ==> e.id != id
  {
  }

  lemma StepKeepsCall(s: State, e: Event, key: Key, id: Id)
    requires PromisesOwned(s) && Provenance(s, key) && Enabled(s, e)
    ensures SourcedCall(Step(s, e), id, key)
  {
    StepExtends(s, e);
    if id in s.calls && s.calls[id].key == key {
      assert SourcedCall(s, id, key);
      OtherCallsStay(s, e, id);
      if e.Evict? || e.Settle? || e.id != id {
        PhaseStaysSourced(s, Step(s, e), key, s.calls[id].phase);
      } else {
        NewPhaseIsSourced(s, e, key, id);
      }
    }
  }

  lemma StepKeepsStores(s: State, e: Event, key: Key)
    requires PromisesOwned(s) && Provenance(s, key) && Enabled(s, e)
    ensures var t := Step(s, e);
            && (key in t.cache ==> Sourced(t, key, t.cache[key]))
            && (key in t.calling ==> SameKey(t, t.calling[key], key))
  {
    StepExtends(s, e);
    match e
    case ServeSet(id) => assert SourcedCall(s, id, key);
    case _ =>
  }

  lemma StepKeepsOutcomes(s: State, e: Event, key: Key, id: Id)
    requires PromisesOwned(s) && Provenance(s, key) && Enabled(s, e)
    ensures var t := Step(s, e);
            id in t.promises && id in t.calls && t.calls[id].key == key && t.promises[id].Some? ==>
              SourcedOutcome(t, key, t.promises[id].value)
  {
  }

  lemma StepKeepsProvenance(s: State, e: Event, key: Key)
    requires PromisesOwned(s) && Provenance(s, key)
    ensures Provenance(Step(s, e), key)
  {
    if Enabled(s, e) {
      var t := Step(s, e);
      StepKeepsStores(s, e, key);
      forall id ensures SourcedCall(t, id, key) {
        StepKeepsCall(s, e, key, id);
      }
      forall id | id in t.promises && id in t.calls && t.calls[id].key == key && t.promises[id].Some?
        ensures SourcedOutcome(t, key, t.promises[id].value)
      {
        StepKeepsOutcomes(s, e, key, id);
      }
    }
  }

  lemma {:induction false} RunProvenance(events: seq<Event>, key: Key)
    ensures Provenance(Run(events), key)
    decreases |events|
  {
    if events != [] {
      var n := |events| - 1;
      RunProvenance(events[..n], key);
      RunPromises(events[..n]);
      StepKeepsProvenance(Run(events[..n]), events[n], key);
    }
  }

  /** Nobody called `setCache` on the key from outside. */
  ghost predicate OnlyWrapped(s: State, key: Key) {
    key !in s.functionKeys && forall v :: (key, v) !in s.supplied
  }

  /** Redis holds or is about to be given only truthy values for the key. */
  ghost predicate TruthyOnly(s: State, key: Key) {
    && (key in s.cache ==> s.cache[key].Truthy?)
    && (forall id :: TruthyCall(s, id, key))
  }

  predicate TruthyCall(s: State, id: Id, key: Key) {
    id in s.calls && s.calls[id].key == key ==>
      s.calls[id].kind.Wrap? && (s.calls[id].phase.Saving? ==> s.calls[id].phase.value.Truthy?)
  }

  lemma StepKeepsTruthyCall(s: State, e: Event, id: Id, key: Key)
    requires TruthyCall(s, id, key) && OnlyWrapped(Step(s, e), key)
    ensures TruthyCall(Step(s, e), id, key)
  {
    if Enabled(s, e) && e.StartSetPlain? {
      assert (e.key, e.value) in Step(s, e).supplied;
    }
  }

  lemma StepKeepsTruthyCache(s: State, e: Event, key: Key)
    requires TruthyOnly(s, key)
    ensures key in Step(s, e).cache ==> Step(s, e).cache[key].Truthy?
  {
    if Enabled(s, e) && e.ServeSet? {
      assert TruthyCall(s, e.id, key);
    }
  }

  lemma {:induction false} RunTruthyOnly(events: seq<Event>, key: Key)
    requires OnlyWrapped(Run(events), key)
    ensures TruthyOnly(Run(events), key)
    decreases |events|
  {
    if events != [] {
      var n := |events| - 1;
      var s := Run(events[..n]);
      KeysOnlyGrow(s, events[n]);
      assert forall v :: (key, v) in s.supplied ==> (key, v) in Run(events).supplied;
      RunTruthyOnly(events[..n], key);
      StepKeepsTruthyCache(s, events[n], key);
      forall id ensures TruthyCall(Run(events), id, key) {
        StepKeepsTruthyCall(s, events[n], id, key);
      }
    }
  }

  /** In every interleaving of all cache functions, whatever a call returns, null included, was returned by a `fn`
      call for the same key or supplied to `setCache` for it, whatever it throws was thrown by such a `fn` or is an
      error its calls met, and Redis only holds such values; only truthy ones if nobody called `setCache` on the
      key from outside. */
  lemma ValuesComeFromTheirKey(events: seq<Event>, key: Key, id: Id, outcome: Outcome)
    ensures var s := Run(events);
            && (id in s.calls && s.calls[id].key == key && s.calls[id].phase == Done(outcome) ==>
                  (key, outcome) in s.made || (outcome.Returned? && (key, outcome.value) in s.supplied))
            && (key in s.cache ==> (key, Returned(s.cache[key])) in s.made || (key, s.cache[key]) in s.supplied)
            && (OnlyWrapped(s, key) && key in s.cache ==> s.cache[key].Truthy?)
  {
    RunProvenance(events, key);
    assert SourcedCall(Run(events), id, key);
    if OnlyWrapped(Run(events), key) {
      RunTruthyOnly(events, key);
    }
  }

  // ---------------------------------------------------------------- round trip

  /** From the end of a flight to the answer of a later call on the same key. */
  function HitEvents(leader: Id, reader: Id, key: Key): seq<Event> {
    [ResumeLeader(leader), ServeSet(leader), StartWrap(reader, key, true), ServeGet(reader), ResumeGet(reader),
     ResumeWrap(reader, None)]
  }

  function Continue(s: State, events: seq<Event>): State
    decreases |events|
  {
    if events == [] then s else Continue(Step(s, events[0]), events[1..])
  }

  lemma FlightIsStored(s: State, leader: Id, key: Key, value: Value)
    requires Leads(s, leader, key) && s.calls[leader].kind.Wrap? && s.calls[leader].ttl
    requires leader in s.promises && s.promises[leader] == Some(Returned(value)) && value.Truthy?
    ensures var call := s.calls[leader].(phase := Done(Returned(value)));
            Step(Step(s, ResumeLeader(leader)), ServeSet(leader))
            == s.(cache := s.cache[key := value], calling := s.calling - {key}, calls := s.calls[leader := call])
  {
  }

  lemma ReaderHits(s: State, reader: Id, key: Key)
    requires reader !in s.calls && key in s.cache && s.cache[key] != Null
    ensures var s2 := Step(Step(s, StartWrap(reader, key, true)), ServeGet(reader));
            Step(Step(s2, ResumeGet(reader)), ResumeWrap(reader, None))
            == s.(calls := s.calls[reader := Call(Wrap, key, true, Done(Returned(s.cache[key])))])
  {
  }

  lemma ContinueSix(s: State, e: seq<Event>)
    requires |e| == 6
    ensures Continue(s, e) == Step(Step(Step(Step(Step(Step(s, e[0]), e[1]), e[2]), e[3]), e[4]), e[5])
  {
    assert e[1..][1..] == e[2..] && e[2..][1..] == e[3..] && e[3..][1..] == e[4..];
    assert e[4..][1..] == e[5..] && e[5..][1..] == [];
    ContinueTwo(s, e);
    ContinueTwo(Step(Step(s, e[0]), e[1]), e[2..]);
    ContinueTwo(Step(Step(Step(Step(s, e[0]), e[1]), e[2]), e[3]), e[4..]);
  }

  lemma ContinueTwo(s: State, e: seq<Event>)
    requires |e| >= 2
    ensures Continue(s, e) == Continue(Step(Step(s, e[0]), e[1]), e[2..])
  {
  }

  /** What a flight produced is stored, and a call that then reads it undisturbed returns it without starting a
      `fn`. */
  lemma UndisturbedReaderHits(s: State, leader: Id, reader: Id, key: Key, value: Value)
    requires Leads(s, leader, key) && s.calls[leader].kind.Wrap? && s.calls[leader].ttl
    requires leader in s.promises && s.promises[leader] == Some(Returned(value)) && value.Truthy?
    requires reader !in s.calls
    ensures var t := Continue(s, HitEvents(leader, reader, key));
            && leader in t.calls && reader in t.calls
            && t.cache == s.cache[key := value]
            && t.calls[leader].phase == t.calls[reader].phase == Done(Returned(value))
            && t.promises == s.promises && t.calling == s.calling - {key}
  {
    ContinueSix(s, HitEvents(leader, reader, key));
    FlightIsStored(s, leader, key, value);
    ReaderHits(Step(Step(s, ResumeLeader(leader)), ServeSet(leader)), reader, key);
  }

  /** The event may change what Redis holds for the key. */
  predicate Writes(s: State, e: Event, key: Key) {
    e == Evict(key) || (e.ServeSet? && Enabled(s, e) && s.calls[e.id].key == key)
  }

  /** None of the events that follow a run changes what Redis holds for the key. */
  ghost predicate Undisturbed(before: seq<Event>, events: seq<Event>, key: Key) {
    forall i :: 0 <= i < |events| ==> !Writes(Run(before + events[..i]), events[i], key)
  }

  /** Where a `wrap` that finds the value is on its way, if Redis failures gave it no error outside `errors`. */
  predicate HitPhase(phase: Phase, value: Value, errors: set<int>) {
    match phase
    case AwaitGet => true
    case GotReply(reply) => reply == Some(value)
    case Resolved(v) => v == value
    case Done(Returned(v)) => v == value
    case Done(Threw(error)) => error in errors
    case _ => false
  }

  /** Redis holds the value, and `reader`, if it is a `wrap` on the key, is being served it and runs no `fn`. */
  ghost predicate Serves(s: State, reader: Id, key: Key, value: Value, errors: set<int>) {
    && key in s.cache && s.cache[key] == value
    && (reader !in s.calls ==> reader !in s.promises)
    && (reader in s.calls && s.calls[reader].kind.Wrap? && s.calls[reader].key == key ==>
          reader !in s.promises && HitPhase(s.calls[reader].phase, value, errors))
  }

  lemma StepKeepsServing(s: State, e: Event, reader: Id, key: Key, value: Value, errors: set<int>)
    requires Serves(s, reader, key, value, errors) && value != Null && !Writes(s, e, key)
    requires e.RedisFails? && e.id == reader ==> e.error in errors
    ensures Serves(Step(s, e), reader, key, value, errors)
  {
  }

  lemma RunKeepsServing(events: seq<Event>, e: Event, reader: Id, key: Key, value: Value, errors: set<int>)
    requires Serves(Run(events), reader, key, value, errors) && value != Null && !Writes(Run(events), e, key)
    requires e.RedisFails? && e.id == reader ==> e.error in errors
    ensures Serves(Run(events + [e]), reader, key, value, errors)
  {
    RunSteps(events, e);
    StepKeepsServing(Run(events), e, reader, key, value, errors);
  }

  /** The Redis errors that events give to a call. */
  function ErrorsOf(events: seq<Event>, id: Id): set<int> {
    set e | e in events && e.RedisFails? && e.id == id :: e.error
  }

  /** What every event carries on holds after all of them. */
  lemma {:induction false} EventsCarry(before: seq<Event>, events: seq<Event>, m: nat, holds: State -> bool)
    requires holds(Run(before)) && m <= |events|
    requires forall i :: 0 <= i < m && holds(Run(before + events[..i])) ==>
                holds(Run(before + events[..i] + [events[i]]))
    ensures holds(Run(before + events[..m]))
    decreases m
  {
    if m == 0 {
      assert before + events[..0] == before;
    } else {
      EventsCarry(before, events, m - 1, holds);
      assert before + events[..m] == before + events[..m - 1] + [events[m - 1]];
    }
  }

  lemma ServingGoesOn(before: seq<Event>, events: seq<Event>, reader: Id, key: Key, value: Value)
    requires Serves(Run(before), reader, key, value, ErrorsOf(events, reader)) && value != Null
    requires Undisturbed(before, events, key)
    ensures Serves(Run(before + events), reader, key, value, ErrorsOf(events, reader))
  {
    var errors := ErrorsOf(events, reader);
    var holds := (s: State) => Serves(s, reader, key, value, errors);
    forall i | 0 <= i < |events| && holds(Run(before + events[..i]))
      ensures holds(Run(before + events[..i] + [events[i]]))
    {
      assert events[i] in events;
      RunKeepsServing(before + events[..i], events[i], reader, key, value, errors);
    }
    EventsCarry(before, events, |events|, holds);
    assert events[..|events|] == events;
  }

  /** Once a value other than null is stored, then in every continuation that neither evicts the key nor stores
      anything for it, every `wrap` on the key that starts later runs no `fn`, and if it ends it returns that
      value or throws an error of its own Redis command. */
  lemma StoredValueIsReturned(before: seq<Event>, id: Id, events: seq<Event>, reader: Id, key: Key, value: Value)
    requires var s := Run(before);
             && Enabled(s, ServeSet(id)) && s.calls[id].key == key && s.calls[id].phase == Saving(value)
             && value != Null && reader !in s.calls
    requires Undisturbed(before + [ServeSet(id)], events, key)
    ensures var t := Run(before + [ServeSet(id)] + events);
            && key in t.cache && t.cache[key] == value
            && (reader in t.calls && t.calls[reader].kind.Wrap? && t.calls[reader].key == key ==>
                  && reader !in t.promises
                  && (t.calls[reader].phase.Done? ==>
                        var outcome := t.calls[reader].phase.outcome;
                        outcome == Returned(value) || (outcome.Threw? && RedisFails(reader, outcome.error) in events)))
  {
    RunPromises(before);
    RunSteps(before, ServeSet(id));
    assert Serves(Run(before + [ServeSet(id)]), reader, key, value, ErrorsOf(events, reader));
    ServingGoesOn(before + [ServeSet(id)], events, reader, key, value);
  }
}
