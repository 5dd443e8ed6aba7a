/**
 What the callers of the cache get: the outcome of the flight they joined or led, nothing that was deleted, and what
 `setCache` stored.
 */
module CacheAnswers {
  import opened Options
  import opened SingleFlight

  // ---------------------------------------------------------------- promises are settled once

  /** A call that has a promise leads or has led. */
  predicate Led(s: State, id: Id) {
    id in s.promises ==>
      && id in s.calls
      && (s.calls[id].phase.Leading? || s.calls[id].phase.Saving? || s.calls[id].phase.Done?)
      && (s.promises[id].None? ==> s.calls[id].phase.Leading?)
  }

  /** What the map holds is the promise of a call on the key. */
  predicate Published(s: State, key: Key) {
    key in s.calling ==> s.calling[key] in s.promises && SameKey(s, s.calling[key], key)
  }

  ghost predicate Orderly(s: State) {
    (forall id :: Led(s, id)) && (forall key :: Published(s, key))
  }

  lemma StepKeepsLed(s: State, e: Event, id: Id)
    requires forall other :: Led(s, other)
    ensures Led(Step(s, e), id)
  {
    assert Led(s, id);
  }

  lemma StepKeepsPublished(s: State, e: Event, key: Key)
    requires Orderly(s)
    ensures Published(Step(s, e), key)
  {
    assert Published(s, key);
  }

  lemma {:induction false} RunIsOrderly(events: seq<Event>)
    ensures Orderly(Run(events))
    decreases |events|
  {
    if events != [] {
      var n := |events| - 1;
      RunIsOrderly(events[..n]);
      forall id ensures Led(Run(events), id) {
        StepKeepsLed(Run(events[..n]), events[n], id);
      }
      forall key ensures Published(Run(events), key) {
        StepKeepsPublished(Run(events[..n]), events[n], key);
      }
    }
  }

  /** A promise keeps its call and, once settled, its outcome. */
  lemma PromiseStays(s: State, e: Event, id: Id)
    requires Led(s, id) && id in s.promises
    ensures id in Step(s, e).promises && (s.promises[id].Some? ==> Step(s, e).promises[id] == s.promises[id])
  {
  }

  // ---------------------------------------------------------------- joining a flight

  /** The call awaits the promise `p`, or has passed on what it became. A call that joined in `getCache` is free
      again if that is null. */
  predicate Joined(s: State, c: Id, p: Id, inGet: bool) {
    && c in s.calls && p in s.promises
    && ((inGet && s.promises[p] == Some(Returned(Null)))
        || (c !in s.promises
            && match s.calls[c].phase
               case AwaitInFlight(q) => inGet && q == p
               case AwaitShared(q) => !inGet && q == p
               case Resolved(v) => inGet && v != Null && s.promises[p] == Some(Returned(v))
               case Done(outcome) => s.promises[p] == Some(outcome)
               case _ => false))
  }

  lemma StepKeepsJoined(s: State, e: Event, c: Id, p: Id, inGet: bool)
    requires Led(s, p) && Led(s, c) && Joined(s, c, p, inGet)
    ensures Joined(Step(s, e), c, p, inGet)
  {
    PromiseStays(s, e, p);
    if !(inGet && s.promises[p] == Some(Returned(Null))) {
      JoinedMoves(s, e, c, p, inGet);
    }
  }

  lemma JoinedMoves(s: State, e: Event, c: Id, p: Id, inGet: bool)
    requires Led(s, p) && Joined(s, c, p, inGet) && !(inGet && s.promises[p] == Some(Returned(Null)))
    ensures Joined(Step(s, e), c, p, inGet)
  {
  }

  /** In every interleaving, a call that awaits the promise of another one runs no `fn` and, if it ends, ends with
      exactly what that promise became, whatever happens in between. The one exception is a null joined in
      `getCache`. */
  lemma JoinedGetsTheOutcome(before: seq<Event>, events: seq<Event>, c: Id, p: Id)
    requires c in Run(before).calls
    requires Run(before).calls[c].phase == AwaitInFlight(p) || Run(before).calls[c].phase == AwaitShared(p)
    ensures var inGet, t := Run(before).calls[c].phase.AwaitInFlight?, Run(before + events);
            && c in t.calls && p in t.promises
            && (!(inGet && t.promises[p] == Some(Returned(Null))) ==>
                  && c !in t.promises && !t.calls[c].phase.Leading?
                  && (t.calls[c].phase.Done? ==> t.promises[p] == Some(t.calls[c].phase.outcome)))
  {
    var inGet := Run(before).calls[c].phase.AwaitInFlight?;
    RunAwaits(before, c);
    var holds := (s: State) => Joined(s, c, p, inGet);
    forall i | 0 <= i < |events| && holds(Run(before + events[..i]))
      ensures holds(Run(before + events[..i] + [events[i]]))
    {
      RunIsOrderly(before + events[..i]);
      RunSteps(before + events[..i], events[i]);
      StepKeepsJoined(Run(before + events[..i]), events[i], c, p, inGet);
    }
    EventsCarry(before, events, |events|, holds);
    assert events[..|events|] == events;
  }

  /** What a waiting call awaits is a promise, and the call has none itself, in every run. */
  predicate AwaitsPromise(s: State, c: Id) {
    c in s.calls && (s.calls[c].phase.AwaitInFlight? || s.calls[c].phase.AwaitShared?) ==>
      s.calls[c].phase.promise in s.promises && c !in s.promises
  }

  lemma StepKeepsAwaited(s: State, e: Event, c: Id)
    requires Orderly(s) && AwaitsPromise(s, c)
    ensures AwaitsPromise(Step(s, e), c)
  {
    assert Led(s, c);
    if c in s.calls && (s.calls[c].phase.AwaitInFlight? || s.calls[c].phase.AwaitShared?) {
      AwaitingGoesOn(s, e, c);
    } else if Enabled(s, e) && (e.ResumeGet? || e.ResumeWrap?) {
      assert Published(s, s.calls[e.id].key);
    }
  }

  lemma AwaitingGoesOn(s: State, e: Event, c: Id)
    requires Orderly(s) && AwaitsPromise(s, c)
    requires c in s.calls && (s.calls[c].phase.AwaitInFlight? || s.calls[c].phase.AwaitShared?)
    ensures AwaitsPromise(Step(s, e), c)
  {
    assert Led(s, s.calls[c].phase.promise);
    PromiseStays(s, e, s.calls[c].phase.promise);
  }

  lemma {:induction false} RunAwaits(events: seq<Event>, c: Id)
    ensures AwaitsPromise(Run(events), c)
    decreases |events|
  {
    if events != [] {
      var n := |events| - 1;
      RunAwaits(events[..n], c);
      RunIsOrderly(events[..n]);
      StepKeepsAwaited(Run(events[..n]), events[n], c);
    }
  }

  /** Once the promise it joined is settled, a call can go on: with any outcome but null it ends with that outcome. */
  lemma SettledFlightIsPassedOn(s: State, c: Id, p: Id, immediate: Option<int>)
    requires c in s.calls && Settled(s, p) && s.promises[p] != Some(Returned(Null))
    ensures s.calls[c].phase == AwaitShared(p) ==>
              c in Step(s, ResumeShared(c)).calls
              && Step(s, ResumeShared(c)).calls[c].phase == Done(s.promises[p].value)
    ensures s.calls[c].phase == AwaitInFlight(p) ==>
              var t := Step(Step(s, ResumeInFlight(c)), ResumeWrap(c, immediate));
              c in t.calls && t.calls[c].phase == Done(s.promises[p].value)
  {
  }

  /** A `wrap` that found no value, in Redis or in the flight it joined in `getCache`, looks in the map once more: it
      joins the flight there, or starts its own `fn` and publishes its promise. */
  lemma NullLooksInTheMap(s: State, c: Id)
    requires c in s.calls && s.calls[c].phase == Resolved(Null)
    ensures var t, key := Step(s, ResumeWrap(c, None)), s.calls[c].key;
            && c in t.calls
            && (key in s.calling ==> t.calls[c].phase == AwaitShared(s.calling[key]) && t.calling == s.calling)
            && (key !in s.calling ==>
                  Leads(t, c, key) && t.calling == s.calling[key := c] && c in t.promises && t.promises[c] == None)
  {
  }

  /** A GET without a value sends its call to the flight in the map, or on with null; a value ends the wait. A null
      from a joined flight goes on as null. */
  lemma MissGoesToTheMap(s: State, c: Id)
    requires c in s.calls
    ensures s.calls[c].phase == GotReply(None) ==>
              var key := s.calls[c].key;
              c in Step(s, ResumeGet(c)).calls
              && Step(s, ResumeGet(c)).calls[c].phase
                 == if key in s.calling then AwaitInFlight(s.calling[key]) else Resolved(Null)
    ensures s.calls[c].phase.AwaitInFlight? && Settled(s, s.calls[c].phase.promise)
            && s.promises[s.calls[c].phase.promise] == Some(Returned(Null)) ==>
              c in Step(s, ResumeInFlight(c)).calls && Step(s, ResumeInFlight(c)).calls[c].phase == Resolved(Null)
  {
  }

  // ---------------------------------------------------------------- the own flight

  /** The call leads, or passes on what its own `fn` became, or an error of its SET. */
  predicate OwnFlight(s: State, id: Id, errors: set<int>) {
    && id in s.calls && id in s.promises
    && match s.calls[id].phase
       case Leading => true
       case Saving(v) => s.promises[id] == Some(Returned(v))
       case Done(outcome) => s.promises[id] == Some(outcome) || (outcome.Threw? && outcome.error in errors)
       case _ => false
  }

  lemma StepKeepsOwnFlight(s: State, e: Event, id: Id, errors: set<int>)
    requires Led(s, id) && OwnFlight(s, id, errors) && (e.RedisFails? && e.id == id ==> e.error in errors)
    ensures OwnFlight(Step(s, e), id, errors)
  {
    PromiseStays(s, e, id);
  }

  /** In every interleaving, a call that leads ends with exactly what its own `fn` became, or with an error that its
      own SET met. */
  lemma LeaderGetsItsOutcome(before: seq<Event>, events: seq<Event>, id: Id, key: Key)
    requires Leads(Run(before), id, key)
    ensures var t := Run(before + events);
            && id in t.calls && id in t.promises
            && (t.calls[id].phase.Done? ==>
                  var outcome := t.calls[id].phase.outcome;
                  t.promises[id] == Some(outcome) || (outcome.Threw? && RedisFails(id, outcome.error) in events))
  {
    var errors := ErrorsOf(events, id);
    var holds := (s: State) => OwnFlight(s, id, errors);
    RunPromises(before);
    forall i | 0 <= i < |events| && holds(Run(before + events[..i]))
      ensures holds(Run(before + events[..i] + [events[i]]))
    {
      assert events[i] in events;
      RunIsOrderly(before + events[..i]);
      RunSteps(before + events[..i], events[i]);
      StepKeepsOwnFlight(Run(before + events[..i]), events[i], id, errors);
    }
    EventsCarry(before, events, |events|, holds);
    assert events[..|events|] == events;
  }

  /** When a flight ends, its key leaves the map, and Redis gets its value if it has one and the call caches: `setCache`
      any value, `wrap` only a truthy one. */
  lemma FlightEnds(s: State, id: Id, key: Key)
    requires Leads(s, id, key) && Settled(s, id)
    ensures var outcome, call := s.promises[id].value, s.calls[id];
            var stores := outcome.Returned? && call.ttl && (call.kind.Wrap? ==> outcome.value.Truthy?);
            Step(Step(s, ResumeLeader(id)), ServeSet(id))
            == s.(cache := if stores then s.cache[key := outcome.value] else s.cache,
                  calling := s.calling - {key}, calls := s.calls[id := call.(phase := Done(outcome))])
  {
  }

  /** A plain `setCache` stores its value, null and other falsy ones included, unless its lifetime is zero. */
  lemma PlainSetStores(s: State, id: Id, key: Key, value: Value, ttl: bool)
    requires id !in s.calls
    ensures var t := Step(Step(s, StartSetPlain(id, key, value, ttl)), ServeSet(id));
            && t.cache == (if ttl then s.cache[key := value] else s.cache)
            && t.calls == s.calls[id := Call(SetPlain, key, ttl, Done(Returned(value)))]
            && t.promises == s.promises && t.calling == s.calling
  {
  }

  /** What a plain `setCache` stored, other than null, is what the next undisturbed `wrap` returns. */
  lemma SetThenWrap(s: State, id: Id, reader: Id, key: Key, value: Value)
    requires id !in s.calls && reader !in s.calls && id != reader && value != Null
    ensures var stored := Step(Step(s, StartSetPlain(id, key, value, true)), ServeSet(id));
            var asked := Step(Step(stored, StartWrap(reader, key, true)), ServeGet(reader));
            var t := Step(Step(asked, ResumeGet(reader)), ResumeWrap(reader, None));
            reader in t.calls && t.calls[reader].phase == Done(Returned(value)) && t.promises == s.promises
  {
    PlainSetStores(s, id, key, value, true);
    ReaderHits(Step(Step(s, StartSetPlain(id, key, value, true)), ServeSet(id)), reader, key);
  }

  // ---------------------------------------------------------------- deleting

  /** A delete takes the key out of Redis and changes nothing else. */
  lemma DeleteTakesOneKey(s: State, key: Key, other: Key)
    ensures var t := Step(s, Evict(key));
            && key !in t.cache
            && (other != key ==>
                  (other in t.cache <==> other in s.cache) && (other in s.cache ==> t.cache[other] == s.cache[other]))
            && t == s.(cache := t.cache)
  {
  }

  /** The event stores something for the key. */
  predicate Stores(s: State, e: Event, key: Key) {
    e.ServeSet? && Enabled(s, e) && s.calls[e.id].key == key
  }

  /** Some `fn` call for the key returned the value, through the promise of the call `p`. */
  predicate Flew(s: State, p: Id, key: Key, value: Value) {
    p in s.promises && s.promises[p] == Some(Returned(value)) && SameKey(s, p, key)
  }

  ghost predicate Flown(s: State, key: Key, value: Value) {
    exists p :: Flew(s, p, key, value)
  }

  /** Where a `wrap` on the key is that never finds a value in Redis. */
  ghost predicate MissPhase(s: State, key: Key, phase: Phase) {
    match phase
    case AwaitGet => true
    case GotReply(reply) => reply == None
    case AwaitInFlight(p) => p in s.promises && SameKey(s, p, key)
    case AwaitShared(p) => p in s.promises && SameKey(s, p, key)
    case Resolved(v) => v == Null || Flown(s, key, v)
    case Saving(v) => Flown(s, key, v)
    case Done(outcome) => outcome.Returned? ==> Flown(s, key, outcome.value)
    case Leading => true
  }

  /** Redis has nothing for the key, and `reader`, if it is a `wrap` on it, has been given nothing. */
  ghost predicate Misses(s: State, reader: Id, key: Key) {
    && key !in s.cache
    && (reader in s.calls && s.calls[reader].kind.Wrap? && s.calls[reader].key == key ==>
          MissPhase(s, key, s.calls[reader].phase))
  }

  lemma FlownStays(s: State, e: Event, key: Key, value: Value)
    requires Orderly(s) && Flown(s, key, value)
    ensures Flown(Step(s, e), key, value)
  {
    var p :| Flew(s, p, key, value);
    assert Led(s, p);
    PromiseStays(s, e, p);
    StepExtends(s, e);
    assert Flew(Step(s, e), p, key, value);
  }

  lemma MissPhaseStays(s: State, e: Event, key: Key, phase: Phase)
    requires Orderly(s) && MissPhase(s, key, phase)
    ensures MissPhase(Step(s, e), key, phase)
  {
    StepExtends(s, e);
    match phase
    case AwaitInFlight(p) =>
      assert Led(s, p);
      PromiseStays(s, e, p);
    case AwaitShared(p) =>
      assert Led(s, p);
      PromiseStays(s, e, p);
    case Resolved(v) => if v != Null { FlownStays(s, e, key, v); }
    case Saving(v) => FlownStays(s, e, key, v);
    case Done(outcome) => if outcome.Returned? { FlownStays(s, e, key, outcome.value); }
    case _ =>
  }

  /** A call that takes the outcome of a settled promise takes a flown value. */
  lemma OutcomeFlew(s: State, key: Key, p: Id)
    requires Settled(s, p) && SameKey(s, p, key) && s.promises[p].value.Returned?
    ensures Flown(s, key, s.promises[p].value.value)
  {
    assert Flew(s, p, key, s.promises[p].value.value);
  }

  /** The phase that an event gives to a missing `wrap` is one of a missing `wrap`. */
  lemma MissMoves(s: State, e: Event, reader: Id, key: Key)
    requires Orderly(s) && Misses(s, reader, key) && Enabled(s, e) && !Starts(e) && !e.Settle? && !e.Evict?
    requires e.id == reader && s.calls[reader].kind.Wrap? && s.calls[reader].key == key
    ensures MissPhase(Step(s, e), key, Step(s, e).calls[reader].phase)
  {
    var phase := s.calls[reader].phase;
    assert Published(s, key) && Led(s, reader);
    MissPhaseStays(s, e, key, phase);
    match e
    case ResumeInFlight(_) => FlightIsMissed(s, e, reader, key, phase.promise);
    case ResumeShared(_) => FlightIsMissed(s, e, reader, key, phase.promise);
    case ResumeLeader(_) => FlightIsMissed(s, e, reader, key, reader);
    case _ =>
  }

  lemma FlightIsMissed(s: State, e: Event, reader: Id, key: Key, p: Id)
    requires Orderly(s) && Settled(s, p) && SameKey(s, p, key) && Enabled(s, e)
    ensures s.promises[p].value.Returned? ==> Flown(Step(s, e), key, s.promises[p].value.value)
  {
    if s.promises[p].value.Returned? {
      OutcomeFlew(s, key, p);
      FlownStays(s, e, key, s.promises[p].value.value);
    }
  }

  lemma NothingAppears(s: State, e: Event, reader: Id, key: Key)
    requires key !in s.cache && !Stores(s, e, key)
    ensures key !in Step(s, e).cache
    ensures reader in Step(s, e).calls && reader !in s.calls && Step(s, e).calls[reader].kind.Wrap? ==>
              Step(s, e).calls[reader].phase.AwaitGet?
  {
  }

  lemma StepKeepsMissing(s: State, e: Event, reader: Id, key: Key)
    requires Orderly(s) && Misses(s, reader, key) && !Stores(s, e, key)
    ensures Misses(Step(s, e), reader, key)
  {
    NothingAppears(s, e, reader, key);
    if Enabled(s, e) && reader in s.calls && s.calls[reader].kind.Wrap? && s.calls[reader].key == key {
      OtherCallsStay(s, e, reader);
      if e.Evict? || e.Settle? || e.id != reader {
        MissPhaseStays(s, e, key, s.calls[reader].phase);
      } else {
        MissMoves(s, e, reader, key);
      }
    }
  }

  /** None of the events that follow a run stores something for the key. */
  ghost predicate NothingStored(before: seq<Event>, events: seq<Event>, key: Key) {
    forall i :: 0 <= i < |events| ==> !Stores(Run(before + events[..i]), events[i], key)
  }

  lemma RunKeepsMissing(events: seq<Event>, e: Event, reader: Id, key: Key)
    requires Misses(Run(events), reader, key) && !Stores(Run(events), e, key)
    ensures Misses(Run(events + [e]), reader, key)
  {
    RunIsOrderly(events);
    RunSteps(events, e);
    StepKeepsMissing(Run(events), e, reader, key);
  }

  lemma MissingGoesOn(before: seq<Event>, events: seq<Event>, reader: Id, key: Key)
    requires Misses(Run(before), reader, key) && NothingStored(before, events, key)
    ensures Misses(Run(before + events), reader, key)
  {
    var holds := (s: State) => Misses(s, reader, key);
    forall i | 0 <= i < |events| && holds(Run(before + events[..i]))
      ensures holds(Run(before + events[..i] + [events[i]]))
    {
      RunKeepsMissing(before + events[..i], events[i], reader, key);
    }
    EventsCarry(before, events, |events|, holds);
    assert events[..|events|] == events;
  }

  lemma DeleteMisses(before: seq<Event>, key: Key, reader: Id)
    requires reader !in Run(before).calls
    ensures Misses(Run(before + [Evict(key)]), reader, key)
  {
    RunSteps(before, Evict(key));
  }

  /** Redis does not hold the key, its GET gave `reader` nothing, and what `reader` returns came through a promise. */
  ghost predicate Uncached(s: State, reader: Id, key: Key) {
    && key !in s.cache
    && (reader in s.calls && s.calls[reader].kind.Wrap? && s.calls[reader].key == key ==>
          && (s.calls[reader].phase.GotReply? ==> s.calls[reader].phase.reply == None)
          && (s.calls[reader].phase.Done? && s.calls[reader].phase.outcome.Returned? ==>
                Flown(s, key, s.calls[reader].phase.outcome.value)))
  }

  lemma MissingIsUncached(s: State, reader: Id, key: Key)
    requires Misses(s, reader, key)
    ensures Uncached(s, reader, key)
  {
  }

  lemma UncachedAfter(deleted: seq<Event>, events: seq<Event>, reader: Id, key: Key)
    requires Misses(Run(deleted), reader, key) && NothingStored(deleted, events, key)
    ensures Uncached(Run(deleted + events), reader, key)
  {
    MissingGoesOn(deleted, events, reader, key);
    MissingIsUncached(Run(deleted + events), reader, key);
  }

  /** After a delete, in every continuation in which nothing is stored for the key, Redis does not hold it, a `wrap` on
      it that starts later is given nothing by its GET, and whatever it returns was returned by a `fn` through a
      promise, its own or one in flight. */
  lemma DeletedIsGone(before: seq<Event>, key: Key, events: seq<Event>, reader: Id)
    requires reader !in Run(before).calls && NothingStored(before + [Evict(key)], events, key)
    ensures Uncached(Run(before + [Evict(key)] + events), reader, key)
  {
    DeleteMisses(before, key, reader);
    UncachedAfter(before + [Evict(key)], events, reader, key);
  }
}
