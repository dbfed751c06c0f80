/** The single-flight cache: a state machine over every interleaving of any number of callers,
    one step per critical section, and the critical sections themselves as methods. */
module TopologyCache {
  import opened Wrappers

  type Key = string
  type Payload = string

  /** What a factory may raise; an extraordinary one is not an `Exception`. */
  datatype Raised = Raised(ordinary: bool, text: string)

  datatype Entry = Entry(expires: nat, payload: Payload)

  /** One in-flight computation: whose it is, whether its event is set, and its error. */
  datatype Flight = Flight(owner: nat, key: Key, signalled: bool, error: Option<Raised>)

  datatype Outcome =
    /** An entry that had not expired at the time read before the lookup. */
    | Hit(entry: Entry, asOf: nat)
    /** The caller's own factory returned. */
    | Computed(payload: Payload)
    /** The caller's own factory raised. */
    | Failed(flight: nat, error: Raised)
    /** The owner of the awaited flight failed. */
    | Shared(flight: nat, error: Raised)

  /** Where a caller of `get_or_compute` is. */
  datatype Caller =
    | Arriving(key: Key)
    | Looking(key: Key, now: nat)
    | Joining(key: Key)
    | Waiting(key: Key, flight: nat)
    | Computing(key: Key, flight: nat)
    | Storing(key: Key, flight: nat, payload: Payload)
    | Leaving(key: Key, flight: nat, outcome: Outcome)
    | Signalling(key: Key, flight: nat, outcome: Outcome)
    | Finished(key: Key, outcome: Outcome)

  datatype State = State(
    entries: map<Key, Entry>, inflight: map<Key, nat>, flights: map<nat, Flight>, callers: map<nat, Caller>,
    clock: nat, ttl: nat, nextFlight: nat,
    /** Every payload a factory returned or a caller put, by key. */
    produced: set<(Key, Payload)>)

  datatype Event =
    | Call(caller: nat, key: Key)
    | Step(caller: nat)
    /** The factory of a computing caller ends. */
    | FactoryEnds(caller: nat, result: Result<Payload, Raised>)
    /** Copying the payload for the cache raises. */
    | StoreRaises(caller: nat, error: Raised)
    | PutDirectly(key: Key, payload: Payload)
    | Clear
    | Tick(elapsed: nat)

  // ------------------------------------------------------ critical sections

  /** `get`: a live entry, or none; an expired one is dropped. */
  function Found(entries: map<Key, Entry>, key: Key, now: nat): Option<Entry> {
    if key in entries && entries[key].expires > now then Some(entries[key]) else None
  }

  function Looked(entries: map<Key, Entry>, key: Key, now: nat): map<Key, Entry> {
    if key in entries && entries[key].expires <= now then entries - {key} else entries
  }

  function At(s: State, c: nat, at: Caller): State { s.(callers := s.callers[c := at]) }

  /** One step of a caller that can move on by itself. */
  function Moved(s: State, c: nat): State
    requires c in s.callers
  {
    match s.callers[c]
    case Arriving(key) => At(s, c, Looking(key, s.clock))
    case Looking(key, now) =>
      var found := Found(s.entries, key, now);
      At(s.(entries := Looked(s.entries, key, now)), c, if found.Some? then Finished(key, Hit(found.value, now)) else Joining(key))
    case Joining(key) =>
      if key in s.inflight then At(s, c, Waiting(key, s.inflight[key]))
      else
        At(s.(inflight := s.inflight[key := s.nextFlight],
              flights := s.flights[s.nextFlight := Flight(c, key, false, None)], nextFlight := s.nextFlight + 1),
           c, Computing(key, s.nextFlight))
    case Waiting(key, f) =>
      if f in s.flights && s.flights[f].signalled then
        if s.flights[f].error.Some? then At(s, c, Finished(key, Shared(f, s.flights[f].error.value))) else At(s, c, Arriving(key))
      else s
    case Computing(_, _) => s
    case Storing(key, f, payload) =>
      At(s.(entries := s.entries[key := Entry(s.clock + s.ttl, payload)]), c, Leaving(key, f, Computed(payload)))
    case Leaving(key, f, outcome) => At(s.(inflight := s.inflight - {key}), c, Signalling(key, f, outcome))
    case Signalling(key, f, outcome) =>
      if f in s.flights then At(s.(flights := s.flights[f := s.flights[f].(signalled := true)]), c, Finished(key, outcome)) else s
    case Finished(_, _) => s
  }

  /** The owner's factory or store raised; only an ordinary error is passed on. */
  function Raising(s: State, c: nat, key: Key, f: nat, error: Raised): State {
    var flights := if error.ordinary && f in s.flights then s.flights[f := s.flights[f].(error := Some(error))] else s.flights;
    At(s.(flights := flights), c, Leaving(key, f, Failed(f, error)))
  }

  function Next(s: State, e: Event): State {
    match e
    case Call(c, key) => if c in s.callers then s else At(s, c, Arriving(key))
    case Step(c) => if c in s.callers then Moved(s, c) else s
    case FactoryEnds(c, result) =>
      if c in s.callers && s.callers[c].Computing? then
        var at := s.callers[c];
        match result
        case Success(payload) => At(s.(produced := s.produced + {(at.key, payload)}), c, Storing(at.key, at.flight, payload))
        case Failure(error) => Raising(s, c, at.key, at.flight, error)
      else s
    case StoreRaises(c, error) =>
      if c in s.callers && s.callers[c].Storing? then Raising(s, c, s.callers[c].key, s.callers[c].flight, error) else s
    case PutDirectly(key, payload) =>
      s.(entries := s.entries[key := Entry(s.clock + s.ttl, payload)], produced := s.produced + {(key, payload)})
    case Clear => s.(entries := map[])
    case Tick(elapsed) => s.(clock := s.clock + elapsed)
  }

  function Run(s: State, es: seq<Event>): State {
    if es == [] then s else Next(Run(s, es[..|es| - 1]), es[|es| - 1])
  }

  function Initial(ttl: nat): State { State(map[], map[], map[], map[], 0, ttl, 0, {}) }

  // ------------------------------------------------------------- invariants

  /** Between joining as owner and signalling: the flight a caller is responsible for. */
  predicate Holds(at: Caller, f: nat) { (at.Computing? || at.Storing? || at.Leaving? || at.Signalling?) && at.flight == f }

  /** Until it leaves, the owner is also the one registered for its key. */
  predicate Registered(at: Caller) { at.Computing? || at.Storing? || at.Leaving? }

  ghost predicate FlightOk(s: State, f: nat)
    requires f in s.flights
  {
    var flight := s.flights[f];
    && f < s.nextFlight
    && (!flight.signalled ==> flight.owner in s.callers && Holds(s.callers[flight.owner], f) && s.callers[flight.owner].key == flight.key)
    && (flight.error.Some? ==> flight.error.value.ordinary)
  }

  /** A result is what the outcome says it is. */
  ghost predicate OutcomeOk(s: State, key: Key, o: Outcome) {
    match o
    case Hit(entry, asOf) => entry.expires > asOf && (key, entry.payload) in s.produced
    case Computed(payload) => (key, payload) in s.produced
    case Failed(_, _) => true
    case Shared(f, error) => f in s.flights && s.flights[f].signalled && s.flights[f].key == key && s.flights[f].error == Some(error)
  }

  ghost predicate CallerOk(s: State, c: nat)
    requires c in s.callers
  {
    var at := s.callers[c];
    && (forall f :: Holds(at, f) ==> f in s.flights && s.flights[f].owner == c && s.flights[f].key == at.key && !s.flights[f].signalled)
    && (Registered(at) ==> at.key in s.inflight && s.inflight[at.key] == at.flight)
    && (at.Waiting? ==> at.flight in s.flights && s.flights[at.flight].key == at.key)
    && (at.Storing? ==> (at.key, at.payload) in s.produced)
    && (at.Leaving? || at.Signalling? || at.Finished? ==> OutcomeOk(s, at.key, at.outcome))
    && (at.Leaving? || at.Signalling? ==> at.outcome.Computed? || at.outcome.Failed?)
  }

  ghost predicate Sound(s: State) {
    && (forall k | k in s.entries :: (k, s.entries[k].payload) in s.produced)
    && (forall k | k in s.inflight ::
          s.inflight[k] in s.flights && !s.flights[s.inflight[k]].signalled && s.flights[s.inflight[k]].key == k
          && s.flights[s.inflight[k]].owner in s.callers && Registered(s.callers[s.flights[s.inflight[k]].owner]))
    && (forall f | f in s.flights :: FlightOk(s, f))
    && (forall c | c in s.callers :: CallerOk(s, c))
  }

  lemma StartsSound(ttl: nat)
    ensures Sound(Initial(ttl))
  {
  }

  /** Nothing already recorded is taken back. */
  ghost predicate Extends(s: State, t: State) {
    && s.produced <= t.produced && s.flights.Keys <= t.flights.Keys
    && forall f | f in s.flights ::
         && t.flights[f].owner == s.flights[f].owner && t.flights[f].key == s.flights[f].key
         && (s.flights[f].signalled ==> t.flights[f] == s.flights[f])
  }

  lemma OutcomeStays(s: State, t: State, key: Key, o: Outcome)
    requires OutcomeOk(s, key, o) && Extends(s, t)
    ensures OutcomeOk(t, key, o)
  {
  }

  /** A caller that did not move stays sound. */
  lemma OthersStay(s: State, t: State, c: nat)
    requires c in s.callers && CallerOk(s, c) && c in t.callers && t.callers[c] == s.callers[c] && Extends(s, t)
    requires forall f | Holds(s.callers[c], f) && f in s.flights :: t.flights[f].signalled == s.flights[f].signalled
    requires Registered(s.callers[c]) ==> s.callers[c].key in t.inflight && t.inflight[s.callers[c].key] == s.callers[c].flight
    ensures CallerOk(t, c)
  {
    hide OutcomeOk;
    if s.callers[c].Leaving? || s.callers[c].Signalling? || s.callers[c].Finished? { OutcomeStays(s, t, s.callers[c].key, s.callers[c].outcome); }
  }

  ghost predicate EntriesOk(entries: map<Key, Entry>, produced: set<(Key, Payload)>) {
    forall k | k in entries :: (k, entries[k].payload) in produced
  }

  /** The step moved caller `c` only, and touched no flight another caller holds. */
  ghost predicate MovesOnly(s: State, t: State, c: nat) {
    && Extends(s, t) && t.callers.Keys == s.callers.Keys + {c} && EntriesOk(t.entries, t.produced)
    && (forall d | d in s.callers && d != c :: t.callers[d] == s.callers[d])
    && (forall f | f in t.flights && f !in s.flights :: t.flights[f].owner == c)
    && (forall f | f in s.flights && s.flights[f].owner != c :: t.flights[f] == s.flights[f])
    && (forall k | k in s.inflight && s.inflight[k] in s.flights && s.flights[s.inflight[k]].owner != c :: k in t.inflight && t.inflight[k] == s.inflight[k])
    && (forall k | k in t.inflight && t.inflight[k] in t.flights && t.flights[t.inflight[k]].owner != c :: k in s.inflight && t.inflight[k] == s.inflight[k])
    && t.inflight.Values <= t.flights.Keys && t.nextFlight >= s.nextFlight
  }

  /** If the mover and its own flights are fine, everything is. */
  lemma MoveKeeps(s: State, t: State, c: nat)
    requires Sound(s) && MovesOnly(s, t, c) && CallerOk(t, c)
    requires forall f | f in t.flights && t.flights[f].owner == c :: FlightOk(t, f)
    requires forall k | k in t.inflight && t.inflight[k] in t.flights && t.flights[t.inflight[k]].owner == c ::
      !t.flights[t.inflight[k]].signalled && t.flights[t.inflight[k]].key == k && Registered(t.callers[c])
    ensures Sound(t)
  {
    hide OutcomeOk;
    forall d | d in t.callers ensures CallerOk(t, d) {
      if d != c { OthersStay(s, t, d); }
    }
    forall f | f in t.flights ensures FlightOk(t, f) {
      if t.flights[f].owner != c { assert FlightOk(s, f); }
    }
    forall k | k in t.inflight
      ensures t.inflight[k] in t.flights && !t.flights[t.inflight[k]].signalled && t.flights[t.inflight[k]].key == k
      ensures t.flights[t.inflight[k]].owner in t.callers && Registered(t.callers[t.flights[t.inflight[k]].owner])
    {
      assert t.inflight[k] in t.inflight.Values;
    }
  }

  lemma Values(inflight: map<Key, nat>, flights: map<nat, Flight>)
    requires forall k | k in inflight :: inflight[k] in flights
    ensures inflight.Values <= flights.Keys
  {
  }

  /** Moves that leave flights and registrations alone. */
  lemma PlainMove(s: State, t: State, c: nat)
    requires Sound(s) && t.flights == s.flights && t.inflight == s.inflight && t.nextFlight == s.nextFlight && s.produced <= t.produced
    requires t.callers.Keys == s.callers.Keys + {c} && (forall d | d in s.callers && d != c :: t.callers[d] == s.callers[d])
    requires EntriesOk(t.entries, t.produced) && CallerOk(t, c)
    requires c in s.callers ==> forall f :: (Holds(t.callers[c], f) <==> Holds(s.callers[c], f))
    requires c in s.callers ==> (Registered(t.callers[c]) <==> Registered(s.callers[c])) && t.callers[c].key == s.callers[c].key
    ensures Sound(t)
  {
    hide OutcomeOk;
    Values(s.inflight, s.flights);
    if c !in s.callers {
      forall f | f in s.flights && s.flights[f].owner == c ensures s.flights[f].signalled { assert FlightOk(s, f); }
    }
    forall f | f in t.flights && t.flights[f].owner == c ensures FlightOk(t, f) { assert FlightOk(s, f); }
    MoveKeeps(s, t, c);
  }

  lemma LookKeeps(s: State, c: nat)
    requires Sound(s) && c in s.callers && (s.callers[c].Arriving? || s.callers[c].Looking?)
    ensures Sound(Moved(s, c))
  {
    hide Sound;
    SoundFacts(s, c);
    PlainMove(s, Moved(s, c), c);
  }

  lemma WaitKeeps(s: State, c: nat)
    requires Sound(s) && c in s.callers && s.callers[c].Waiting?
    ensures Sound(Moved(s, c))
  {
    hide Sound;
    SoundFacts(s, c);
    if Moved(s, c) != s { PlainMove(s, Moved(s, c), c); }
  }

  lemma SoundFacts(s: State, c: nat)
    requires Sound(s) && c in s.callers
    ensures EntriesOk(s.entries, s.produced) && s.inflight.Values <= s.flights.Keys && CallerOk(s, c)
    ensures forall f | f in s.flights :: f < s.nextFlight
    ensures forall f | f in s.flights && s.flights[f].owner == c :: FlightOk(s, f)
  {
    hide CallerOk;
    Values(s.inflight, s.flights);
    forall f | f in s.flights ensures f < s.nextFlight { assert FlightOk(s, f); }
  }

  /** The key registered by `c` is the only one, and only while `c` is registered. */
  lemma OwnRegistration(s: State, c: nat)
    requires Sound(s) && c in s.callers
    ensures forall k | k in s.inflight && s.inflight[k] in s.flights && s.flights[s.inflight[k]].owner == c ::
      Registered(s.callers[c]) && s.callers[c].key == k && s.callers[c].flight == s.inflight[k] && !s.flights[s.inflight[k]].signalled
  {
    hide CallerOk;
    forall k | k in s.inflight && s.inflight[k] in s.flights && s.flights[s.inflight[k]].owner == c
      ensures Registered(s.callers[c]) && s.callers[c].key == k && s.callers[c].flight == s.inflight[k] && !s.flights[s.inflight[k]].signalled
    {
      assert FlightOk(s, s.inflight[k]);
    }
  }

  lemma JoinMoves(s: State, c: nat)
    requires c in s.callers && s.callers[c].Joining? && s.callers[c].key !in s.inflight
    requires EntriesOk(s.entries, s.produced) && s.inflight.Values <= s.flights.Keys && forall f | f in s.flights :: f < s.nextFlight
    ensures MovesOnly(s, Moved(s, c), c)
  {
    var t := Moved(s, c);
    assert s.nextFlight !in s.flights;
    forall k | k in t.inflight ensures t.inflight[k] in t.flights { assert k in s.inflight ==> s.inflight[k] in s.inflight.Values; }
    Values(t.inflight, t.flights);
  }

  lemma JoinKeeps(s: State, c: nat)
    requires Sound(s) && c in s.callers && s.callers[c].Joining?
    ensures Sound(Moved(s, c))
  {
    hide OutcomeOk, Sound, MovesOnly, EntriesOk;
    var key, t := s.callers[c].key, Moved(s, c);
    SoundFacts(s, c);
    OwnRegistration(s, c);
    if key in s.inflight {
      JoinAsWaiter(s, c);
    } else {
      JoinMoves(s, c);
      MoveKeeps(s, t, c);
    }
  }

  lemma RegisteredFlight(s: State, key: Key)
    requires Sound(s) && key in s.inflight
    ensures s.inflight[key] in s.flights && s.flights[s.inflight[key]].key == key
  {
    hide FlightOk, CallerOk;
  }

  lemma JoinAsWaiter(s: State, c: nat)
    requires Sound(s) && c in s.callers && s.callers[c].Joining? && s.callers[c].key in s.inflight
    ensures Sound(Moved(s, c))
  {
    hide Sound, OutcomeOk;
    SoundFacts(s, c);
    RegisteredFlight(s, s.callers[c].key);
    PlainMove(s, Moved(s, c), c);
  }

  lemma StoreKeeps(s: State, c: nat)
    requires Sound(s) && c in s.callers && s.callers[c].Storing?
    ensures Sound(Moved(s, c))
  {
    hide Sound;
    SoundFacts(s, c);
    PlainMove(s, Moved(s, c), c);
  }

  lemma LeaveMoves(s: State, c: nat)
    requires c in s.callers && s.callers[c].Leaving? && CallerOk(s, c) && EntriesOk(s.entries, s.produced) && s.inflight.Values <= s.flights.Keys
    ensures MovesOnly(s, Moved(s, c), c)
  {
    hide OutcomeOk;
    var t := Moved(s, c);
    assert Holds(s.callers[c], s.callers[c].flight);
    forall k | k in t.inflight ensures t.inflight[k] in t.flights { assert s.inflight[k] in s.inflight.Values; }
    Values(t.inflight, t.flights);
  }

  lemma LeaveKeeps(s: State, c: nat)
    requires Sound(s) && c in s.callers && s.callers[c].Leaving?
    ensures Sound(Moved(s, c))
  {
    hide OutcomeOk, Sound, MovesOnly, EntriesOk;
    var t := Moved(s, c);
    SoundFacts(s, c);
    OwnRegistration(s, c);
    assert Holds(s.callers[c], s.callers[c].flight);
    LeaveMoves(s, c);
    OutcomeMoves(s, t, c, s.callers[c].key, s.callers[c].outcome);
    MoveKeeps(s, t, c);
  }

  lemma OutcomeMoves(s: State, t: State, c: nat, key: Key, o: Outcome)
    requires OutcomeOk(s, key, o) && MovesOnly(s, t, c)
    ensures OutcomeOk(t, key, o)
  {
    hide OutcomeOk;
    OutcomeStays(s, t, key, o);
  }

  lemma SignalMoves(s: State, c: nat)
    requires c in s.callers && s.callers[c].Signalling? && CallerOk(s, c) && EntriesOk(s.entries, s.produced) && s.inflight.Values <= s.flights.Keys
    ensures MovesOnly(s, Moved(s, c), c)
  {
    hide OutcomeOk;
    assert Holds(s.callers[c], s.callers[c].flight);
  }

  lemma SignalKeeps(s: State, c: nat)
    requires Sound(s) && c in s.callers && s.callers[c].Signalling?
    ensures Sound(Moved(s, c))
  {
    hide OutcomeOk, Sound, MovesOnly, EntriesOk;
    var t := Moved(s, c);
    SoundFacts(s, c);
    OwnRegistration(s, c);
    assert Holds(s.callers[c], s.callers[c].flight);
    SignalMoves(s, c);
    OutcomeMoves(s, t, c, s.callers[c].key, s.callers[c].outcome);
    MoveKeeps(s, t, c);
  }

  lemma RaiseMoves(s: State, c: nat, error: Raised)
    requires c in s.callers && (s.callers[c].Computing? || s.callers[c].Storing?)
    requires CallerOk(s, c) && EntriesOk(s.entries, s.produced) && s.inflight.Values <= s.flights.Keys
    ensures MovesOnly(s, Raising(s, c, s.callers[c].key, s.callers[c].flight, error), c)
  {
    assert Holds(s.callers[c], s.callers[c].flight);
  }

  lemma RaiseKeeps(s: State, c: nat, error: Raised)
    requires Sound(s) && c in s.callers && (s.callers[c].Computing? || s.callers[c].Storing?)
    ensures Sound(Raising(s, c, s.callers[c].key, s.callers[c].flight, error))
  {
    hide Sound, MovesOnly, EntriesOk;
    var t := Raising(s, c, s.callers[c].key, s.callers[c].flight, error);
    SoundFacts(s, c);
    OwnRegistration(s, c);
    assert Holds(s.callers[c], s.callers[c].flight);
    RaiseMoves(s, c, error);
    MoveKeeps(s, t, c);
  }

  lemma ComputedKeeps(s: State, c: nat, payload: Payload)
    requires Sound(s) && c in s.callers && s.callers[c].Computing?
    ensures Sound(Next(s, FactoryEnds(c, Success(payload))))
  {
    hide Sound;
    SoundFacts(s, c);
    PlainMove(s, Next(s, FactoryEnds(c, Success(payload))), c);
  }

  lemma CallKeeps(s: State, c: nat, key: Key)
    requires Sound(s) && c !in s.callers
    ensures Sound(At(s, c, Arriving(key)))
  {
    PlainMove(s, At(s, c, Arriving(key)), c);
  }

  /** Steps that move no caller. */
  lemma OutsideKeeps(s: State, t: State)
    requires Sound(s) && t == s.(entries := t.entries, produced := t.produced, clock := t.clock)
    requires s.produced <= t.produced && EntriesOk(t.entries, t.produced)
    ensures Sound(t)
  {
    hide OutcomeOk;
    forall c | c in t.callers ensures CallerOk(t, c) {
      assert CallerOk(s, c);
      OthersStay(s, t, c);
    }
    forall f | f in t.flights ensures FlightOk(t, f) { assert FlightOk(s, f); }
  }

  /** Every step of every caller keeps the invariant. */
  lemma {:induction false} StepKeeps(s: State, e: Event)
    requires Sound(s)
    ensures Sound(Next(s, e))
  {
    hide Sound, Moved, Raising;
    match e
    case Call(c, key) => if c !in s.callers { CallKeeps(s, c, key); }
    case Step(c) => if c in s.callers { CallerKeeps(s, c); }
    case FactoryEnds(c, result) =>
      if c in s.callers && s.callers[c].Computing? {
        if result.Success? { ComputedKeeps(s, c, result.value); } else { RaiseKeeps(s, c, result.error); }
      }
    case StoreRaises(c, error) => if c in s.callers && s.callers[c].Storing? { RaiseKeeps(s, c, error); }
    case PutDirectly(key, payload) => PutKeeps(s, key, payload);
    case Clear => OutsideKeeps(s, s.(entries := map[]));
    case Tick(elapsed) =>
      SoundEntries(s);
      OutsideKeeps(s, s.(clock := s.clock + elapsed));
  }

  lemma SoundEntries(s: State)
    requires Sound(s)
    ensures EntriesOk(s.entries, s.produced)
  {
    hide FlightOk, CallerOk;
  }

  lemma PutKeeps(s: State, key: Key, payload: Payload)
    requires Sound(s)
    ensures Sound(Next(s, PutDirectly(key, payload)))
  {
    hide Sound;
    SoundEntries(s);
    OutsideKeeps(s, Next(s, PutDirectly(key, payload)));
  }

  lemma CallerKeeps(s: State, c: nat)
    requires Sound(s) && c in s.callers
    ensures Sound(Moved(s, c))
  {
    hide Sound;
    match s.callers[c]
    case Arriving(_) => LookKeeps(s, c);
    case Looking(_, _) => LookKeeps(s, c);
    case Joining(_) => JoinKeeps(s, c);
    case Waiting(_, _) => WaitKeeps(s, c);
    case Storing(_, _, _) => StoreKeeps(s, c);
    case Leaving(_, _, _) => LeaveKeeps(s, c);
    case Signalling(_, _, _) => SignalKeeps(s, c);
    case _ =>
  }

  lemma {:induction false} RunKeeps(ttl: nat, es: seq<Event>)
    ensures Sound(Run(Initial(ttl), es))
    decreases |es|
  {
    hide Sound, Next;
    if es == [] {
      StartsSound(ttl);
    } else {
      RunKeeps(ttl, es[..|es| - 1]);
      StepKeeps(Run(Initial(ttl), es[..|es| - 1]), es[|es| - 1]);
    }
  }

  // --------------------------------------------------------------- theorems

  /** Two factory runs for one key never overlap, storing and leaving included. */
  lemma OneFlightPerKey(ttl: nat, es: seq<Event>, c: nat, d: nat)
    ensures var s := Run(Initial(ttl), es);
      c in s.callers && d in s.callers && Registered(s.callers[c]) && Registered(s.callers[d]) && s.callers[c].key == s.callers[d].key ==> c == d
  {
    hide Run;
    RunKeeps(ttl, es);
    var s := Run(Initial(ttl), es);
    if c in s.callers && d in s.callers && Registered(s.callers[c]) && Registered(s.callers[d]) && s.callers[c].key == s.callers[d].key {
      assert CallerOk(s, c) && CallerOk(s, d);
      assert Holds(s.callers[c], s.callers[c].flight) && Holds(s.callers[d], s.callers[d].flight);
    }
  }

  /** A key has an in-flight entry exactly while one caller computes, stores or leaves for it. */
  lemma InflightHasOwner(ttl: nat, es: seq<Event>, key: Key)
    ensures var s := Run(Initial(ttl), es);
      key in s.inflight <==> exists c :: c in s.callers && Registered(s.callers[c]) && s.callers[c].key == key
  {
    hide Run;
    RunKeeps(ttl, es);
    var s := Run(Initial(ttl), es);
    if key in s.inflight {
      var c := s.flights[s.inflight[key]].owner;
      assert CallerOk(s, c) && FlightOk(s, s.inflight[key]) && Registered(s.callers[c]) && s.callers[c].key == key;
    }
    if c :| c in s.callers && Registered(s.callers[c]) && s.callers[c].key == key { assert CallerOk(s, c); }
  }

  /** A caller that can take its next step without waiting for anyone. */
  predicate CanGoOn(s: State, at: Caller) { at.Computing? || at.Storing? || at.Leaving? || at.Signalling? }

  /** No waiter waits on an event nobody will set: it is set already, or its owner, who never
      waits itself, is still on its way to setting it. */
  lemma WaitersAreWoken(ttl: nat, es: seq<Event>, c: nat)
    ensures var s := Run(Initial(ttl), es);
      c in s.callers && s.callers[c].Waiting? ==>
        var f := s.callers[c].flight;
        && f in s.flights && s.flights[f].key == s.callers[c].key
        && (if s.flights[f].signalled then Moved(s, c) != s
            else s.flights[f].owner in s.callers && Holds(s.callers[s.flights[f].owner], f) && CanGoOn(s, s.callers[s.flights[f].owner]))
  {
    hide Run;
    RunKeeps(ttl, es);
    var s := Run(Initial(ttl), es);
    if c in s.callers && s.callers[c].Waiting? {
      assert CallerOk(s, c);
      var f := s.callers[c].flight;
      assert FlightOk(s, f);
      assert s.flights[f].signalled ==> Moved(s, c).callers[c] != s.callers[c];
    }
  }

  // ------------------------------------------------------------ attribution

  /** What caller, key and payload an event makes known as computed. */
  function MadeBy(s: State, e: Event): set<(nat, Key, Payload)> {
    if e.FactoryEnds? && e.result.Success? && e.caller in s.callers && s.callers[e.caller].Computing?
    then {(e.caller, s.callers[e.caller].key, e.result.value)} else {}
  }

  /** The error an event raises in a factory or a store, with the caller and its flight. */
  function RaisedIn(s: State, e: Event): set<(nat, nat, Raised)> {
    if e.FactoryEnds? && e.result.Failure? && e.caller in s.callers && s.callers[e.caller].Computing?
    then {(e.caller, s.callers[e.caller].flight, e.result.error)}
    else if e.StoreRaises? && e.caller in s.callers && s.callers[e.caller].Storing?
    then {(e.caller, s.callers[e.caller].flight, e.error)}
    else {}
  }

  /** Everything factories returned in a run: caller, key and payload. */
  function Made(ttl: nat, es: seq<Event>): set<(nat, Key, Payload)> {
    if es == [] then {} else Made(ttl, es[..|es| - 1]) + MadeBy(Run(Initial(ttl), es[..|es| - 1]), es[|es| - 1])
  }

  /** Everything factories and stores raised in a run: caller, flight and error. */
  function RaisedBy(ttl: nat, es: seq<Event>): set<(nat, nat, Raised)> {
    if es == [] then {} else RaisedBy(ttl, es[..|es| - 1]) + RaisedIn(Run(Initial(ttl), es[..|es| - 1]), es[|es| - 1])
  }

  /** The caller's own factory or store can still raise on flight `f`. */
  predicate CanRaise(at: Caller, f: nat) { (at.Computing? || at.Storing?) && at.flight == f }

  ghost predicate CallerAttributed(s: State, c: nat, made: set<(nat, Key, Payload)>, raised: set<(nat, nat, Raised)>)
    requires c in s.callers
  {
    var at := s.callers[c];
    && (at.Looking? ==> at.now <= s.clock)
    && (at.Storing? ==> (c, at.key, at.payload) in made)
    && (at.Waiting? ==> at.flight in s.flights && s.flights[at.flight].owner != c)
    && (at.Leaving? || at.Signalling? || at.Finished? ==>
          match at.outcome
          case Hit(_, asOf) => asOf <= s.clock
          case Computed(payload) => (c, at.key, payload) in made
          case Failed(f, error) => (c, f, error) in raised
          case Shared(f, _) => f in s.flights && s.flights[f].owner != c)
  }

  /** The flight of a raised error, whose owner raises on it no more. */
  ghost predicate RaiseRecorded(s: State, r: (nat, nat, Raised)) {
    && r.1 in s.flights && s.flights[r.1].owner == r.0 && s.flights[r.1].error == (if r.2.ordinary then Some(r.2) else None)
    && r.0 in s.callers && !CanRaise(s.callers[r.0], r.1)
  }

  ghost predicate FlightAttributed(s: State, f: nat, raised: set<(nat, nat, Raised)>)
    requires f in s.flights
  {
    s.flights[f].error.Some? ==> (s.flights[f].owner, f, s.flights[f].error.value) in raised
  }

  ghost predicate Attributed(s: State, made: set<(nat, Key, Payload)>, raised: set<(nat, nat, Raised)>) {
    && (forall c | c in s.callers :: CallerAttributed(s, c, made, raised))
    && (forall f | f in s.flights :: FlightAttributed(s, f, raised))
    && (forall r | r in raised :: RaiseRecorded(s, r))
  }

  /** A step that raises nothing, sets no error, and lets `c` raise on no flight it could not. */
  lemma QuietStep(s: State, t: State, c: nat, made: set<(nat, Key, Payload)>, more: set<(nat, Key, Payload)>, raised: set<(nat, nat, Raised)>)
    requires Attributed(s, made, raised) && made <= more && s.clock <= t.clock
    requires s.callers.Keys <= t.callers.Keys && t.callers.Keys <= s.callers.Keys + {c} && s.flights.Keys <= t.flights.Keys
    requires forall d | d in s.callers && d != c :: t.callers[d] == s.callers[d]
    requires forall f | f in s.flights :: t.flights[f].owner == s.flights[f].owner && t.flights[f].error == s.flights[f].error
    requires forall f | f in t.flights && f !in s.flights :: t.flights[f].error == None
    requires c in t.callers ==> CallerAttributed(t, c, more, raised)
    requires c in s.callers ==> forall f | f in s.flights && s.flights[f].owner == c && CanRaise(t.callers[c], f) :: CanRaise(s.callers[c], f)
    ensures Attributed(t, more, raised)
  {
    forall d | d in t.callers ensures CallerAttributed(t, d, more, raised) {
      if d != c { assert CallerAttributed(s, d, made, raised); }
    }
    forall r | r in raised ensures RaiseRecorded(t, r) { assert RaiseRecorded(s, r); }
    forall f | f in t.flights ensures FlightAttributed(t, f, raised) {
      if f in s.flights { assert FlightAttributed(s, f, raised); }
    }
  }

  lemma RaiseAttributes(s: State, c: nat, error: Raised, made: set<(nat, Key, Payload)>, raised: set<(nat, nat, Raised)>)
    requires Sound(s) && Attributed(s, made, raised) && c in s.callers && (s.callers[c].Computing? || s.callers[c].Storing?)
    ensures Attributed(Raising(s, c, s.callers[c].key, s.callers[c].flight, error), made, raised + {(c, s.callers[c].flight, error)})
  {
    hide Sound;
    var f, more := s.callers[c].flight, raised + {(c, s.callers[c].flight, error)};
    var t := Raising(s, c, s.callers[c].key, f, error);
    SoundFacts(s, c);
    assert Holds(s.callers[c], f) && CanRaise(s.callers[c], f);
    assert FlightAttributed(s, f, raised);
    forall r | r in raised ensures r.0 != c || r.1 != f { assert RaiseRecorded(s, r); }
    forall d | d in t.callers ensures CallerAttributed(t, d, made, more) { assert CallerAttributed(s, d, made, raised); }
    forall r | r in more ensures RaiseRecorded(t, r) {
      if r in raised { assert RaiseRecorded(s, r); }
    }
    forall g | g in t.flights ensures FlightAttributed(t, g, more) { assert FlightAttributed(s, g, raised); }
  }

  lemma JoinAttributes(s: State, c: nat, made: set<(nat, Key, Payload)>, raised: set<(nat, nat, Raised)>)
    requires Sound(s) && Attributed(s, made, raised) && c in s.callers && s.callers[c].Joining?
    ensures Attributed(Moved(s, c), made, raised)
  {
    hide Attributed;
    SoundFacts(s, c);
    QuietStep(s, Moved(s, c), c, made, made, raised);
  }

  lemma MoveAttributes(s: State, c: nat, made: set<(nat, Key, Payload)>, raised: set<(nat, nat, Raised)>)
    requires Sound(s) && Attributed(s, made, raised) && c in s.callers
    ensures Attributed(Moved(s, c), made, raised)
  {
    if s.callers[c].Joining? {
      JoinAttributes(s, c, made, raised);
    } else {
      hide Sound, CallerAttributed, FlightAttributed, RaiseRecorded, Attributed, Moved, CanRaise;
      AttributedCaller(s, c, made, raised);
      MoveShape(s, c);
      MoverAttributed(s, c, made, raised);
      QuietStep(s, Moved(s, c), c, made, made, raised);
    }
  }

  /** A move leaves owners, errors and other callers alone, and raises nothing. */
  lemma MoveShape(s: State, c: nat)
    requires c in s.callers && !s.callers[c].Joining?
    ensures var t := Moved(s, c);
      && t.clock == s.clock && t.callers.Keys == s.callers.Keys && t.flights.Keys == s.flights.Keys
      && (forall d | d in s.callers && d != c :: t.callers[d] == s.callers[d])
      && (forall f | f in s.flights :: t.flights[f].owner == s.flights[f].owner && t.flights[f].error == s.flights[f].error)
      && (forall f | CanRaise(t.callers[c], f) :: CanRaise(s.callers[c], f))
  {
    hide Moved, CanRaise;
    MoveCallers(s, c);
    MoveFlights(s, c);
    MoveRaises(s, c);
  }

  lemma MoveCallers(s: State, c: nat)
    requires c in s.callers
    ensures var t := Moved(s, c); t.clock == s.clock && t.callers.Keys == s.callers.Keys && forall d | d in s.callers && d != c :: t.callers[d] == s.callers[d]
  {
    hide Found, Looked;
  }

  lemma MoveFlights(s: State, c: nat)
    requires c in s.callers && !s.callers[c].Joining?
    ensures Moved(s, c).flights.Keys == s.flights.Keys
    ensures forall f | f in s.flights :: Moved(s, c).flights[f].owner == s.flights[f].owner && Moved(s, c).flights[f].error == s.flights[f].error
  {
    hide Found, Looked;
  }

  lemma MoveRaises(s: State, c: nat)
    requires c in s.callers && !s.callers[c].Joining?
    ensures c in Moved(s, c).callers && forall f | CanRaise(Moved(s, c).callers[c], f) :: CanRaise(s.callers[c], f)
  {
    hide Found, Looked;
  }

  lemma MoverAttributed(s: State, c: nat, made: set<(nat, Key, Payload)>, raised: set<(nat, nat, Raised)>)
    requires c in s.callers && CallerAttributed(s, c, made, raised) && !s.callers[c].Joining?
    ensures CallerAttributed(Moved(s, c), c, made, raised)
  {
  }

  lemma AttributedCaller(s: State, c: nat, made: set<(nat, Key, Payload)>, raised: set<(nat, nat, Raised)>)
    requires Attributed(s, made, raised) && c in s.callers
    ensures CallerAttributed(s, c, made, raised)
  {
    hide CallerAttributed, FlightAttributed, RaiseRecorded;
  }

  lemma {:induction false} StepAttributes(s: State, e: Event, made: set<(nat, Key, Payload)>, raised: set<(nat, nat, Raised)>)
    requires Sound(s) && Attributed(s, made, raised)
    ensures Attributed(Next(s, e), made + MadeBy(s, e), raised + RaisedIn(s, e))
  {
    hide Sound, Attributed, Moved, Raising;
    var more := made + MadeBy(s, e);
    assert raised + {} == raised && made + {} == made;
    match e
    case Call(c, key) =>
      SoundOwners(s);
      if c !in s.callers { QuietStep(s, Next(s, e), c, made, more, raised); }
    case Step(c) => if c in s.callers { MoveAttributes(s, c, made, raised); }
    case FactoryEnds(c, result) =>
      if c in s.callers && s.callers[c].Computing? {
        if result.Success? { QuietStep(s, Next(s, e), c, made, more, raised); } else { RaiseAttributes(s, c, result.error, made, raised); }
      }
    case StoreRaises(c, error) => if c in s.callers && s.callers[c].Storing? { RaiseAttributes(s, c, error, made, raised); }
    case _ => OutsideAttributes(s, Next(s, e), made, raised);
  }

  lemma SoundOwners(s: State)
    requires Sound(s)
    ensures forall f | f in s.flights :: f < s.nextFlight
  {
    forall f | f in s.flights ensures f < s.nextFlight { assert FlightOk(s, f); }
  }

  lemma OutsideAttributes(s: State, t: State, made: set<(nat, Key, Payload)>, raised: set<(nat, nat, Raised)>)
    requires Attributed(s, made, raised) && t.callers == s.callers && t.flights == s.flights && s.clock <= t.clock
    ensures Attributed(t, made, raised)
  {
    forall c | c in t.callers ensures CallerAttributed(t, c, made, raised) { assert CallerAttributed(s, c, made, raised); }
    forall f | f in t.flights ensures FlightAttributed(t, f, raised) { assert FlightAttributed(s, f, raised); }
    forall r | r in raised ensures RaiseRecorded(t, r) { assert RaiseRecorded(s, r); }
  }

  lemma {:induction false} RunAttributes(ttl: nat, es: seq<Event>)
    ensures Attributed(Run(Initial(ttl), es), Made(ttl, es), RaisedBy(ttl, es))
    decreases |es|
  {
    hide Sound, Attributed, Next, MadeBy, RaisedIn;
    if es == [] {
      NothingAttributed(ttl);
    } else {
      var front := es[..|es| - 1];
      RunKeeps(ttl, front);
      RunAttributes(ttl, front);
      StepAttributes(Run(Initial(ttl), front), es[|es| - 1], Made(ttl, front), RaisedBy(ttl, front));
    }
  }

  lemma NothingAttributed(ttl: nat)
    ensures Attributed(Initial(ttl), {}, {})
  {
  }

  /** Every result is an entry that had not expired at a time already past, a value this caller's
      own factory returned for its key, an error this caller itself raised, or the ordinary error
      that another caller, the owner of the flight waited for, raised for the same key. */
  lemma ResultsAreGenuine(ttl: nat, es: seq<Event>, c: nat)
    ensures var s := Run(Initial(ttl), es);
      c in s.callers && s.callers[c].Finished? ==>
        var key := s.callers[c].key;
        match s.callers[c].outcome
        case Hit(entry, asOf) => asOf < entry.expires && asOf <= s.clock && (key, entry.payload) in s.produced
        case Computed(payload) => (c, key, payload) in Made(ttl, es)
        case Failed(f, error) => (c, f, error) in RaisedBy(ttl, es)
        case Shared(f, error) =>
          && f in s.flights && s.flights[f].key == key && s.flights[f].owner != c
          && (s.flights[f].owner, f, error) in RaisedBy(ttl, es) && error.ordinary
  {
    hide Run, Made, RaisedBy;
    RunKeeps(ttl, es);
    RunAttributes(ttl, es);
    var s := Run(Initial(ttl), es);
    if c in s.callers && s.callers[c].Finished? {
      assert CallerOk(s, c) && CallerAttributed(s, c, Made(ttl, es), RaisedBy(ttl, es));
      if s.callers[c].outcome.Shared? {
        assert FlightOk(s, s.callers[c].outcome.flight) && FlightAttributed(s, s.callers[c].outcome.flight, RaisedBy(ttl, es));
      }
    }
  }

  /** Over every run, a flight whose owner was ended by an extraordinary error shares nothing: no
      caller ever ends with that flight's error, so its waiters can only have started over. */
  lemma KilledFlightsShareNothing(ttl: nat, es: seq<Event>, owner: nat, f: nat, error: Raised, c: nat)
    requires (owner, f, error) in RaisedBy(ttl, es) && !error.ordinary
    ensures var s := Run(Initial(ttl), es);
      && f in s.flights && s.flights[f].owner == owner && s.flights[f].error == None
      && (c in s.callers && s.callers[c].Finished? && s.callers[c].outcome.Shared? ==> s.callers[c].outcome.flight != f)
      && (c in s.callers && s.callers[c].Waiting? && s.callers[c].flight == f && s.flights[f].signalled ==>
            Moved(s, c).callers[c] == Arriving(s.callers[c].key))
  {
    hide Run, Made, RaisedBy;
    RunKeeps(ttl, es);
    RunAttributes(ttl, es);
    var s := Run(Initial(ttl), es);
    assert RaiseRecorded(s, (owner, f, error));
    if c in s.callers { assert CallerOk(s, c); }
  }

  /** Over every run, the ordinary error of a flight's owner stays with the flight, and every waiter of
      it that moves on once it is signalled ends with that error. */
  lemma OrdinaryErrorsAreShared(ttl: nat, es: seq<Event>, owner: nat, f: nat, error: Raised, c: nat)
    requires (owner, f, error) in RaisedBy(ttl, es) && error.ordinary
    ensures var s := Run(Initial(ttl), es);
      && f in s.flights && s.flights[f].owner == owner && s.flights[f].error == Some(error)
      && (c in s.callers && s.callers[c].Waiting? && s.callers[c].flight == f && s.flights[f].signalled ==>
            Next(s, Step(c)).callers[c] == Finished(s.callers[c].key, Shared(f, error)))
  {
    hide Run, Made, RaisedBy;
    RunAttributes(ttl, es);
    assert RaiseRecorded(Run(Initial(ttl), es), (owner, f, error));
  }

  /** A value a caller puts, or an owner stores, can be looked up until the time to live has passed, and not after. */
  lemma StoredForTtl(s: State, e: Event, key: Key, payload: Payload, now: nat)
    requires e == PutDirectly(key, payload)
             || (e.Step? && e.caller in s.callers && s.callers[e.caller].Storing? && s.callers[e.caller].key == key && s.callers[e.caller].payload == payload)
    ensures var found := Found(Next(s, e).entries, key, now);
      if now < s.clock + s.ttl then found.Some? && found.value.payload == payload else found == None
  {
  }

  ghost predicate ExpiresInTime(s: State) { forall k | k in s.entries :: s.entries[k].expires <= s.clock + s.ttl }

  lemma {:induction false} StepExpires(s: State, e: Event)
    requires ExpiresInTime(s)
    ensures ExpiresInTime(Next(s, e)) && Next(s, e).ttl == s.ttl
  {
  }

  /** No stored entry outlives the time to live. */
  lemma {:induction false} EntriesExpire(ttl: nat, es: seq<Event>)
    ensures ExpiresInTime(Run(Initial(ttl), es)) && Run(Initial(ttl), es).ttl == ttl
    decreases |es|
  {
    hide Next;
    if es == [] {
    } else {
      EntriesExpire(ttl, es[..|es| - 1]);
      StepExpires(Run(Initial(ttl), es[..|es| - 1]), es[|es| - 1]);
    }
  }

  // ------------------------------------------------------ the object itself

  class Cache {
    const ttl: nat
    var entries: map<Key, Entry>
    var inflight: map<Key, nat>
    var flights: map<nat, Flight>
    var nextFlight: nat

    constructor (ttl: nat)
      ensures this.ttl == ttl && entries == map[] && inflight == map[] && flights == map[] && nextFlight == 0
    {
      this.ttl := ttl;
      entries, inflight, flights, nextFlight := map[], map[], map[], 0;
    }

    /** The cache as part of a state of the machine. */
    ghost predicate Shows(s: State)
      reads this
    {
      s.entries == entries && s.inflight == inflight && s.flights == flights && s.nextFlight == nextFlight && s.ttl == ttl
    }

    /** `get`, for a caller that has read the clock: the machine's lookup. */
    method Get(key: Key, now: nat, caller: nat, ghost s: State) returns (r: Option<Payload>)
      requires Shows(s) && caller in s.callers && s.callers[caller] == Looking(key, now)
      modifies `entries
      ensures Shows(Moved(s, caller))
      ensures match Moved(s, caller).callers[caller]
        case Finished(_, Hit(entry, _)) => r == Some(entry.payload)
        case at => r == None && at == Joining(key)
      ensures r == if key in old(entries) && now < old(entries)[key].expires then Some(old(entries)[key].payload) else None
      ensures entries == if key in old(entries) && old(entries)[key].expires <= now then old(entries) - {key} else old(entries)
    {
      if key !in entries { return None; }
      var entry := entries[key];
      if entry.expires <= now {
        entries := entries - {key};
        return None;
      }
      r := Some(entry.payload);
    }

    /** `put`, by the owner of a flight. */
    method Put(key: Key, payload: Payload, now: nat, caller: nat, flight: nat, ghost s: State)
      requires Shows(s) && s.clock == now && caller in s.callers && s.callers[caller] == Storing(key, flight, payload)
      modifies `entries
      ensures Shows(Moved(s, caller)) && Moved(s, caller).callers[caller] == Leaving(key, flight, Computed(payload))
      ensures key in entries && entries[key].payload == payload && entries[key].expires == now + ttl
      ensures entries - {key} == old(entries) - {key}
    {
      entries := entries[key := Entry(now + ttl, payload)];
    }

    /** `clear`. */
    method ClearAll(ghost s: State)
      requires Shows(s)
      modifies `entries
      ensures Shows(Next(s, Clear)) && forall key, now :: Found(entries, key, now) == None
    {
      entries := map[];
    }

    /** The critical section in which a caller becomes owner or waiter. */
    method Join(key: Key, caller: nat, ghost s: State) returns (flight: nat, owner: bool)
      requires Shows(s) && caller in s.callers && s.callers[caller] == Joining(key)
      modifies `inflight, `flights, `nextFlight
      ensures Shows(Moved(s, caller))
      ensures Moved(s, caller).callers[caller] == if owner then Computing(key, flight) else Waiting(key, flight)
      ensures owner <==> key !in old(inflight)
      ensures key in inflight && inflight[key] == flight && inflight - {key} == old(inflight) - {key}
      ensures owner ==> flight == old(nextFlight) && flight in flights && flights[flight] == Flight(caller, key, false, None)
      ensures !owner ==> flights == old(flights)
    {
      if key in inflight { return inflight[key], false; }
      flight, owner := nextFlight, true;
      flights := flights[flight := Flight(caller, key, false, None)];
      inflight := inflight[key := flight];
      nextFlight := nextFlight + 1;
    }

    /** `finally`: give up the key, then wake the waiters. */
    method Finish(key: Key, flight: nat, caller: nat, ghost s: State, ghost outcome: Outcome)
      requires Shows(s) && caller in s.callers && s.callers[caller] == Leaving(key, flight, outcome) && flight in flights
      modifies `inflight, `flights
      ensures Shows(Moved(Moved(s, caller), caller))
      ensures Moved(Moved(s, caller), caller).callers[caller] == Finished(key, outcome)
      ensures flights[flight].signalled && key !in inflight
    {
      inflight := inflight - {key};
      flights := flights[flight := flights[flight].(signalled := true)];
    }
  }
}
