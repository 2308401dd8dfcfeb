/** The `Single<T>` helper of mock/single.hh: a static slot holding the one
    live instance of T. Constructing an instance registers it, destroying it
    clears the slot, and `GetInstance` looks it up. The object under
    construction or destruction (C++ `this`) is passed explicitly. */
module Single {
  import opened Wrappers

  const DoubleInstanceMessage: string := "Single instance usage only!!"
  const UninitializedMessage: string := "Uninitialized singleton instance use!"

  /** What happens to the slot: a constructor, a destructor, or a lookup. */
  datatype Event<T> = Constructing(obj: T) | Destroying(obj: T) | Lookup

  /** What the event yields: normal completion, the instance found, or the
      message of the `std::runtime_error` thrown. */
  datatype Outcome<T> = Constructed | Destroyed | Found(obj: T) | Thrown(message: string)

  /** The static `instance` pointer (None: nullptr) and the set of T objects
      whose construction completed and whose destruction has not begun. */
  datatype SlotState<T> = SlotState(instance: Option<T>, live: set<T>)

  /** The initial state: `Single<T>::instance = nullptr`, nothing alive. */
  function Empty<T>(): SlotState<T> {
    SlotState(None, {})
  }

  /** The invariant: the slot is empty and nothing is alive, or the slot
      refers to the one and only live instance. */
  ghost predicate Inv<T>(s: SlotState<T>) {
    s.live == if s.instance.Some? then {s.instance.value} else {}
  }

  /** What C++ allows to happen next: only a new object is constructed, and
      only a live one is destroyed. */
  ghost predicate Legal<T>(s: SlotState<T>, e: Event<T>) {
    match e
    case Constructing(o) => o !in s.live
    case Destroying(o) => o in s.live
    case Lookup => true
  }

  /** One event. A throwing constructor leaves no live object behind. */
  ghost function Step<T>(s: SlotState<T>, e: Event<T>): (r: (SlotState<T>, Outcome<T>))
    ensures r.1.Thrown? <==>
      (e.Constructing? && s.instance.Some?) || (e.Lookup? && s.instance.None?)
    ensures r.1.Thrown? || e.Lookup? ==> r.0 == s
    ensures e.Destroying? ==> r.0.instance.None?
    ensures r.1 == Constructed ==> e.Constructing? && r.0.instance == Some(e.obj) && e.obj in r.0.live
    ensures r.1.Found? ==> s.instance == Some(r.1.obj)
  {
    match e
    case Constructing(o) =>
      if s.instance.Some? then (s, Thrown(DoubleInstanceMessage))
      else (SlotState(Some(o), s.live + {o}), Constructed)
    case Destroying(o) => (SlotState(None, s.live - {o}), Destroyed)
    case Lookup =>
      if s.instance.None? then (s, Thrown(UninitializedMessage))
      else (s, Found(s.instance.value))
  }

  /** Every event of `es` is legal in the state it meets. */
  ghost predicate LegalRun<T>(s: SlotState<T>, es: seq<Event<T>>)
    decreases |es|
  {
    es == [] || (Legal(s, es[0]) && LegalRun(Step(s, es[0]).0, es[1..]))
  }

  /** The state after `es` and the outcome of each event. */
  ghost function Run<T>(s: SlotState<T>, es: seq<Event<T>>): (r: (SlotState<T>, seq<Outcome<T>>))
    ensures |r.1| == |es|
    decreases |es|
  {
    if es == [] then (s, [])
    else
      var (s', o) := Step(s, es[0]);
      var (t, os) := Run(s', es[1..]);
      (t, [o] + os)
  }

  /** One legal event keeps at most one instance alive. */
  lemma StepKeepsInv<T>(s: SlotState<T>, e: Event<T>)
    requires Inv(s) && Legal(s, e)
    ensures Inv(Step(s, e).0)
    ensures |Step(s, e).0.live| <= 1
  {
  }

  /** At most one live instance, whatever legal sequence of constructions,
      destructions and lookups runs. */
  lemma {:induction false} RunKeepsInv<T>(s: SlotState<T>, es: seq<Event<T>>)
    requires Inv(s) && LegalRun(s, es)
    ensures Inv(Run(s, es).0)
    ensures |Run(s, es).0.live| <= 1
    decreases |es|
  {
    if es == [] {
    } else {
      StepKeepsInv(s, es[0]);
      RunKeepsInv(Step(s, es[0]).0, es[1..]);
    }
  }

  /** A second construction while one instance is live throws and leaves the
      slot on the original. */
  lemma SecondConstructionFails<T>(s: SlotState<T>, o: T)
    requires s.instance.Some?
    ensures Step(s, Constructing(o)) == (s, Thrown(DoubleInstanceMessage))
  {
  }

  /** Under the invariant the destroyed object is always the registered one,
      so the unconditional clear never drops another object's registration. */
  lemma DestroyClearsOwnSlot<T>(s: SlotState<T>, o: T)
    requires Inv(s) && Legal(s, Destroying(o))
    ensures s.instance == Some(o)
    ensures Step(s, Destroying(o)).0 == Empty()
  {
  }

  /** Construct, destroy, construct again: the second construction succeeds
      and the lookup finds the new object. */
  lemma ConstructAfterDestroy<T>(a: T, b: T)
    ensures var es := [Constructing(a), Destroying(a), Constructing(b), Lookup];
      Run(Empty(), es).0 == SlotState(Some(b), {b}) &&
      Run(Empty(), es).1 == [Constructed, Destroyed, Constructed, Found(b)]
  {
    var es := [Constructing(a), Destroying(a), Constructing(b), Lookup];
    var occupied := SlotState(Some(b), {b});
    assert es[3..] == [Lookup] && es[2..][1..] == es[3..] && es[1..][1..] == es[2..];
    assert Run(occupied, es[3..]).0 == occupied && Run(occupied, es[3..]).1 == [Found(b)];
    assert Empty<T>().live + {b} == {b};
    assert Run(Empty(), es[2..]).0 == occupied && Run(Empty(), es[2..]).1 == [Constructed, Found(b)];
    assert {a} - {a} == Empty<T>().live;
    var after := Run(SlotState(Some(a), {a}), es[1..]);
    assert after.0 == occupied && after.1 == [Destroyed, Constructed, Found(b)];
    assert Empty<T>().live + {a} == {a};
    assert Run(Empty(), es).1 == [Constructed] + after.1;
  }

  /** From any reachable state, once the live instance is destroyed a new
      construction succeeds and registers the new object. */
  lemma ConstructSucceedsAfterDestroy<T>(s: SlotState<T>, o: T, b: T)
    requires Inv(s) && Legal(s, Destroying(o))
    ensures var cleared := Step(s, Destroying(o)).0;
      Step(cleared, Constructing(b)).1 == Constructed &&
      Step(cleared, Constructing(b)).0 == SlotState(Some(b), {b})
  {
    assert Step(s, Destroying(o)).0.live == {};
    assert {} + {b} == {b};
  }

  /** Lookups change nothing; each throws exactly when the slot is empty. */
  lemma {:induction false} LookupsChangeNothing<T>(s: SlotState<T>, es: seq<Event<T>>)
    requires forall i :: 0 <= i < |es| ==> es[i] == Lookup
    ensures Run(s, es).0 == s
    ensures forall i :: 0 <= i < |es| ==>
      Run(s, es).1[i] == if s.instance.None? then Thrown(UninitializedMessage) else Found(s.instance.value)
    decreases |es|
  {
    if es != [] {
      LookupsChangeNothing(s, es[1..]);
    }
  }

  /** The static storage of `Single<T>`, updated by every instance's
      constructor and destructor. */
  class Single<T> {
    /** `static T *instance`. */
    var instance: Option<T>
    /** The T objects currently alive. */
    ghost var live: set<T>

    ghost function State(): SlotState<T>
      reads this
    {
      SlotState(instance, live)
    }

    ghost predicate Valid()
      reads this
    {
      Inv(State())
    }

    /** Static initialisation: `instance = nullptr`, no instance alive. */
    constructor ()
      ensures Valid() && State() == Empty()
    {
      instance := None;
      live := {};
    }

    /** `Single()`, run for the new object `obj`: throws if an instance is
        live, otherwise registers `obj`. */
    method Construct(obj: T) returns (r: Outcome<T>)
      requires Valid() && obj !in live
      modifies this
      ensures Valid()
      ensures (State(), r) == Step(old(State()), Constructing(obj))
      ensures old(instance).Some? ==> r == Thrown(DoubleInstanceMessage) && instance == old(instance)
      ensures old(instance).None? ==> r == Constructed && instance == Some(obj)
    {
      if instance.Some? {
        return Thrown(DoubleInstanceMessage);
      }
      instance := Some(obj);
      live := live + {obj};
      r := Constructed;
    }

    /** `~Single()`, run for the live object `obj`: empties the slot
        unconditionally. */
    method Destroy(obj: T)
      requires Valid() && obj in live
      modifies this
      ensures Valid()
      ensures State() == Step(old(State()), Destroying(obj)).0
      ensures instance == None && live == {}
    {
      instance := None;
      live := live - {obj};
    }

    /** `GetInstance()`: throws on an empty slot, otherwise returns the
        registered instance; changes nothing. */
    method GetInstance() returns (r: Result<T, string>)
      ensures instance.None? ==> r == Failure(UninitializedMessage)
      ensures instance.Some? ==> r == Success(instance.value)
      ensures Step(State(), Lookup).1 == if r.Success? then Found(r.value) else Thrown(r.error)
    {
      if instance.None? {
        return Failure(UninitializedMessage);
      }
      r := Success(instance.value);
    }
  }

  /** Two instances in turn within one test, and the errors in between. */
  method SingleScenario<T>(a: T, b: T)
    requires a != b
  {
    var slot := new Single<T>();
    var found := slot.GetInstance();
    assert found == Failure(UninitializedMessage);

    var r := slot.Construct(a);
    assert r == Constructed;
    r := slot.Construct(b);
    assert r == Thrown(DoubleInstanceMessage);
    found := slot.GetInstance();
    assert found == Success(a);

    slot.Destroy(a);
    r := slot.Construct(b);
    assert r == Constructed;
    found := slot.GetInstance();
    assert found == Success(b);
  }
}
