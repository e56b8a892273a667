/** The Observer demo: a WeatherData subject that keeps an ordered list of
    observers and pushes its three readings to each of them, and the
    CurrentConditionsDisplay observer that stores temperature and humidity.

    Observers are compared by identity in the source (pointer equality of the
    shared handles), so here an observer is its identity, an `ObserverId`.
    The display objects themselves live in a `Displays` registry keyed by that
    identity; it also keeps the record of every `update` call they received. */
module Observer {

  /** The identity of an observer object. */
  type ObserverId = nat

  /** The three readings a subject holds and hands to its observers.
      The source stores them as 32-bit floats that are only ever copied, so
      exact reals lose nothing. */
  datatype Readings = Readings(temperature: real, humidity: real, pressure: real)

  /** The state of one CurrentConditionsDisplay, which is also what the line
      it prints after every update shows. */
  datatype Conditions = Conditions(temperature: real, humidity: real)

  /** One call of an observer's `update`: which observer, with which readings. */
  datatype Notification = Notification(observer: ObserverId, readings: Readings)

  /** What a display keeps of the readings it is given: pressure is dropped. */
  function Shown(r: Readings): (c: Conditions)
  {
    Conditions(r.temperature, r.humidity)
  }

  /** The `update` calls of one notification round over `observers`:
      one per list entry, in list order, each with the same readings. */
  function Round(observers: seq<ObserverId>, r: Readings): (calls: seq<Notification>)
    ensures |calls| == |observers|
    ensures forall i :: 0 <= i < |calls| ==> calls[i] == Notification(observers[i], r)
  {
    if observers == [] then []
    else Round(observers[..|observers| - 1], r) + [Notification(observers[|observers| - 1], r)]
  }

  /** The display states after every observer of `observers`, in order, has
      been updated with `r`: each of them shows `r` and every other display
      keeps its state. */
  function Delivered(displays: map<ObserverId, Conditions>, observers: seq<ObserverId>, r: Readings)
    : (after: map<ObserverId, Conditions>)
    ensures after.Keys == displays.Keys + (set o | o in observers)
    ensures forall o :: o in observers ==> after[o] == Shown(r)
    ensures forall o :: o in displays && o !in observers ==> after[o] == displays[o]
  {
    if observers == [] then displays
    else
      var n := |observers|;
      assert observers == observers[..n - 1] + [observers[n - 1]];
      Delivered(displays, observers[..n - 1], r)[observers[n - 1] := Shown(r)]
  }

  /** The observer list with every entry identical to `o` removed and the
      other entries kept in their original relative order. */
  function Removed(observers: seq<ObserverId>, o: ObserverId): (kept: seq<ObserverId>)
    ensures forall x :: x in kept <==> x in observers && x != o
    ensures multiset(kept) == multiset(observers)[o := 0]
    ensures o !in observers ==> kept == observers
  {
    if observers == [] then []
    else
      var n := |observers|;
      var init := Removed(observers[..n - 1], o);
      assert observers == observers[..n - 1] + [observers[n - 1]];
      if observers[n - 1] == o then init else init + [observers[n - 1]]
  }

  /** Removal distributes over concatenation: what is kept of a list is what is
      kept of each of its parts, one after the other. With `Removed([x], o)`
      being `[]` for `x == o` and `[x]` otherwise, this fixes the order of the
      kept entries completely. */
  lemma {:induction false} RemovedAppend(a: seq<ObserverId>, b: seq<ObserverId>, o: ObserverId)
    ensures Removed(a + b, o) == Removed(a, o) + Removed(b, o)
  {
    if b == [] {
      assert a + b == a;
    } else {
      var n := |b|;
      var b' := b[..n - 1];
      assert (a + b)[..|a + b| - 1] == a + b';
      assert (a + b)[|a + b| - 1] == b[n - 1];
      RemovedAppend(a, b', o);
    }
  }

  /** After `remove_observer(o)`, no later notification round reaches `o`. */
  lemma RemovedIsNeverNotified(observers: seq<ObserverId>, o: ObserverId, r: Readings)
    ensures forall c :: c in Round(Removed(observers, o), r) ==> c.observer != o
  {
  }

  /** Subscribing is appending: a round over a list built by two batches of
      subscriptions reaches the first batch first, then the second. */
  lemma RoundAppend(a: seq<ObserverId>, b: seq<ObserverId>, r: Readings)
    ensures Round(a + b, r) == Round(a, r) + Round(b, r)
  {
  }

  /** There is no de-duplication: an observer subscribed twice is updated twice
      in every round, once per entry. */
  lemma SubscribedTwiceUpdatedTwice(observers: seq<ObserverId>, o: ObserverId, r: Readings)
    ensures Round(observers + [o] + [o], r) == Round(observers, r) + [Notification(o, r), Notification(o, r)]
  {
  }

  /** The lines one round prints: one per list entry, in list order, each the
      temperature and humidity of the round's readings. */
  function RoundLines(observers: seq<ObserverId>, r: Readings): (lines: seq<Conditions>)
    ensures |lines| == |observers|
    ensures forall i :: 0 <= i < |lines| ==> lines[i] == Conditions(r.temperature, r.humidity)
  {
    if observers == [] then []
    else RoundLines(observers[..|observers| - 1], r) + [Shown(r)]
  }

  /** Each line a round prints is the state that the display on that entry
      holds once the round is over. */
  lemma RoundLinesShowStoredState(displays: map<ObserverId, Conditions>, observers: seq<ObserverId>, r: Readings)
    ensures forall i :: 0 <= i < |observers| ==>
              RoundLines(observers, r)[i] == Delivered(displays, observers, r)[observers[i]]
  {
  }

  /** Every CurrentConditionsDisplay, by identity, with its state; the record
      of every `update` call the displays received; and the lines they
      printed, one after each update. */
  class Displays {
    var conditions: map<ObserverId, Conditions>
    var log: seq<Notification>
    var printed: seq<Conditions>

    constructor ()
      ensures conditions == map[] && log == [] && printed == []
    {
      conditions := map[];
      log := [];
      printed := [];
    }

    /** Every entry of `subject`'s list is one of these displays: the list
        holds the observer objects themselves, so no entry can name an
        observer that does not exist. */
    ghost predicate Covers(subject: WeatherData)
      reads this, subject
    {
      forall o :: o in subject.observers ==> o in conditions
    }

    /** `CurrentConditionsDisplay::new`: a fresh display showing zeroes that
        subscribes itself to `subject`. The fresh identity is chosen by the
        caller, as the allocator does in the source. */
    method NewDisplay(id: ObserverId, subject: WeatherData)
      requires Covers(subject)
      requires id !in conditions
      modifies this, subject`observers
      ensures id !in old(subject.observers)
      ensures conditions == old(conditions)[id := Conditions(0.0, 0.0)]
      ensures log == old(log) && printed == old(printed)
      ensures subject.observers == old(subject.observers) + [id]
      ensures Covers(subject)
    {
      conditions := conditions[id := Conditions(0.0, 0.0)];
      subject.AddObserver(id);
    }

    /** `CurrentConditionsDisplay::update`: the display `id` stores the given
        temperature and humidity, ignores the pressure, and then prints the
        state it now holds (`display`). */
    method Update(id: ObserverId, r: Readings)
      requires id in conditions
      modifies this
      ensures conditions == old(conditions)[id := Conditions(r.temperature, r.humidity)]
      ensures log == old(log) + [Notification(id, r)]
      ensures printed == old(printed) + [conditions[id]]
    {
      conditions := conditions[id := Shown(r)];
      log := log + [Notification(id, r)];
      printed := printed + [conditions[id]];
    }
  }

  /** The subject: an ordered observer list and three stored readings. */
  class WeatherData {
    var observers: seq<ObserverId>
    var temperature: real
    var humidity: real
    var pressure: real

    constructor ()
      ensures observers == []
      ensures temperature == 0.0 && humidity == 0.0 && pressure == 0.0
    {
      observers := [];
      temperature, humidity, pressure := 0.0, 0.0, 0.0;
    }

    /** The readings as they are pushed to observers. */
    function Current(): Readings
      reads this
    {
      Readings(temperature, humidity, pressure)
    }

    /** Overwrites all three readings, then runs exactly one notification
        round. Nothing compares the new readings with the old ones: the same
        values again notify every observer again. */
    method SetMeasurements(t: real, h: real, p: real, displays: Displays)
      requires displays.Covers(this)
      modifies this`temperature, this`humidity, this`pressure, displays
      ensures temperature == t && humidity == h && pressure == p
      ensures observers == old(observers)
      ensures displays.log == old(displays.log) + Round(observers, Readings(t, h, p))
      ensures displays.conditions == Delivered(old(displays.conditions), observers, Readings(t, h, p))
      ensures displays.printed == old(displays.printed) + RoundLines(observers, Readings(t, h, p))
      ensures displays.conditions.Keys == old(displays.conditions.Keys) && displays.Covers(this)
    {
      temperature := t;
      humidity := h;
      pressure := p;
      MeasurementsChanged(displays);
    }

    /** Forwards to `NotifyObservers`. */
    method MeasurementsChanged(displays: Displays)
      requires displays.Covers(this)
      modifies displays
      ensures unchanged(this)
      ensures displays.log == old(displays.log) + Round(observers, Current())
      ensures displays.conditions == Delivered(old(displays.conditions), observers, Current())
      ensures displays.printed == old(displays.printed) + RoundLines(observers, Current())
      ensures displays.conditions.Keys == old(displays.conditions.Keys) && displays.Covers(this)
    {
      NotifyObservers(displays);
    }

    /** Appends `o`, whether or not it is already in the list. */
    method AddObserver(o: ObserverId)
      modifies this`observers
      ensures observers == old(observers) + [o]
    {
      observers := observers + [o];
    }

    /** Keeps exactly the entries not identical to `o`, in order. */
    method RemoveObserver(o: ObserverId)
      modifies this`observers
      ensures observers == Removed(old(observers), o)
    {
      var kept := [];
      var i := 0;
      while i < |observers|
        invariant 0 <= i <= |observers|
        invariant kept == Removed(observers[..i], o)
      {
        assert observers[..i + 1][..i] == observers[..i];
        if observers[i] != o {
          kept := kept + [observers[i]];
        }
        i := i + 1;
      }
      assert observers[..i] == observers;
      observers := kept;
    }

    /** Visits the list in order and calls `update` on every entry with the
        current readings. The subject itself does not change. */
    method NotifyObservers(displays: Displays)
      requires displays.Covers(this)
      modifies displays
      ensures unchanged(this)
      ensures displays.log == old(displays.log) + Round(observers, Current())
      ensures displays.conditions == Delivered(old(displays.conditions), observers, Current())
      ensures displays.printed == old(displays.printed) + RoundLines(observers, Current())
      ensures displays.conditions.Keys == old(displays.conditions.Keys) && displays.Covers(this)
    {
      var i := 0;
      while i < |observers|
        invariant 0 <= i <= |observers|
        invariant displays.log == old(displays.log) + Round(observers[..i], Current())
        invariant displays.conditions == Delivered(old(displays.conditions), observers[..i], Current())
        invariant displays.printed == old(displays.printed) + RoundLines(observers[..i], Current())
        invariant displays.conditions.Keys == old(displays.conditions.Keys)
      {
        assert observers[..i + 1][..i] == observers[..i];
        displays.Update(observers[i], Current());
        i := i + 1;
      }
      assert observers[..i] == observers;
    }
  }

  /** What `ObserverPattern::run` prints: one display, three measurements. */
  const ScenarioLines: seq<Conditions> :=
    [Conditions(80.0, 65.0), Conditions(82.0, 70.0), Conditions(78.0, 90.0)]

  /** `ObserverPattern::run`: one subject, one display subscribed to it, three
      calls of `SetMeasurements`; returns what the display printed. */
  method RunScenario() returns (lines: seq<Conditions>)
    ensures lines == ScenarioLines
  {
    var weatherData := new WeatherData();
    var displays := new Displays();
    displays.NewDisplay(0, weatherData);
    MeasureThreeTimes(weatherData, displays);
    lines := displays.printed;
  }

  /** The three measurements of `ObserverPattern::run`, made while exactly one
      observer, `0`, is subscribed. */
  method MeasureThreeTimes(weatherData: WeatherData, displays: Displays)
    requires weatherData.observers == [0] && 0 in displays.conditions
    requires displays.log == [] && displays.printed == []
    modifies weatherData, displays
    ensures displays.log == [Notification(0, Readings(80.0, 65.0, 30.4)),
                             Notification(0, Readings(82.0, 70.0, 29.2)),
                             Notification(0, Readings(78.0, 90.0, 29.2))]
    ensures displays.printed == ScenarioLines
  {
    var first, second, third := Readings(80.0, 65.0, 30.4), Readings(82.0, 70.0, 29.2), Readings(78.0, 90.0, 29.2);
    assert Round([0], first) == [Notification(0, first)];
    assert RoundLines([0], first) == [Shown(first)];
    weatherData.SetMeasurements(80.0, 65.0, 30.4, displays);
    assert Round([0], second) == [Notification(0, second)];
    assert RoundLines([0], second) == [Shown(second)];
    weatherData.SetMeasurements(82.0, 70.0, 29.2, displays);
    assert Round([0], third) == [Notification(0, third)];
    assert RoundLines([0], third) == [Shown(third)];
    weatherData.SetMeasurements(78.0, 90.0, 29.2, displays);
  }
}
