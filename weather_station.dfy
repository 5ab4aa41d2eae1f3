/**
 * The observer demo's `WeatherStation`: listeners are attached to and
 * detached from a list, and every temperature set is pushed to each
 * attached listener in attach order.  Two listeners exist: a logger that
 * prints every sample, and a notifier that prints a warning only when the
 * temperature drops below zero after a sample that was not.  Console lines
 * are recorded per listener; the logger's timestamp is left out and
 * `double` is an exact real (no NaN).
 */
module WeatherStation {
  import opened Seqs

  /** A console line a listener writes. */
  datatype Line = TemperatureAt(temperature: real) | BelowZero

  datatype Kind = TemperatureLogger | TemperatureNotifier

  /** The notifier's `_lastSampleBelowZero` after one more sample. */
  function NextFlag(lastSampleBelowZero: bool, temperature: real): bool {
    if temperature < 0.0 && !lastSampleBelowZero then true
    else if temperature >= 0.0 && lastSampleBelowZero then false
    else lastSampleBelowZero
  }

  /** What one `Update` prints. */
  function Emit(kind: Kind, lastSampleBelowZero: bool, temperature: real): seq<Line> {
    match kind
    case TemperatureLogger => [TemperatureAt(temperature)]
    case TemperatureNotifier => if temperature < 0.0 && !lastSampleBelowZero then [BelowZero] else []
  }

  /** Whatever the flag was, after a sample it records exactly whether that sample was below zero. */
  lemma FlagTracksSample(lastSampleBelowZero: bool, temperature: real)
    ensures NextFlag(lastSampleBelowZero, temperature) == (temperature < 0.0)
    ensures Emit(TemperatureNotifier, lastSampleBelowZero, temperature) == [BelowZero]
      <==> temperature < 0.0 && !lastSampleBelowZero
  {
  }

  /** The flag after a series of samples. */
  function FlagAfter(lastSampleBelowZero: bool, samples: seq<real>): bool {
    if samples == [] then lastSampleBelowZero
    else NextFlag(FlagAfter(lastSampleBelowZero, samples[..|samples| - 1]), samples[|samples| - 1])
  }

  /** The lines printed over a series of samples. */
  function Printed(kind: Kind, lastSampleBelowZero: bool, samples: seq<real>): seq<Line> {
    if samples == [] then []
    else
      var front := samples[..|samples| - 1];
      Printed(kind, lastSampleBelowZero, front) + Emit(kind, FlagAfter(lastSampleBelowZero, front), samples[|samples| - 1])
  }

  lemma FeedStep(kind: Kind, flag: bool, samples: seq<real>, t: real)
    ensures FlagAfter(flag, samples + [t]) == NextFlag(FlagAfter(flag, samples), t)
    ensures Printed(kind, flag, samples + [t]) == Printed(kind, flag, samples) + Emit(kind, FlagAfter(flag, samples), t)
  {
    assert (samples + [t])[..|samples|] == samples;
  }

  /** A run of samples below zero warns once when it starts from a non-negative sample, and never when it continues one. */
  lemma {:induction false} BelowZeroRunWarnsOnce(flag: bool, samples: seq<real>)
    requires |samples| >= 1 && forall i :: 0 <= i < |samples| ==> samples[i] < 0.0
    ensures Printed(TemperatureNotifier, flag, samples) == if flag then [] else [BelowZero]
    ensures FlagAfter(flag, samples)
  {
    var front := samples[..|samples| - 1];
    if front != [] {
      BelowZeroRunWarnsOnce(flag, front);
    }
  }

  /** The logger prints every sample, in order. */
  lemma {:induction false} LoggerPrintsAll(flag: bool, samples: seq<real>)
    ensures |Printed(TemperatureLogger, flag, samples)| == |samples|
    ensures forall i :: 0 <= i < |samples| ==> Printed(TemperatureLogger, flag, samples)[i] == TemperatureAt(samples[i])
  {
    if samples != [] {
      LoggerPrintsAll(flag, samples[..|samples| - 1]);
    }
  }

  class Listener {
    const kind: Kind
    /** Only the notifier uses it. */
    var lastSampleBelowZero: bool
    /** The console lines written by this listener. */
    var printed: seq<Line>

    constructor(kind: Kind)
      ensures this.kind == kind && !lastSampleBelowZero && printed == []
    {
      this.kind := kind;
      lastSampleBelowZero := false;
      printed := [];
    }

    method Update(temperature: real)
      modifies this
      ensures lastSampleBelowZero == (if kind == TemperatureNotifier then NextFlag(old(lastSampleBelowZero), temperature) else old(lastSampleBelowZero))
      ensures printed == old(printed) + Emit(kind, old(lastSampleBelowZero), temperature)
    {
      match kind {
        case TemperatureLogger =>
          printed := printed + [TemperatureAt(temperature)];
        case TemperatureNotifier =>
          if temperature < 0.0 && !lastSampleBelowZero {
            printed := printed + [BelowZero];
            lastSampleBelowZero := true;
          } else if temperature >= 0.0 && lastSampleBelowZero {
            lastSampleBelowZero := false;
          }
      }
    }
  }

  /** The samples `listener` receives when `temperature` is sent to each of `listeners` in turn. */
  function Delivered(listeners: seq<Listener>, listener: Listener, temperature: real): seq<real> {
    if listeners == [] then []
    else
      var last := listeners[|listeners| - 1];
      Delivered(listeners[..|listeners| - 1], listener, temperature) + (if last == listener then [temperature] else [])
  }

  lemma {:induction false} DeliveredOncePerAttach(listeners: seq<Listener>, listener: Listener, temperature: real)
    ensures Delivered(listeners, listener, temperature) == Repeat(temperature, Count(listeners, listener))
  {
    if listeners != [] {
      var front, last := listeners[..|listeners| - 1], listeners[|listeners| - 1];
      DeliveredOncePerAttach(front, listener, temperature);
      assert listeners == front + [last];
      CountAppend(front, [last], listener);
      assert [last][1..] == [];
    }
  }

  /** A notifier's flag, or the logger's unused one, after a series of samples. */
  function FlagOf(kind: Kind, flag: bool, samples: seq<real>): bool {
    if kind == TemperatureNotifier then FlagAfter(flag, samples) else flag
  }

  /** One more sample for a listener whose flag is where its earlier samples left it. */
  lemma ListenerStep(kind: Kind, flag0: bool, flag: bool, samples: seq<real>, t: real)
    requires flag == FlagOf(kind, flag0, samples)
    ensures FlagOf(kind, flag0, samples + [t]) == (if kind == TemperatureNotifier then NextFlag(flag, t) else flag)
    ensures Printed(kind, flag0, samples + [t]) == Printed(kind, flag0, samples) + Emit(kind, flag, t)
  {
    FeedStep(kind, flag0, samples, t);
  }

  /** A listener's state after `samples`, starting from flag `flag0` and console `printed0`. */
  ghost predicate Reached(listener: Listener, flag0: bool, printed0: seq<Line>, samples: seq<real>)
    reads listener
  {
    listener.lastSampleBelowZero == FlagOf(listener.kind, flag0, samples)
    && listener.printed == printed0 + Printed(listener.kind, flag0, samples)
  }

  /** `Update` moves a listener's state on by one sample. */
  method Feed(listener: Listener, ghost flag0: bool, ghost printed0: seq<Line>, ghost samples: seq<real>, t: real)
    requires Reached(listener, flag0, printed0, samples)
    modifies listener
    ensures Reached(listener, flag0, printed0, samples + [t])
  {
    ListenerStep(listener.kind, flag0, listener.lastSampleBelowZero, samples, t);
    Associative(printed0, Printed(listener.kind, flag0, samples), Emit(listener.kind, listener.lastSampleBelowZero, t));
    listener.Update(t);
  }

  class WeatherStation {
    var observers: seq<Listener>
    var temperature: real

    constructor()
      ensures observers == [] && temperature == 0.0
    {
      observers := [];
      temperature := 0.0;
    }

    method Attach(observer: Listener)
      modifies this`observers
      ensures observers == old(observers) + [observer]
    {
      observers := observers + [observer];
    }

    /** `List.Remove`: the first occurrence only. */
    method Detach(observer: Listener)
      modifies this`observers
      ensures observers == RemoveFirst(old(observers), observer)
    {
      observers := RemoveFirst(observers, observer);
    }

    /** `ForEach(o => o.Update(data))`: each attached listener, in attach order, as often as it is attached. */
    method Notify(data: real)
      modifies set o | o in observers
      ensures forall o :: o in observers ==>
        Reached(o, old(o.lastSampleBelowZero), old(o.printed), Delivered(observers, o, data))
    {
      var items := observers;
      for i := 0 to |items|
        invariant forall o :: o in items ==>
          Reached(o, old(o.lastSampleBelowZero), old(o.printed), Delivered(items[..i], o, data))
      {
        var listener := items[i];
        forall o | o in items
          ensures Delivered(items[..i + 1], o, data) == Delivered(items[..i], o, data) + (if listener == o then [data] else [])
        {
          assert items[..i + 1][..i] == items[..i];
        }
        Feed(listener, old(listener.lastSampleBelowZero), old(listener.printed), Delivered(items[..i], listener, data), data);
        forall o | o in items
          ensures Reached(o, old(o.lastSampleBelowZero), old(o.printed), Delivered(items[..i + 1], o, data))
        {
          if o != listener {
            assert Delivered(items[..i + 1], o, data) == Delivered(items[..i], o, data);
          }
        }
      }
      assert items[..|items|] == items;
    }

    /** Stores the temperature, then notifies every attached listener with it. */
    method SetTemperature(temperature: real)
      modifies this`temperature, set o | o in observers
      ensures this.temperature == temperature && observers == old(observers)
      ensures forall o :: o in observers ==>
        Reached(o, old(o.lastSampleBelowZero), old(o.printed), Delivered(observers, o, temperature))
    {
      this.temperature := temperature;
      Notify(this.temperature);
    }
  }

  /** The samples and lines of the scenario: each listener is attached once. */
  lemma SingleSample(logger: Listener, notifier: Listener, t: real)
    requires logger != notifier
    ensures Delivered([logger], logger, t) == [t]
    ensures Delivered([logger, notifier], logger, t) == [t] && Delivered([logger, notifier], notifier, t) == [t]
    ensures Printed(TemperatureLogger, false, [t]) == [TemperatureAt(t)]
    ensures Printed(TemperatureNotifier, false, [t]) == if t < 0.0 then [BelowZero] else []
  {
    assert [logger, notifier][..1] == [logger];
    assert [logger][..0] == [];
    assert Delivered([logger], notifier, t) == [];
    assert [t][..0] == [];
  }

  /** Detaching the notifier and then the logger leaves no listener attached. */
  lemma DetachBoth(logger: Listener, notifier: Listener)
    requires logger != notifier
    ensures RemoveFirst([logger, notifier], notifier) == [logger]
    ensures RemoveFirst([logger], logger) == []
  {
    assert [logger, notifier][1..] == [notifier];
  }

  /** The test's first two samples: 25 degrees with the logger attached, then -5 degrees with the notifier attached too. */
  method WhileAttached() returns (station: WeatherStation, logger: Listener, notifier: Listener)
    ensures fresh(station) && fresh(logger) && fresh(notifier)
    ensures logger != notifier && station.observers == [logger, notifier]
    ensures logger.printed == [TemperatureAt(25.0), TemperatureAt(-5.0)]
    ensures notifier.printed == [BelowZero]
  {
    station := new WeatherStation();
    logger := new Listener(TemperatureLogger);
    notifier := new Listener(TemperatureNotifier);
    station.Attach(logger);
    SingleSample(logger, notifier, 25.0);
    assert station.observers == [logger];
    station.SetTemperature(25.0);
    assert Reached(logger, false, [], [25.0]);
    assert logger.printed == [TemperatureAt(25.0)];
    assert notifier.printed == [] && !notifier.lastSampleBelowZero;
    station.Attach(notifier);
    SingleSample(logger, notifier, -5.0);
    assert station.observers == [logger, notifier];
    ghost var logged := logger.printed;
    station.SetTemperature(-5.0);
    assert Reached(logger, false, logged, [-5.0]);
    assert Reached(notifier, false, [], [-5.0]);
  }

  /**
   * The test: with the logger attached, 25 degrees is logged; with the
   * notifier attached as well, -5 degrees is logged and warned about; once
   * both are detached, 30 degrees reaches neither.
   */
  method WeatherStationScenario() returns (loggerLines: seq<Line>, notifierLines: seq<Line>, attached: seq<Listener>)
    ensures loggerLines == [TemperatureAt(25.0), TemperatureAt(-5.0)]
    ensures notifierLines == [BelowZero]
    ensures attached == []
  {
    var station, logger, notifier := WhileAttached();
    DetachBoth(logger, notifier);
    station.Detach(notifier);
    station.Detach(logger);
    station.SetTemperature(30.0);
    loggerLines := logger.printed;
    notifierLines := notifier.printed;
    attached := station.observers;
  }
}
