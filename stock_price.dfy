/**
 * The observer demo's `StockPrice`: observers subscribe to a list that the
 * subject shares with the `Unsubscriber` it hands back; disposing the
 * unsubscriber removes the observer from that same list, once.  An
 * observer's `onNext` action is represented by the values it receives, in
 * order; its optional error and completion actions by how often they ran.
 */
module StockPrice {
  import opened Seqs

  class Observer {
    /** Every value passed to `OnNext`, in order. */
    var received: seq<real>
    /** Whether `onError` and `onCompleted` were given (they default to `null`). */
    const hasOnError: bool
    const hasOnCompleted: bool
    var errorCalls: nat
    var completedCalls: nat

    /** `Observer<T>.Create`. */
    constructor Create(hasOnError: bool, hasOnCompleted: bool)
      ensures received == [] && errorCalls == 0 && completedCalls == 0
      ensures this.hasOnError == hasOnError && this.hasOnCompleted == hasOnCompleted
    {
      received := [];
      this.hasOnError := hasOnError;
      this.hasOnCompleted := hasOnCompleted;
      errorCalls := 0;
      completedCalls := 0;
    }

    method OnNext(value: real)
      modifies this`received
      ensures received == old(received) + [value]
    {
      received := received + [value];
    }

    /** `_onError?.Invoke(error)`: nothing happens without an error action. */
    method OnError()
      modifies this`errorCalls
      ensures errorCalls == old(errorCalls) + (if hasOnError then 1 else 0)
    {
      if hasOnError {
        errorCalls := errorCalls + 1;
      }
    }

    /** `_onCompleted?.Invoke()`: nothing happens without a completion action. */
    method OnCompleted()
      modifies this`completedCalls
      ensures completedCalls == old(completedCalls) + (if hasOnCompleted then 1 else 0)
    {
      if hasOnCompleted {
        completedCalls := completedCalls + 1;
      }
    }
  }

  /** The `List<IObserver<decimal>>` shared by the subject and its unsubscribers. */
  class ObserverList {
    var items: seq<Observer>

    constructor()
      ensures items == []
    {
      items := [];
    }
  }

  /** What `observer` receives when `price` is sent to each of `observers` in turn. */
  function Delivered(observers: seq<Observer>, observer: Observer, price: real): seq<real> {
    if observers == [] then []
    else
      var last := observers[|observers| - 1];
      Delivered(observers[..|observers| - 1], observer, price) + (if last == observer then [price] else [])
  }

  /** An observer receives the price once per time it is subscribed, and not at all when it is not. */
  lemma {:induction false} DeliveredOncePerSubscription(observers: seq<Observer>, observer: Observer, price: real)
    ensures Delivered(observers, observer, price) == Repeat(price, Count(observers, observer))
  {
    if observers != [] {
      var front, last := observers[..|observers| - 1], observers[|observers| - 1];
      DeliveredOncePerSubscription(front, observer, price);
      assert observers == front + [last];
      CountAppend(front, [last], observer);
      assert [last][1..] == [];
    }
  }

  /** One more value for an observer that has received `delivered` since `before`. */
  method Push(observer: Observer, ghost before: seq<real>, ghost delivered: seq<real>, price: real)
    requires observer.received == before + delivered
    modifies observer`received
    ensures observer.received == before + (delivered + [price])
  {
    observer.OnNext(price);
  }

  class StockPrice {
    const observers: ObserverList

    constructor()
      ensures fresh(observers) && observers.items == []
    {
      observers := new ObserverList();
    }

    /** Appends the observer and returns an unsubscriber holding the same list. */
    method Subscribe(observer: Observer) returns (unsubscriber: Unsubscriber)
      modifies observers
      ensures observers.items == old(observers.items) + [observer]
      ensures fresh(unsubscriber) && unsubscriber.observers == observers
      ensures unsubscriber.observer == observer && !unsubscriber.disposed
    {
      observers.items := observers.items + [observer];
      unsubscriber := new Unsubscriber(observers, observer);
    }

    /**
     * `ForEach(observer => observer.OnNext(price))`: the observers are
     * called in subscription order (returned as `notified`), each as often
     * as it is subscribed.
     */
    method UpdatePrice(price: real) returns (notified: seq<Observer>)
      modifies set o | o in observers.items :: o`received
      ensures notified == observers.items
      ensures forall o :: o in notified ==> o.received == old(o.received) + Delivered(notified, o, price)
    {
      var items := observers.items;
      for i := 0 to |items|
        invariant forall o :: o in items ==> o.received == old(o.received) + Delivered(items[..i], o, price)
      {
        var observer := items[i];
        forall o | o in items
          ensures Delivered(items[..i + 1], o, price) == Delivered(items[..i], o, price) + (if observer == o then [price] else [])
        {
          assert items[..i + 1][..i] == items[..i];
        }
        Push(observer, old(observer.received), Delivered(items[..i], observer, price), price);
        forall o | o in items
          ensures o.received == old(o.received) + Delivered(items[..i + 1], o, price)
        {
        }
      }
      assert items[..|items|] == items;
      notified := items;
    }
  }

  class Unsubscriber {
    const observers: ObserverList
    const observer: Observer
    var disposed: bool

    constructor(observers: ObserverList, observer: Observer)
      ensures this.observers == observers && this.observer == observer && !disposed
    {
      this.observers := observers;
      this.observer := observer;
      disposed := false;
    }

    /** `Dispose(bool)`: once only; the list is touched only when called from `Dispose()`. */
    method DisposeCore(disposing: bool)
      modifies this`disposed, observers
      ensures disposed
      ensures observers.items ==
        if !old(disposed) && disposing then RemoveFirst(old(observers.items), observer) else old(observers.items)
    {
      if disposed {
        return;
      }
      if disposing {
        observers.items := RemoveFirst(observers.items, observer);
      }
      disposed := true;
    }

    /** `Dispose()`: removes the first occurrence of the observer the first time, and does nothing afterwards. */
    method Dispose()
      modifies this`disposed, observers
      ensures disposed
      ensures observers.items == if old(disposed) then old(observers.items) else RemoveFirst(old(observers.items), observer)
    {
      DisposeCore(true);
    }

    /** The finaliser `~Unsubscriber`: marks the unsubscriber disposed without touching the list. */
    method Finalize()
      modifies this`disposed, observers
      ensures disposed && observers.items == old(observers.items)
    {
      DisposeCore(false);
    }
  }

  /** Disposing twice removes one subscription only: the second call changes nothing. */
  method DisposeTwice() returns (afterFirst: seq<Observer>, afterSecond: seq<Observer>, observer: Observer)
    ensures afterFirst == afterSecond == [observer]
  {
    var stock := new StockPrice();
    observer := new Observer.Create(false, false);
    var first := stock.Subscribe(observer);
    var second := stock.Subscribe(observer);
    first.Dispose();
    afterFirst := stock.observers.items;
    first.Dispose();
    afterSecond := stock.observers.items;
  }

  /**
   * The test: while subscribed the observer sees 100 and then 200; after
   * the `using` block disposes the subscription, 300 no longer reaches it.
   */
  method StockPriceScenario() returns (first: real, second: real, afterDispose: real)
    ensures first == 100.0 && second == 200.0 && afterDispose == 200.0
  {
    var stock := new StockPrice();
    var observer := new Observer.Create(true, true);
    var unsubscriber := stock.Subscribe(observer);
    assert stock.observers.items == [observer];
    var notified := stock.UpdatePrice(100.0);
    assert Delivered(notified, observer, 100.0) == [100.0] by {
      assert notified[..0] == [];
    }
    first := observer.received[|observer.received| - 1];
    notified := stock.UpdatePrice(200.0);
    assert Delivered(notified, observer, 200.0) == [200.0] by {
      assert notified[..0] == [];
    }
    second := observer.received[|observer.received| - 1];
    unsubscriber.Dispose();
    assert stock.observers.items == [];
    notified := stock.UpdatePrice(300.0);
    afterDispose := observer.received[|observer.received| - 1];
  }
}
