/**
 * The property observer: a `FormField` raises `PropertyChanged` with the
 * property name "Value" every time its value is set, even to the value it
 * already holds.  The event is a multicast delegate: `+=` appends a handler
 * to its invocation list, `-=` removes the last occurrence of that handler,
 * and raising the event calls the list in order.  A handler here records
 * each call as the property name together with the sender's value at that
 * moment, which is what the test's handler reads.
 */
module FormField {
  import opened Seqs
  import opened Outcomes

  /** `nameof(Value)`. */
  const ValueProperty := "Value"

  /** One call of a handler: the event's property name, and the sender's value when it was raised. */
  datatype PropertyChange = PropertyChange(propertyName: string, senderValue: string)

  /** `Delegate.Remove`: drops the last occurrence of `x`, if any. */
  function RemoveLast<T(==)>(s: seq<T>, x: T): (r: seq<T>)
    ensures x !in s ==> r == s
    ensures x in s ==> |r| == |s| - 1
    ensures multiset(r) == multiset(s) - multiset{x}
  {
    if s == [] then []
    else
      var front, last := s[..|s| - 1], s[|s| - 1];
      assert s == front + [last];
      assert multiset(s) == multiset(front) + multiset{last};
      if last == x then front
      else
        assert multiset(s) - multiset{x} == (multiset(front) - multiset{x}) + multiset{last};
        RemoveLast(front, x) + [last]
  }

  /** Unsubscribing right after subscribing restores the invocation list. */
  lemma RemoveLastUndoesAppend<T>(s: seq<T>, x: T)
    ensures RemoveLast(s + [x], x) == s
  {
    assert (s + [x])[..|s|] == s;
  }

  /**
   * The test's `currentValue`: the sender's value at the last call whose
   * property name is "Value", or `initial` when there was none.
   */
  function CurrentValue(received: seq<PropertyChange>, initial: Option<string>): Option<string> {
    if received == [] then initial
    else
      var last := received[|received| - 1];
      if last.propertyName == ValueProperty then Some(last.senderValue)
      else CurrentValue(received[..|received| - 1], initial)
  }

  /** After `n` more calls naming "Value", the current value is theirs when `n > 0`, and unchanged when `n == 0`. */
  lemma {:induction false} CurrentValueAfter(received: seq<PropertyChange>, initial: Option<string>, value: string, n: nat)
    ensures CurrentValue(received + Repeat(PropertyChange(ValueProperty, value), n), initial)
      == if n == 0 then CurrentValue(received, initial) else Some(value)
  {
    var calls := received + Repeat(PropertyChange(ValueProperty, value), n);
    if n == 0 {
      assert calls == received;
    } else {
      assert calls[|calls| - 1] == PropertyChange(ValueProperty, value);
    }
  }

  class Handler {
    /** Every call, in order. */
    var received: seq<PropertyChange>

    constructor()
      ensures received == []
    {
      received := [];
    }

    method Invoke(change: PropertyChange)
      modifies this
      ensures received == old(received) + [change]
    {
      received := received + [change];
    }
  }

  /** One more call of a handler that has already received `n` copies of `change` since `before`. */
  method Feed(handler: Handler, ghost before: seq<PropertyChange>, ghost n: nat, change: PropertyChange)
    requires handler.received == before + Repeat(change, n)
    modifies handler
    ensures handler.received == before + Repeat(change, n + 1)
  {
    handler.Invoke(change);
    assert before + Repeat(change, n) + [change] == before + (Repeat(change, n) + [change]);
  }

  class FormField {
    var value: string
    /** The `PropertyChanged` invocation list; empty is the `null` event. */
    var propertyChanged: seq<Handler>

    constructor(initialValue: string)
      ensures value == initialValue && propertyChanged == []
    {
      value := initialValue;
      propertyChanged := [];
    }

    /** The `Value` getter. */
    function Value(): string
      reads this
    {
      value
    }

    /** `PropertyChanged += handler`. */
    method Subscribe(handler: Handler)
      modifies this`propertyChanged
      ensures propertyChanged == old(propertyChanged) + [handler]
    {
      propertyChanged := propertyChanged + [handler];
    }

    /** `PropertyChanged -= handler`: the last subscription of that handler goes; none is a no-op. */
    method Unsubscribe(handler: Handler)
      modifies this`propertyChanged
      ensures propertyChanged == RemoveLast(old(propertyChanged), handler)
    {
      propertyChanged := RemoveLast(propertyChanged, handler);
    }

    /**
     * `PropertyChanged?.Invoke(this, …)`: every handler is called in
     * subscription order, once per subscription, and sees the current value.
     */
    method OnPropertyChanged(propertyName: string)
      modifies set h | h in propertyChanged
      ensures forall h: Handler :: h in propertyChanged ==>
        h.received == old(h.received) + Repeat(PropertyChange(propertyName, value), Count(propertyChanged, h))
    {
      var handlers := propertyChanged;
      var change := PropertyChange(propertyName, value);
      for i := 0 to |handlers|
        invariant forall h: Handler :: h in handlers ==>
          h.received == old(h.received) + Repeat(change, Count(handlers[..i], h))
      {
        var handler := handlers[i];
        forall h: Handler | h in handlers
          ensures Count(handlers[..i + 1], h) == Count(handlers[..i], h) + (if handler == h then 1 else 0)
        {
          assert handlers[..i + 1] == handlers[..i] + [handler];
          CountAppend(handlers[..i], [handler], h);
          assert [handler][1..] == [];
        }
        Feed(handler, old(handler.received), Count(handlers[..i], handler), change);
        forall h: Handler | h in handlers
          ensures h.received == old(h.received) + Repeat(change, Count(handlers[..i + 1], h))
        {
        }
      }
      assert handlers[..|handlers|] == handlers;
    }

    /** The `Value` setter: stores the value, then raises the event for "Value", whether or not the value changed. */
    method SetValue(value: string)
      modifies this`value, set h | h in propertyChanged
      ensures this.value == value && propertyChanged == old(propertyChanged)
      ensures forall h: Handler :: h in propertyChanged ==>
        h.received == old(h.received) + Repeat(PropertyChange(ValueProperty, value), Count(propertyChanged, h))
    {
      this.value := value;
      OnPropertyChanged(ValueProperty);
    }
  }

  /**
   * The test: a handler subscribed while "new value" is set sees it; after
   * it is unsubscribed, setting "another value" leaves it on "new value",
   * while the field itself holds "another value".
   */
  method FormFieldScenario() returns (whileSubscribed: Option<string>, afterUnsubscribe: Option<string>, fieldValue: string)
    ensures whileSubscribed == Some("new value")
    ensures afterUnsubscribe == Some("new value")
    ensures fieldValue == "another value"
  {
    var field := new FormField("initial value");
    var handler := new Handler();
    field.Subscribe(handler);
    field.SetValue("new value");
    assert Count([handler], handler) == 1 by {
      assert [handler][1..] == [];
    }
    CurrentValueAfter([], None, "new value", 1);
    whileSubscribed := CurrentValue(handler.received, None);
    field.Unsubscribe(handler);
    RemoveLastUndoesAppend([], handler);
    assert field.propertyChanged == [];
    field.SetValue("another value");
    afterUnsubscribe := CurrentValue(handler.received, None);
    fieldValue := field.Value();
  }
}
