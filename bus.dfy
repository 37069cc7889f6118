/**
 * The two collaborators the discovery helpers drive, abstracted as a log:
 * `hass.bus` (events fired, listeners registered) and
 * `bootstrap.setup_component` (components asked to be set up). Setup requests
 * and fired events share one log so that their relative order is visible.
 */
module Bus {
  import opened Python

  datatype Event = Event(eventType: string, data: map<string, Value>)

  /** One observable effect on the outside world, in the order it happened. */
  datatype Effect =
    | Setup(component: Value, config: Value)
    | Published(event: Event)

  /** Opaque identity of a callback a subscriber hands to `listen`. */
  type CallbackId = nat

  /** The listener that `listen` registers: the closure over the service tuple
      and the subscriber's callback. */
  datatype Listener = Listener(eventType: string, services: seq<string>, callback: CallbackId)

  /** The events of a log, in order. */
  function PublishedEvents(log: seq<Effect>): (r: seq<Event>)
    ensures |r| <= |log|
    ensures forall e :: e in r ==> Published(e) in log
  {
    if log == [] then []
    else (if log[0].Published? then [log[0].event] else []) + PublishedEvents(log[1..])
  }

  /** The setup requests of a log, in order, as (component, config) effects. */
  function SetupRequests(log: seq<Effect>): (r: seq<Effect>)
    ensures |r| <= |log|
    ensures forall x :: x in r ==> x.Setup? && x in log
  {
    if log == [] then []
    else (if log[0].Setup? then [log[0]] else []) + SetupRequests(log[1..])
  }

  lemma {:induction false} PublishedEventsAppend(a: seq<Effect>, b: seq<Effect>)
    ensures PublishedEvents(a + b) == PublishedEvents(a) + PublishedEvents(b)
  {
    if a != [] {
      assert (a + b)[1..] == a[1..] + b;
      PublishedEventsAppend(a[1..], b);
    } else {
      assert a + b == b;
    }
  }

  lemma {:induction false} SetupRequestsAppend(a: seq<Effect>, b: seq<Effect>)
    ensures SetupRequests(a + b) == SetupRequests(a) + SetupRequests(b)
  {
    if a != [] {
      assert (a + b)[1..] == a[1..] + b;
      SetupRequestsAppend(a[1..], b);
    } else {
      assert a + b == b;
    }
  }

  /** The home-assistant object as far as the discovery helpers see it. */
  class Hub {
    var effects: seq<Effect>
    var listeners: seq<Listener>

    constructor ()
      ensures effects == [] && listeners == []
    {
      effects := [];
      listeners := [];
    }

    /** `hass.bus.fire(event_type, data)`; listener delivery is not modelled. */
    method Fire(e: Event)
      modifies this
      ensures effects == old(effects) + [Published(e)]
      ensures listeners == old(listeners)
    {
      effects := effects + [Published(e)];
    }

    /** `bootstrap.setup_component(hass, component, config)`; its result and
        its internals are not modelled. */
    method SetupComponent(component: Value, config: Value)
      modifies this
      ensures effects == old(effects) + [Setup(component, config)]
      ensures listeners == old(listeners)
    {
      effects := effects + [Setup(component, config)];
    }

    /** `hass.bus.listen(event_type, listener)`. */
    method Listen(l: Listener)
      modifies this
      ensures listeners == old(listeners) + [l]
      ensures effects == old(effects)
    {
      listeners := listeners + [l];
    }
  }
}
