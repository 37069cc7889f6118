# Discovery dispatch, modelled in Dafny

This project models the dispatch core of Home Assistant's `discovery` component
(`homeassistant/components/discovery.py`). A network scanner reports each service
it finds by name. The component looks the name up in a fixed registry, makes sure
the owning component is set up, and fires `EVENT_PLATFORM_DISCOVERED` on the
event bus. Subscribers use `listen` to be called back for the services they care
about.

Layout:

- `python.dfy` (module `Python`): the Python values that flow through the
  helpers. These are None, strings, tuples and dicts. A dict is a class
  (`Dict`), because `load_platform` writes into the caller's dict in place.
  It then sends that same object on as the event's `discovered` value.
- `bus.dfy` (module `Bus`): `Hub` stands for `hass` as the helpers see it.
  It keeps one ordered log of effects: setup requests, standing for
  `bootstrap.setup_component`, and fired events, standing for `hass.bus.fire`.
  It also keeps the list of registered listeners. `PublishedEvents` and
  `SetupRequests` project the log.
- `discovery.dfy` (module `Discovery`): the registry `ServiceHandlers`, `listen`
  and its event filter, `discover`, `load_platform` and the routing body of
  `new_service_listener`.

Behaviour modelled as the code has it:

- At line 116 the callback rebinds `info` to the registry tuple. The scanner's
  metadata therefore never reaches an event (`RouteIgnoresScannerInfo`).
- At line 125 the arguments are positional. The setup `config` therefore lands
  in `discover`'s `component` parameter, the registry tuple lands in
  `discovered`, and no `hass_config` is passed.
- At line 127 the registry tuple is passed to `load_platform` as `info`. Line 94
  then assigns an item on a tuple, and Python raises `TypeError` before any
  setup call or event. The model returns `RaisedTypeError` and leaves the log
  unchanged. Every service with a platform takes this path.
- On line 94, `info` is written in place and not copied. The dispatched event
  carries the caller's own dict, so Dafny compares them by object identity.
- `discover` calls `setup_component` and ignores its result, so the model
  records only the request.

The strings `"service"`, `"discovered"` and `"platform_discovered"` (for
`ATTR_SERVICE`, `ATTR_DISCOVERED` and `EVENT_PLATFORM_DISCOVERED`) are defined in
`homeassistant/const.py`, which is not part of this model. The proofs use only
the fact that the two attribute names differ.

## Model

The registry table of lines 27-37 is the constant `Discovery.ServiceHandlers`, a map from service name to `Route`; its nine entries are copied unchanged.

| member | source | states |
|---|---|---|
| `Discovery.Route.AsValue` | homeassistant/components/discovery.py:27-37 | a registry entry is the Python 2-tuple whose first item is the component name and whose second item is the platform name, or None exactly when the entry has no platform (the value lines 125 and 127 pass on) |
| `Discovery.RegistryShape` | homeassistant/components/discovery.py:27-37 | every registered service has a non-empty component name; exactly `netgear_router` and `belkin_wemo` have no platform |
| `Discovery.ServiceTuple` | homeassistant/components/discovery.py:45-48 | a lone string becomes the one-element tuple of that string; any other collection becomes the tuple of its elements, in order |
| `Discovery.LoneStringMatchesWholeName` | homeassistant/components/discovery.py:45-48 | a lone string is matched as one whole service name, never as its characters: the filter accepts exactly `Str(name)`, and for a longer name not its first character |
| `Discovery.CollectionMatchesItsElements` | homeassistant/components/discovery.py:45-52 | a collection argument is matched element by element: a service matches iff it equals one of the collection's names |
| `Discovery.ContainsService` | homeassistant/components/discovery.py:52 | the tuple scan behind `in` is true iff the value is a string that occurs in the tuple |
| `Discovery.HandleDiscoveryEvent` | homeassistant/components/discovery.py:50-53 | at most one callback call per event; a call happens iff the data has a `service` key whose value is one of the requested strings; the call gets that service and the `discovered` value, or None when that key is absent |
| `Discovery.Listen` | homeassistant/components/discovery.py:40-55 | appends one listener for `EVENT_PLATFORM_DISCOVERED` over the normalised tuple and the callback; fires nothing and requests no setup |
| `Discovery.DiscoverData` | homeassistant/components/discovery.py:63-68 | the event data always has `service` equal to the argument; it has `discovered` iff that argument is not None, then with that value; it has no other key |
| `Discovery.DiscoverEffects` | homeassistant/components/discovery.py:58-70 | one `discover` call publishes exactly one `EVENT_PLATFORM_DISCOVERED` event; it requests a setup of `component` with `hass_config` iff `component` is not None, and that setup comes before the event |
| `Discovery.Discover` | homeassistant/components/discovery.py:58-70 | the hub's log grows by exactly those effects; its events grow by exactly that one event and its setup requests by at most that one; listeners are unchanged |
| `Discovery.TwoDiscoversKeepBoth` | homeassistant/components/discovery.py:58-70 | two consecutive `discover` calls add their two events in call order, none lost or repeated |
| `Discovery.ListenerSeesDiscover` | homeassistant/components/discovery.py:50-70 | a listener from `listen` gets the event of `discover` exactly when the service was requested; it is then called once, with the service and exactly the `discovered` argument (None when none was given) |
| `Discovery.LoadPlatformService` | homeassistant/components/discovery.py:96 | the fired service is `load_platform`, then `.`, then the component name |
| `Discovery.LoadPlatformServiceInjective` | homeassistant/components/discovery.py:96 | distinct components give distinct `load_platform.<component>` services |
| `Discovery.LoadPlatform` | homeassistant/components/discovery.py:73-97 | with info None it sends a fresh dict that is exactly `{load_platform: platform}`; with a dict it sets `load_platform` to `platform` in that same dict, overwriting any earlier value, keeps every other key, and sends that dict; in both cases the log grows by `discover`'s effects for `load_platform.<component>` with component `component`; any other `info` raises TypeError and changes nothing |
| `Discovery.LoadPlatformEffects` | homeassistant/components/discovery.py:84-97 | a completed `load_platform` first requests a setup of `component`, then publishes exactly one event `{service: load_platform.<component>, discovered: the sent dict}`; a listener for that service is called once with that dict |
| `Discovery.RouteService` | homeassistant/components/discovery.py:116-127 | an unknown service is ignored; a platform-less route goes to `discover` with the registry key as service, the registry tuple as `discovered`, `config` as `component` and no `hass_config`; a route with a platform goes to `load_platform` with the registry's own component and platform, the registry tuple as `info` and `config` |
| `Discovery.RouteIgnoresScannerInfo` | homeassistant/components/discovery.py:111-116 | the dispatch decision is the same whatever metadata the scanner reports |
| `Discovery.DiscoverPathEffects` | homeassistant/components/discovery.py:116-125 | a service routed to `discover` is `netgear_router` or `belkin_wemo`; its one event always carries `discovered` equal to the tuple `(component, None)`; a setup is requested for `config` iff `config` is not None |
| `Discovery.NewServiceListener` | homeassistant/components/discovery.py:111-127 | an unregistered service produces no event and no setup; a platform-less route adds exactly `discover`'s effects; a route with a platform raises TypeError with no event and no setup; listeners are unchanged |

## Left out

- The netdisco scanner, `SCAN_INTERVAL`, `start_discovery` and the one-shot start hook (lines 104, 130-136): they are an external library and I/O; the one-shot behaviour belongs to the bus.
- `threading.Lock` (lines 109, 113): concurrency; each callback is modelled as one sequential call.
- Logging (lines 102, 107, 114): it has no effect that the model observes.
- `bootstrap.setup_component` internals and its result: a setup is recorded as a log entry, and the call is assumed to return normally. If it raised, the event would not be fired, and on the `load_platform` path the caller's dict would already have been written at line 94; the model does not cover that case.
- Bus delivery itself, including listener scheduling and ordering: the model gives the filter that one listener applies to one event, not the bus's loop over its listeners.
- `Discovery.Listen`: a collection argument is modelled as a sequence of strings; iterables with non-string elements are not modelled, and neither is a non-iterable argument, for which `tuple(service)` raises TypeError.
- `Discovery.ContainsService`: Python equality is modelled for strings only; a non-string never equals a string, as in Python.
- Python dict key order and non-string dict keys are not modelled; dicts are maps from strings.
- Copying `info`, forwarding the scanner's metadata, and a successful event on the platform path of the callback are not modelled, because the code does none of them.
