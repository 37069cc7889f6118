/**
 * The dispatch logic of the discovery component: a fixed registry from
 * discovered service names to (component, platform) routes, the `listen`
 * subscription filter, the `discover` and `load_platform` helpers that set up
 * a component and fire EVENT_PLATFORM_DISCOVERED, and the routing body of the
 * scanner's callback.
 */
module Discovery {
  import opened Python
  import opened Bus

  const LoadPlatformKey := "load_platform"
  const ServiceWemo := "belkin_wemo"
  const ServiceNetgear := "netgear_router"

  // Names imported from homeassistant.const.
  const AttrService := "service"
  const AttrDiscovered := "discovered"
  const EventPlatformDiscovered := "platform_discovered"

  /** A registry entry: the component that handles a service and, when it is
      handled by one of that component's platforms, the platform. */
  datatype Route = Route(component: string, platform: Option<string>) {
    /** The entry as the Python tuple `(component, platform-or-None)`. */
    function AsValue(): (v: Value)
      ensures v.Tuple? && |v.items| == 2 && v.items[0] == Str(component)
      ensures v.items[1] == NoneValue <==> platform.None?
      ensures platform.Some? ==> v.items[1] == Str(platform.value)
    {
      Tuple([Str(component), if platform.Some? then Str(platform.value) else NoneValue])
    }
  }

  const ServiceHandlers: map<string, Route> := map[
    ServiceNetgear := Route("device_tracker", None),
    ServiceWemo := Route("wemo", None),
    "philips_hue" := Route("light", Some("hue")),
    "google_cast" := Route("media_player", Some("cast")),
    "panasonic_viera" := Route("media_player", Some("panasonic_viera")),
    "plex_mediaserver" := Route("media_player", Some("plex")),
    "roku" := Route("media_player", Some("roku")),
    "sonos" := Route("media_player", Some("sonos")),
    "logitech_mediaserver" := Route("media_player", Some("squeezebox"))
  ]

  /** Every registered service is handled by a component with a non-empty
      name, and exactly the Netgear and WeMo services have no platform. */
  lemma RegistryShape(service: string)
    requires service in ServiceHandlers
    ensures ServiceHandlers[service].component != ""
    ensures ServiceHandlers[service].platform.Some? ==> ServiceHandlers[service].platform.value != ""
    ensures ServiceHandlers[service].platform.None? <==> service == ServiceNetgear || service == ServiceWemo
  {
  }

  // ---------------------------------------------------------------------
  // listen

  /** What a subscriber passes to `listen`: one service name, or any other
      iterable of service names (given by its elements in iteration order). */
  datatype ServiceArg = Single(name: string) | Many(names: seq<string>)

  /** The tuple `listen` captures: a lone string becomes a one-element tuple,
      any other iterable the tuple of its elements. */
  function ServiceTuple(arg: ServiceArg): (t: seq<string>)
    ensures arg.Single? ==> |t| == 1 && t[0] == arg.name
    ensures arg.Many? ==> |t| == |arg.names| && forall i :: 0 <= i < |t| ==> t[i] == arg.names[i]
  {
    match arg
    case Single(name) => [name]
    case Many(names) => names
  }

  /** Python's `v in services` for a tuple of strings: a scan that compares
      `v` with each element; a value that is not a string never equals one. */
  function ContainsService(services: seq<string>, v: Value): (r: bool)
    ensures r <==> v.Str? && v.s in services
  {
    if services == [] then false
    else (v.Str? && v.s == services[0]) || ContainsService(services[1..], v)
  }

  /** The callback call a listener makes: `callback(service, discovered)`. */
  datatype Invocation = Invocation(callback: CallbackId, service: Value, discovered: Value)

  /** The body of `discovery_event_listener`: at most one callback call per
      event, made exactly when the event names one of the listener's services. */
  function HandleDiscoveryEvent(l: Listener, data: map<string, Value>): (r: Option<Invocation>)
    ensures r.Some? <==> AttrService in data && data[AttrService].Str? && data[AttrService].s in l.services
    ensures r.Some? ==> r.value.callback == l.callback && r.value.service == data[AttrService]
    ensures r.Some? && AttrDiscovered in data ==> r.value.discovered == data[AttrDiscovered]
    ensures r.Some? && AttrDiscovered !in data ==> r.value.discovered == NoneValue
  {
    if AttrService in data && ContainsService(l.services, data[AttrService]) then
      Some(Invocation(l.callback, data[AttrService], GetOrNone(data, AttrDiscovered)))
    else
      None
  }

  /** A lone string is one service name, never a collection of characters:
      the listener matches that whole name and nothing else, not even one of
      its characters. */
  lemma LoneStringMatchesWholeName(name: string, v: Value)
    ensures ContainsService(ServiceTuple(Single(name)), v) <==> v == Str(name)
    ensures |name| > 1 ==> !ContainsService(ServiceTuple(Single(name)), Str(name[..1]))
  {
  }

  /** A collection is matched element by element: a string event service
      matches exactly when it is one of the collection's names. */
  lemma CollectionMatchesItsElements(names: seq<string>, s: string)
    ensures ContainsService(ServiceTuple(Many(names)), Str(s)) <==> exists i :: 0 <= i < |names| && names[i] == s
  {
  }

  /** `listen(hass, service, callback)`: registers, for
      EVENT_PLATFORM_DISCOVERED, a listener over the normalised service tuple. */
  method Listen(hub: Hub, service: ServiceArg, callback: CallbackId)
    modifies hub
    ensures hub.listeners == old(hub.listeners) + [Listener(EventPlatformDiscovered, ServiceTuple(service), callback)]
    ensures hub.effects == old(hub.effects)
  {
    var services: seq<string>;
    if service.Single? {
      services := [service.name];
    } else {
      services := service.names;
    }
    hub.Listen(Listener(EventPlatformDiscovered, services, callback));
  }

  // ---------------------------------------------------------------------
  // discover

  /** The event data `discover` builds: `service` always, `discovered` only
      when it was given, and nothing else. */
  function DiscoverData(service: string, discovered: Value): (data: map<string, Value>)
    ensures AttrService in data && data[AttrService] == Str(service)
    ensures AttrDiscovered in data <==> discovered != NoneValue
    ensures AttrDiscovered in data ==> data[AttrDiscovered] == discovered
    ensures data.Keys <= {AttrService, AttrDiscovered}
  {
    if discovered != NoneValue then
      map[AttrService := Str(service), AttrDiscovered := discovered]
    else
      map[AttrService := Str(service)]
  }

  /** What one `discover` call does to the outside world, in order. */
  function DiscoverEffects(service: string, discovered: Value, component: Value, hassConfig: Value): (r: seq<Effect>)
    ensures PublishedEvents(r) == [Event(EventPlatformDiscovered, DiscoverData(service, discovered))]
    ensures SetupRequests(r) == if component != NoneValue then [Setup(component, hassConfig)] else []
    ensures r[|r| - 1] == Published(Event(EventPlatformDiscovered, DiscoverData(service, discovered)))
    ensures forall i :: 0 <= i < |r| - 1 ==> r[i] == Setup(component, hassConfig)
  {
    var fire := [Published(Event(EventPlatformDiscovered, DiscoverData(service, discovered)))];
    if component != NoneValue then [Setup(component, hassConfig)] + fire else fire
  }

  /** `discover(hass, service, discovered, component, hass_config)`. */
  method Discover(hub: Hub, service: string, discovered: Value, component: Value, hassConfig: Value)
    modifies hub
    ensures hub.effects == old(hub.effects) + DiscoverEffects(service, discovered, component, hassConfig)
    ensures PublishedEvents(hub.effects)
         == PublishedEvents(old(hub.effects)) + [Event(EventPlatformDiscovered, DiscoverData(service, discovered))]
    ensures SetupRequests(hub.effects)
         == SetupRequests(old(hub.effects)) + if component != NoneValue then [Setup(component, hassConfig)] else []
    ensures hub.listeners == old(hub.listeners)
  {
    ghost var before := hub.effects;
    if component != NoneValue {
      hub.SetupComponent(component, hassConfig);
    }
    var data := map[AttrService := Str(service)];
    if discovered != NoneValue {
      data := data[AttrDiscovered := discovered];
    }
    hub.Fire(Event(EventPlatformDiscovered, data));
    ghost var added := DiscoverEffects(service, discovered, component, hassConfig);
    assert hub.effects == before + added;
    PublishedEventsAppend(before, added);
    SetupRequestsAppend(before, added);
  }

  /** Consecutive `discover` calls each add their own event to the log, in
      call order, with none lost or repeated. */
  lemma TwoDiscoversKeepBoth(log: seq<Effect>,
                             s1: string, d1: Value, c1: Value, h1: Value,
                             s2: string, d2: Value, c2: Value, h2: Value)
    ensures PublishedEvents(log + DiscoverEffects(s1, d1, c1, h1) + DiscoverEffects(s2, d2, c2, h2))
         == PublishedEvents(log) + [Event(EventPlatformDiscovered, DiscoverData(s1, d1)),
                                    Event(EventPlatformDiscovered, DiscoverData(s2, d2))]
  {
    var e1, e2 := DiscoverEffects(s1, d1, c1, h1), DiscoverEffects(s2, d2, c2, h2);
    PublishedEventsAppend(log + e1, e2);
    PublishedEventsAppend(log, e1);
  }

  /** A listener registered by `listen` and the event `discover` fires: the
      callback is called once, with the service and exactly the `discovered`
      argument (None when none was given), iff the service was requested. */
  lemma ListenerSeesDiscover(arg: ServiceArg, callback: CallbackId, service: string, discovered: Value)
    ensures HandleDiscoveryEvent(Listener(EventPlatformDiscovered, ServiceTuple(arg), callback),
                                 DiscoverData(service, discovered))
         == if service in ServiceTuple(arg) then Some(Invocation(callback, Str(service), discovered)) else None
  {
  }

  // ---------------------------------------------------------------------
  // load_platform

  /** How a helper call ends: normally, or with Python's TypeError. */
  datatype Outcome = Returned | RaisedTypeError

  /** The service name `load_platform` fires under. */
  function LoadPlatformService(component: string): (s: string)
    ensures |s| == |LoadPlatformKey| + 1 + |component|
    ensures s[..|LoadPlatformKey|] == LoadPlatformKey && s[|LoadPlatformKey|] == '.'
    ensures s[|LoadPlatformKey| + 1..] == component
  {
    LoadPlatformKey + "." + component
  }

  /** Distinct components give distinct load-platform services, so a listener
      for one component's platforms never sees another's. */
  lemma LoadPlatformServiceInjective(c1: string, c2: string)
    ensures LoadPlatformService(c1) == LoadPlatformService(c2) <==> c1 == c2
  {
  }

  /** `load_platform(hass, component, platform, info, hass_config)`. With no
      info, a fresh dict `{load_platform: platform}` is sent; with a dict, that
      same dict is written in place and sent; any other value makes the item
      assignment raise TypeError before anything happens. `sent` names the
      value the event carries as `discovered`. */
  method LoadPlatform(hub: Hub, component: string, platform: string, info: Value, hassConfig: Value)
    returns (outcome: Outcome, ghost sent: Value)
    modifies hub, if info.DictRef? then {info.dict} else {}
    ensures outcome == Returned <==> info.NoneValue? || info.DictRef?
    ensures info.NoneValue? ==>
      sent.DictRef? && fresh(sent.dict) && sent.dict.entries == map[LoadPlatformKey := Str(platform)]
    ensures info.DictRef? ==>
      sent == info && info.dict.entries == old(info.dict.entries)[LoadPlatformKey := Str(platform)]
    ensures outcome == Returned ==>
      hub.effects == old(hub.effects) + DiscoverEffects(LoadPlatformService(component), sent, Str(component), hassConfig)
    ensures outcome == RaisedTypeError ==> hub.effects == old(hub.effects)
    ensures hub.listeners == old(hub.listeners)
  {
    var discovered := info;
    if info.NoneValue? {
      var d := new Dict(map[LoadPlatformKey := Str(platform)]);
      discovered := DictRef(d);
    } else if info.DictRef? {
      info.dict.entries := info.dict.entries[LoadPlatformKey := Str(platform)];
    } else {
      return RaisedTypeError, info;
    }
    sent := discovered;
    Discover(hub, LoadPlatformService(component), discovered, Str(component), hassConfig);
    outcome := Returned;
  }

  /** What a completed `load_platform` call does: the component is set up
      first, then exactly one event is fired, under `load_platform.<component>`,
      carrying the sent dict, which a listener for that service receives. */
  lemma LoadPlatformEffects(component: string, d: Dict, hassConfig: Value, callback: CallbackId)
    ensures var r := DiscoverEffects(LoadPlatformService(component), DictRef(d), Str(component), hassConfig);
      && r[0] == Setup(Str(component), hassConfig)
      && SetupRequests(r) == [Setup(Str(component), hassConfig)]
      && PublishedEvents(r) == [Event(EventPlatformDiscovered,
                                      map[AttrService := Str(LoadPlatformService(component)), AttrDiscovered := DictRef(d)])]
    ensures HandleDiscoveryEvent(Listener(EventPlatformDiscovered, [LoadPlatformService(component)], callback),
                                 DiscoverData(LoadPlatformService(component), DictRef(d)))
         == Some(Invocation(callback, Str(LoadPlatformService(component)), DictRef(d)))
  {
  }

  // ---------------------------------------------------------------------
  // new_service_listener

  /** The call the scanner's callback makes for one report. */
  datatype Dispatch =
    | Ignore
    | ToDiscover(service: string, discovered: Value, componentArg: Value, hassConfig: Value)
    | ToLoadPlatform(component: string, platform: string, info: Value, hassConfig: Value)

  /** The routing decision of `new_service_listener(service, info)` under the
      setup `config`. The name `info` is rebound to the registry's tuple, so
      that tuple, not the scanner's metadata, is what is passed on; on the
      `discover` path the arguments are positional, so `config` lands in the
      `component` parameter and no `hass_config` is given. */
  function RouteService(service: string, info: Value, config: Value): (d: Dispatch)
    ensures d.Ignore? <==> service !in ServiceHandlers
    ensures d.ToDiscover? ==>
      && service in ServiceHandlers && ServiceHandlers[service].platform.None?
      && d == ToDiscover(service, Tuple([Str(ServiceHandlers[service].component), NoneValue]), config, NoneValue)
    ensures d.ToLoadPlatform? ==>
      && service in ServiceHandlers && ServiceHandlers[service] == Route(d.component, Some(d.platform))
      && d.info == ServiceHandlers[service].AsValue() && d.hassConfig == config
    ensures service in ServiceHandlers ==> (d.ToDiscover? <==> ServiceHandlers[service].platform.None?)
  {
    var found := Lookup(ServiceHandlers, service);
    if found.None? then
      Ignore
    else
      var Route(component, platform) := found.value;
      if platform.None? then
        ToDiscover(service, found.value.AsValue(), config, NoneValue)
      else
        ToLoadPlatform(component, platform.value, found.value.AsValue(), config)
  }

  /** The scanner's own metadata never influences the dispatch. */
  lemma RouteIgnoresScannerInfo(service: string, info1: Value, info2: Value, config: Value)
    ensures RouteService(service, info1, config) == RouteService(service, info2, config)
  {
  }

  /** On the `discover` path the event always carries `discovered` (the
      registry tuple, never None), and a setup is requested for `config`
      exactly when `config` is not None. */
  lemma DiscoverPathEffects(service: string, info: Value, config: Value)
    requires RouteService(service, info, config).ToDiscover?
    ensures var d := RouteService(service, info, config);
      && (service == ServiceNetgear || service == ServiceWemo)
      && PublishedEvents(DiscoverEffects(d.service, d.discovered, d.componentArg, d.hassConfig))
         == [Event(EventPlatformDiscovered,
                   map[AttrService := Str(service),
                       AttrDiscovered := Tuple([Str(ServiceHandlers[service].component), NoneValue])])]
      && SetupRequests(DiscoverEffects(d.service, d.discovered, d.componentArg, d.hassConfig))
         == if config != NoneValue then [Setup(config, NoneValue)] else []
  {
  }

  /** `new_service_listener(service, info)` with the lock and logging left
      out: an unknown service changes nothing; a platform-less route calls
      `discover`; a route with a platform calls `load_platform` with the
      registry tuple as `info`, whose item assignment raises TypeError before
      any setup or event. */
  method NewServiceListener(hub: Hub, service: string, info: Value, config: Value) returns (outcome: Outcome)
    modifies hub
    ensures hub.listeners == old(hub.listeners)
    ensures match RouteService(service, info, config)
      case Ignore => outcome == Returned && hub.effects == old(hub.effects)
      case ToDiscover(s, disc, comp, cfg) =>
        outcome == Returned && hub.effects == old(hub.effects) + DiscoverEffects(s, disc, comp, cfg)
      case ToLoadPlatform(_, _, _, _) => outcome == RaisedTypeError && hub.effects == old(hub.effects)
  {
    var found := Lookup(ServiceHandlers, service);
    if found.None? {
      return Returned;
    }
    var component, platform := found.value.component, found.value.platform;
    if platform.None? {
      Discover(hub, service, found.value.AsValue(), config, NoneValue);
      outcome := Returned;
    } else {
      ghost var sent;
      outcome, sent := LoadPlatform(hub, component, platform.value, found.value.AsValue(), config);
    }
  }
}
