/**
 * The per-device agent: the device handle, its connection-status token, a service cache,
 * a characteristic cache and the table of notification subscriptions. Both lookups fill
 * their cache lazily: only on a miss is the device asked, and only the requested UUID is cached.
 */
module DeviceAgent {
  import opened Common
  import opened WinRT
  import BleUtils

  /** (service UUID text, characteristic UUID text): a characteristic UUID alone is not unique. */
  datatype SubscriptionKey = SubscriptionKey(serviceUuid: string, characteristicUuid: string)

  /** The characteristic whose ValueChanged handler is registered, and its registration token. */
  datatype Subscription = Subscription(characteristic: GattCharacteristic, token: EventToken)

  /** The fields of an agent, as one value. */
  datatype AgentState = AgentState(
    device: Option<BluetoothLEDevice>,
    connectionStatusChangedToken: EventToken,
    gattServices: map<string, GattDeviceService>,
    gattCharacteristics: map<string, GattCharacteristic>,
    subscribedCharacteristicsAndTokens: map<SubscriptionKey, Subscription>)

  /** The cache key of an enumerated service or characteristic: its UUID through GuidToString. */
  function ServiceKey(s: GattDeviceService): string {
    BleUtils.GuidToString(s.uuid)
  }

  function CharacteristicKey(c: GattCharacteristic): string {
    BleUtils.GuidToString(c.uuid)
  }

  /** Every cached handle is stored under the text of its own UUID. */
  predicate CachesKeyed(s: AgentState) {
    && (forall k | k in s.gattServices :: ServiceKey(s.gattServices[k]) == k)
    && (forall k | k in s.gattCharacteristics :: CharacteristicKey(s.gattCharacteristics[k]) == k)
    && (forall k | k in s.subscribedCharacteristicsAndTokens ::
          CharacteristicKey(s.subscribedCharacteristicsAndTokens[k].characteristic) == k.characteristicUuid)
  }

  /** A lookup completes with a handle, with nullptr, or by throwing. */
  datatype Lookup<T> = Found(value: T) | Null | Threw(error: Exception)

  /** The calls a lookup makes to the device. */
  datatype DeviceQuery = GetGattServices | GetCharacteristics(service: GattDeviceService)

  datatype Step<T> = Step(result: Lookup<T>, state: AgentState, queries: seq<DeviceQuery>)

  /** The first enumerated item whose key is the given one. */
  function FirstMatch<T>(key: string, items: seq<T>, keyOf: T -> string): (r: Option<T>)
    ensures r.Some? ==> keyOf(r.value) == key
  {
    if items == [] then None
    else match FirstMatch(key, items[..|items| - 1], keyOf)
      case Some(x) => Some(x)
      case None => if keyOf(items[|items| - 1]) == key then Some(items[|items| - 1]) else None
  }

  lemma {:induction false} FirstMatchIsFirst<T>(key: string, items: seq<T>, keyOf: T -> string)
    ensures FirstMatch(key, items, keyOf).None? <==> forall j | 0 <= j < |items| :: keyOf(items[j]) != key
    ensures FirstMatch(key, items, keyOf).Some? ==>
      exists j | 0 <= j < |items| ::
        && items[j] == FirstMatch(key, items, keyOf).value
        && keyOf(items[j]) == key
        && forall i | 0 <= i < j :: keyOf(items[i]) != key
  {
    if items != [] {
      var n := |items|;
      var front := items[..n - 1];
      FirstMatchIsFirst(key, front, keyOf);
      assert forall j | 0 <= j < n - 1 :: front[j] == items[j];
      if FirstMatch(key, front, keyOf).Some? {
        var j :| 0 <= j < n - 1 && front[j] == FirstMatch(key, front, keyOf).value
                 && keyOf(front[j]) == key && forall i | 0 <= i < j :: keyOf(front[i]) != key;
        assert items[j] == front[j];
      }
    }
  }

  /** std::map::insert of what the enumeration matched: an existing entry is kept. */
  function InsertMatch<V>(m: map<string, V>, key: string, found: Option<V>): map<string, V>
  {
    if found.Some? && key !in m then m[key := found.value] else m
  }

  /** Inserting a match of the key keeps every entry filed under its own key. */
  lemma InsertMatchKeyed<V>(m: map<string, V>, key: string, found: Option<V>, keyOf: V -> string)
    requires forall k | k in m :: keyOf(m[k]) == k
    requires found.Some? ==> keyOf(found.value) == key
    ensures var r := InsertMatch(m, key, found); forall k | k in r :: keyOf(r[k]) == k
  {
  }

  /** One step of the enumeration loop: the map after item i when the map before it is cur. */
  function InsertStep<V>(cur: map<string, V>, key: string, item: V, keyOf: V -> string): map<string, V>
  {
    if keyOf(item) == key && key !in cur then cur[key := item] else cur
  }

  lemma InsertMatchStep<V>(m: map<string, V>, key: string, items: seq<V>, i: nat, keyOf: V -> string)
    requires i < |items|
    ensures InsertMatch(m, key, FirstMatch(key, items[..i + 1], keyOf))
         == InsertStep(InsertMatch(m, key, FirstMatch(key, items[..i], keyOf)), key, items[i], keyOf)
  {
    assert items[..i + 1][..i] == items[..i];
  }

  /** GetServiceAsync on an agent in state s, with the answer the device gives to GetGattServicesAsync. */
  function ServiceLookup(s: AgentState, service: string, enumeration: GattDeviceServicesResult): (r: Step<GattDeviceService>)
    ensures r.state == s.(gattServices := r.state.gattServices)
    ensures forall k | k in s.gattServices :: k in r.state.gattServices && r.state.gattServices[k] == s.gattServices[k]
    ensures r.state.gattServices.Keys <= s.gattServices.Keys + {service}
    ensures r.queries == if service in s.gattServices then [] else [GetGattServices]
    ensures service in s.gattServices ==> r.result == Found(s.gattServices[service])
    ensures service !in s.gattServices && enumeration.status != Success ==> r.result == Null && r.state == s
  {
    if service in s.gattServices then Step(Found(s.gattServices[service]), s, [])
    else if enumeration.status != Success then Step(Null, s, [GetGattServices])
    else
      var cache := InsertMatch(s.gattServices, service, FirstMatch(service, enumeration.services, ServiceKey));
      Step(if service in cache then Found(cache[service]) else Threw(OutOfRange), s.(gattServices := cache), [GetGattServices])
  }

  /**
   * After a successful enumeration on a miss, the lookup finds the first enumerated service
   * whose UUID text is the key, and caches it; with none, at() throws and nothing is cached.
   */
  lemma ServiceLookupFindsFirstMatch(s: AgentState, service: string, enumeration: GattDeviceServicesResult)
    requires service !in s.gattServices && enumeration.status == Success
    ensures var r := ServiceLookup(s, service, enumeration);
      && (r.result.Found? <==> exists j | 0 <= j < |enumeration.services| :: ServiceKey(enumeration.services[j]) == service)
      && (r.result.Found? ==>
            && r.state.gattServices == s.gattServices[service := r.result.value]
            && exists j | 0 <= j < |enumeration.services| ::
                 && enumeration.services[j] == r.result.value
                 && ServiceKey(enumeration.services[j]) == service
                 && forall i | 0 <= i < j :: ServiceKey(enumeration.services[i]) != service)
      && (!r.result.Found? ==> r.result == Threw(OutOfRange) && r.state == s)
  {
    FirstMatchIsFirst(service, enumeration.services, ServiceKey);
  }

  lemma ServiceLookupKeepsKeying(s: AgentState, service: string, enumeration: GattDeviceServicesResult)
    requires CachesKeyed(s)
    ensures var r := ServiceLookup(s, service, enumeration);
      CachesKeyed(r.state) && (r.result.Found? ==> ServiceKey(r.result.value) == service)
  {
    if service !in s.gattServices && enumeration.status == Success {
      InsertMatchKeyed(s.gattServices, service, FirstMatch(service, enumeration.services, ServiceKey), ServiceKey);
    }
  }

  /** A found service is the one whose GUID the requested 16 wire bytes encode. */
  lemma FoundServiceHasRequestedUuid(s: AgentState, uuid: seq<uint8>, enumeration: GattDeviceServicesResult)
    requires CachesKeyed(s) && |uuid| == 16
    ensures var r := ServiceLookup(s, BleUtils.UuidText(uuid).value, enumeration);
      r.result.Found? ==> r.result.value.uuid == BleUtils.GuidOfUuid(uuid)
  {
    BleUtils.UuidTextLayout(uuid);
    var service := BleUtils.UuidText(uuid).value;
    var r := ServiceLookup(s, service, enumeration);
    ServiceLookupKeepsKeying(s, service, enumeration);
    if r.result.Found? {
      BleUtils.KeyMatchesRequest(r.result.value.uuid, uuid);
    }
  }

  /**
   * GetCharacteristicAsync on an agent in state s: on a miss it first looks up the service,
   * then asks that service for its characteristics.
   */
  function CharacteristicLookup(
    s: AgentState, service: string, characteristic: string,
    services: GattDeviceServicesResult, characteristicsOf: GattDeviceService -> GattCharacteristicsResult
  ): (r: Step<GattCharacteristic>)
    ensures r.state.device == s.device && r.state.connectionStatusChangedToken == s.connectionStatusChangedToken
    ensures r.state.subscribedCharacteristicsAndTokens == s.subscribedCharacteristicsAndTokens
    ensures forall k | k in s.gattCharacteristics ::
      k in r.state.gattCharacteristics && r.state.gattCharacteristics[k] == s.gattCharacteristics[k]
    ensures r.state.gattCharacteristics.Keys <= s.gattCharacteristics.Keys + {characteristic}
    ensures characteristic in s.gattCharacteristics ==> r == Step(Found(s.gattCharacteristics[characteristic]), s, [])
  {
    if characteristic in s.gattCharacteristics then Step(Found(s.gattCharacteristics[characteristic]), s, [])
    else
      var sv := ServiceLookup(s, service, services);
      match sv.result
      case Threw(e) => Step(Threw(e), sv.state, sv.queries)
      case Null => Step(Threw(NullDereference), sv.state, sv.queries)
      case Found(gattService) =>
        var cached := CacheCharacteristic(sv.state, characteristic, characteristicsOf(gattService));
        Step(cached.result, cached.state, sv.queries + [GetCharacteristics(gattService)])
  }

  /** The end of a characteristic miss: what GetCharacteristicsAsync answered is searched and cached. */
  function CacheCharacteristic(s: AgentState, characteristic: string, answer: GattCharacteristicsResult): (r: Step<GattCharacteristic>)
    ensures r.state == s.(gattCharacteristics := r.state.gattCharacteristics) && r.queries == []
  {
    if answer.status != Success then Step(Null, s, [])
    else
      var cache := InsertMatch(s.gattCharacteristics, characteristic,
                               FirstMatch(characteristic, answer.characteristics, CharacteristicKey));
      Step(if characteristic in cache then Found(cache[characteristic]) else Threw(OutOfRange),
           s.(gattCharacteristics := cache), [])
  }

  /** A cached characteristic is returned whatever service is asked for: the cache ignores services. */
  lemma CharacteristicHitIgnoresService(
    s: AgentState, service1: string, service2: string, characteristic: string,
    services: GattDeviceServicesResult, characteristicsOf: GattDeviceService -> GattCharacteristicsResult)
    requires characteristic in s.gattCharacteristics
    ensures CharacteristicLookup(s, service1, characteristic, services, characteristicsOf)
         == CharacteristicLookup(s, service2, characteristic, services, characteristicsOf)
  {
  }

  /**
   * On a miss the service cache may grow as a side effect. The first characteristic found
   * is cached under the key; every other outcome leaves the characteristic cache as it was:
   * an exception of the service lookup propagates, a null service is dereferenced, and a
   * failed characteristic enumeration completes with nullptr.
   */
  lemma CharacteristicMissOutcomes(
    s: AgentState, service: string, characteristic: string,
    services: GattDeviceServicesResult, characteristicsOf: GattDeviceService -> GattCharacteristicsResult)
    requires characteristic !in s.gattCharacteristics
    ensures var r := CharacteristicLookup(s, service, characteristic, services, characteristicsOf);
      var sv := ServiceLookup(s, service, services);
      && r.state.gattServices == sv.state.gattServices
      && (r.result.Found? ==> r.state.gattCharacteristics == s.gattCharacteristics[characteristic := r.result.value])
      && (!r.result.Found? ==> r.state.gattCharacteristics == s.gattCharacteristics)
      && (sv.result.Threw? ==> r.result == Threw(sv.result.error))
      && (sv.result.Null? ==> r.result == Threw(NullDereference))
      && (sv.result.Found? && characteristicsOf(sv.result.value).status != Success ==>
            r.result == Null && r.state.gattCharacteristics == s.gattCharacteristics)
      && (sv.result.Found? && characteristicsOf(sv.result.value).status == Success ==>
            var items := characteristicsOf(sv.result.value).characteristics;
            && (r.result.Found? <==> exists j | 0 <= j < |items| :: CharacteristicKey(items[j]) == characteristic)
            && (r.result.Found? ==>
                  exists j | 0 <= j < |items| ::
                    && items[j] == r.result.value
                    && CharacteristicKey(items[j]) == characteristic
                    && forall i | 0 <= i < j :: CharacteristicKey(items[i]) != characteristic)
            && (!r.result.Found? ==> r.result == Threw(OutOfRange)))
  {
    var sv := ServiceLookup(s, service, services);
    if sv.result.Found? {
      var answer := characteristicsOf(sv.result.value);
      FirstMatchIsFirst(characteristic, answer.characteristics, CharacteristicKey);
    }
  }

  lemma CacheCharacteristicKeepsKeying(s: AgentState, characteristic: string, answer: GattCharacteristicsResult)
    requires CachesKeyed(s)
    ensures var r := CacheCharacteristic(s, characteristic, answer);
      CachesKeyed(r.state) && (r.result.Found? ==> CharacteristicKey(r.result.value) == characteristic)
  {
    if answer.status == Success {
      InsertMatchKeyed(s.gattCharacteristics, characteristic,
                       FirstMatch(characteristic, answer.characteristics, CharacteristicKey), CharacteristicKey);
    }
  }

  lemma CharacteristicLookupKeepsKeying(
    s: AgentState, service: string, characteristic: string,
    services: GattDeviceServicesResult, characteristicsOf: GattDeviceService -> GattCharacteristicsResult)
    requires CachesKeyed(s)
    ensures var r := CharacteristicLookup(s, service, characteristic, services, characteristicsOf);
      CachesKeyed(r.state) && (r.result.Found? ==> CharacteristicKey(r.result.value) == characteristic)
  {
    if characteristic !in s.gattCharacteristics {
      var sv := ServiceLookup(s, service, services);
      ServiceLookupKeepsKeying(s, service, services);
      if sv.result.Found? {
        CacheCharacteristicKeepsKeying(sv.state, characteristic, characteristicsOf(sv.result.value));
      }
    }
  }

  class BluetoothDeviceAgent {
    var device: Option<BluetoothLEDevice>
    var connectionStatusChangedToken: EventToken
    var gattServices: map<string, GattDeviceService>                             // service UUID -> service
    var gattCharacteristics: map<string, GattCharacteristic>                     // characteristic UUID -> characteristic
    var subscribedCharacteristicsAndTokens: map<SubscriptionKey, Subscription>   // (service, characteristic) -> subscription

    function State(): AgentState
      reads this
    {
      AgentState(device, connectionStatusChangedToken, gattServices, gattCharacteristics, subscribedCharacteristicsAndTokens)
    }

    /** Stores the device and the token; the three tables start empty. */
    constructor (device: BluetoothLEDevice, connectionStatusChangedToken: EventToken)
      ensures State() == AgentState(Some(device), connectionStatusChangedToken, map[], map[], map[])
    {
      this.device := Some(device);
      this.connectionStatusChangedToken := connectionStatusChangedToken;
      gattServices := map[];
      gattCharacteristics := map[];
      subscribedCharacteristicsAndTokens := map[];
    }

    /** The implicit member-wise copy constructor, given the fields of the agent copied. */
    constructor Copy(other: AgentState)
      ensures State() == other
    {
      device := other.device;
      connectionStatusChangedToken := other.connectionStatusChangedToken;
      gattServices := other.gattServices;
      gattCharacteristics := other.gattCharacteristics;
      subscribedCharacteristicsAndTokens := other.subscribedCharacteristicsAndTokens;
    }

    /** The destructor: releases the device only; no token is unregistered. */
    method Destroy()
      modifies this
      ensures State() == old(State()).(device := None)
    {
      device := None;
    }

    method GetServiceAsync(service: string, enumeration: GattDeviceServicesResult)
      returns (r: Lookup<GattDeviceService>, queries: seq<DeviceQuery>)
      modifies this
      ensures Step(r, State(), queries) == ServiceLookup(old(State()), service, enumeration)
    {
      queries := [];
      if service !in gattServices {
        queries := [GetGattServices];
        if enumeration.status != Success {
          return Null, queries;
        }
        var items := enumeration.services;
        for i := 0 to |items|
          invariant gattServices == InsertMatch(old(gattServices), service, FirstMatch(service, items[..i], ServiceKey))
          invariant State() == old(State()).(gattServices := gattServices)
        {
          InsertMatchStep(old(gattServices), service, items, i, ServiceKey);
          ghost var before := gattServices;
          var s := items[i];
          if BleUtils.GuidToString(s.uuid) == service && service !in gattServices {
            gattServices := gattServices[service := s];
          }
          assert gattServices == InsertStep(before, service, s, ServiceKey);
        }
        assert items[..|items|] == items;
      }
      if service in gattServices {
        r := Found(gattServices[service]);
      } else {
        r := Threw(OutOfRange);
      }
    }

    method GetCharacteristicAsync(
      service: string, characteristic: string,
      services: GattDeviceServicesResult, characteristicsOf: GattDeviceService -> GattCharacteristicsResult)
      returns (r: Lookup<GattCharacteristic>, queries: seq<DeviceQuery>)
      modifies this
      ensures Step(r, State(), queries) == CharacteristicLookup(old(State()), service, characteristic, services, characteristicsOf)
    {
      queries := [];
      if characteristic !in gattCharacteristics {
        ghost var sv := ServiceLookup(old(State()), service, services);
        var gattService, serviceQueries := GetServiceAsync(service, services);
        assert gattService == sv.result && State() == sv.state;
        queries := serviceQueries;
        if gattService.Threw? {
          return Threw(gattService.error), queries;
        }
        if gattService.Null? {
          // GetCharacteristicsAsync is called on a null service
          return Threw(NullDereference), queries;
        }
        var characteristicResult := characteristicsOf(gattService.value);
        queries := queries + [GetCharacteristics(gattService.value)];
        if characteristicResult.status != Success {
          return Null, queries;
        }
        ghost var afterService := State();
        var items := characteristicResult.characteristics;
        for i := 0 to |items|
          invariant gattCharacteristics
                    == InsertMatch(afterService.gattCharacteristics, characteristic, FirstMatch(characteristic, items[..i], CharacteristicKey))
          invariant State() == afterService.(gattCharacteristics := gattCharacteristics)
        {
          InsertMatchStep(afterService.gattCharacteristics, characteristic, items, i, CharacteristicKey);
          ghost var before := gattCharacteristics;
          var c := items[i];
          if BleUtils.GuidToString(c.uuid) == characteristic && characteristic !in gattCharacteristics {
            gattCharacteristics := gattCharacteristics[characteristic := c];
          }
          assert gattCharacteristics == InsertStep(before, characteristic, c, CharacteristicKey);
        }
        assert items[..|items|] == items;
        ghost var cached := CacheCharacteristic(afterService, characteristic, characteristicResult);
        assert State() == cached.state;
        assert characteristic in gattCharacteristics ==> cached.result == Found(gattCharacteristics[characteristic]);
        assert characteristic !in gattCharacteristics ==> cached.result == Threw(OutOfRange);
      }
      if characteristic in gattCharacteristics {
        r := Found(gattCharacteristics[characteristic]);
      } else {
        r := Threw(OutOfRange);
      }
    }
  }
}
