/** The patched Vera `setup` of vera_patcher.py: one connection attempt
    (`checker`), its retry with a growing delay, the bucketing of the devices
    by type, and the publication of what was found (`load`). Home Assistant
    and pyvera calls are recorded as effects; what the controller answers is
    a parameter of each attempt, and `map_vera_device` is a function
    parameter. */
module VeraPatcher {
  import opened Base

  const EventLoaded := "vera_loaded"
  const EventLoadFailed := "vera_load_failed"

  /** The first delay, the default `next_check` of `checker`. */
  const FirstDelay := 30
  /** The cap of the delay, in seconds. */
  const MaxDelay := 3600

  // ---------------------------------------------------------------- backoff

  /** `min(3600, round(next_check * 3 // 2))`: `round` of an int is the int
      itself, and the divisor is positive, so Dafny's `/` floors like
      Python's `//`. */
  function NextDelay(nextCheck: int): (r: int)
    ensures r <= MaxDelay
    ensures 0 <= nextCheck <= MaxDelay ==> nextCheck <= r
    ensures 2 <= nextCheck ==> nextCheck < r || r == MaxDelay
    ensures r <= nextCheck * 3 / 2 && (r == MaxDelay || r == nextCheck * 3 / 2)
    ensures nextCheck >= 2400 ==> r == MaxDelay
  {
    if MaxDelay <= nextCheck * 3 / 2 then MaxDelay else nextCheck * 3 / 2
  }

  /** The delay of the timer armed by the `k`-th failed attempt in a row. */
  function Delay(k: nat): int
  {
    if k == 0 then FirstDelay else NextDelay(Delay(k - 1))
  }

  /** The retry delays stay between the first delay and the cap. */
  lemma {:induction false} DelayBounds(k: nat)
    ensures FirstDelay <= Delay(k) <= MaxDelay
  {
    if k > 0 {
      DelayBounds(k - 1);
    }
  }

  /** The retry delays never shrink. */
  lemma DelayMonotone(k: nat)
    ensures Delay(k) <= Delay(k + 1)
  {
    DelayBounds(k);
  }

  /** Before the cap is reached the delays grow strictly: 30, 45, 67, 100,
      150, 225, 337, 505, 757, 1135, 1702, 2553, and the twelfth is the cap. */
  lemma DelaySchedule()
    ensures Delay(1) == 45 && Delay(2) == 67 && Delay(3) == 100
    ensures Delay(11) == 2553 && Delay(12) == MaxDelay
    ensures forall k :: 0 <= k < 12 ==> Delay(k) < Delay(k + 1)
  {
    assert Delay(4) == 150 && Delay(5) == 225 && Delay(6) == 337 && Delay(7) == 505;
    assert Delay(8) == 757 && Delay(9) == 1135 && Delay(10) == 1702;
  }

  /** Once at the cap, the delay stays there. */
  lemma {:induction false} DelayStays(k: nat)
    requires k >= 12
    ensures Delay(k) == MaxDelay
  {
    if k == 12 {
      DelaySchedule();
    } else {
      DelayStays(k - 1);
    }
  }

  /** The delays that some run of failures arms a timer for. */
  ghost predicate IsDelay(d: int)
  {
    exists k: nat :: Delay(k) == d
  }

  /** The next delay of a retry delay is again a retry delay. */
  lemma NextDelayIsDelay(d: int)
    requires IsDelay(d)
    ensures IsDelay(NextDelay(d))
    ensures FirstDelay <= NextDelay(d) <= MaxDelay
  {
    var k: nat :| Delay(k) == d;
    assert Delay(k + 1) == NextDelay(d);
    DelayBounds(k + 1);
  }

  // -------------------------------------------------------------- bucketing

  datatype Device = Device(deviceId: int, name: string)
  datatype Scene = Scene(sceneId: int)

  /** `vera.map_vera_device(device, light_ids)`: the device type, or a falsy
      value (`None` or the empty string) for a device that is not used. */
  type Mapper = (Device, seq<int>) -> Option<string>

  /** `vera_devices`: the `defaultdict(list)` from device type to devices. */
  type Buckets = map<string, seq<Device>>

  /** Indexing a `defaultdict(list)`: a missing key reads as an empty list. */
  function Lookup(b: Buckets, category: string): (devices: seq<Device>)
    ensures category !in b ==> devices == []
    ensures category in b ==> devices == b[category]
  {
    if category in b then b[category] else []
  }

  /** The loop of `checker` over the devices: a device whose id is excluded
      or whose type is falsy is skipped, any other is appended to the list of
      its type. */
  function Bucketed(devices: seq<Device>, excludeIds: seq<int>, lightIds: seq<int>, mapDevice: Mapper): Buckets
  {
    if devices == [] then map[]
    else
      var b := Bucketed(devices[..|devices| - 1], excludeIds, lightIds, mapDevice);
      var d := devices[|devices| - 1];
      var t := mapDevice(d, lightIds);
      if d.deviceId in excludeIds || !Truthy(t) then b
      else b[t.value := Lookup(b, t.value) + [d]]
  }

  /** Device `d` belongs in category `category`: it is not excluded and its
      type is that category, which is not falsy. */
  predicate Placed(d: Device, excludeIds: seq<int>, lightIds: seq<int>, mapDevice: Mapper, category: string)
  {
    d.deviceId !in excludeIds && category != "" && mapDevice(d, lightIds) == Some(category)
  }

  /** The devices of one category, in input order: an independent reference
      for one list of the buckets. */
  function Category(devices: seq<Device>, excludeIds: seq<int>, lightIds: seq<int>, mapDevice: Mapper, category: string): seq<Device>
  {
    if devices == [] then []
    else
      (if Placed(devices[0], excludeIds, lightIds, mapDevice, category) then [devices[0]] else [])
      + Category(devices[1..], excludeIds, lightIds, mapDevice, category)
  }

  /** Selecting a category of two runs of devices selects it of each, in
      the same order. */
  lemma {:induction false} CategoryAppend(a: seq<Device>, b: seq<Device>, excludeIds: seq<int>, lightIds: seq<int>, mapDevice: Mapper, category: string)
    ensures Category(a + b, excludeIds, lightIds, mapDevice, category) ==
      Category(a, excludeIds, lightIds, mapDevice, category) + Category(b, excludeIds, lightIds, mapDevice, category)
  {
    if a == [] {
      assert a + b == b;
    } else {
      assert (a + b)[0] == a[0];
      assert (a + b)[1..] == a[1..] + b;
      CategoryAppend(a[1..], b, excludeIds, lightIds, mapDevice, category);
    }
  }

  /** A category holds exactly the placed devices of the input. */
  lemma {:induction false} CategoryMembers(devices: seq<Device>, excludeIds: seq<int>, lightIds: seq<int>, mapDevice: Mapper, category: string, d: Device)
    ensures d in Category(devices, excludeIds, lightIds, mapDevice, category) <==>
      d in devices && Placed(d, excludeIds, lightIds, mapDevice, category)
  {
    if devices != [] {
      CategoryMembers(devices[1..], excludeIds, lightIds, mapDevice, category, d);
      assert devices == [devices[0]] + devices[1..];
    }
  }

  /** Each list of the buckets is the category of its type, and a type has
      a list exactly when some device is placed in it. */
  lemma {:induction false} BucketedMeaning(devices: seq<Device>, excludeIds: seq<int>, lightIds: seq<int>, mapDevice: Mapper, category: string)
    ensures Lookup(Bucketed(devices, excludeIds, lightIds, mapDevice), category) ==
      Category(devices, excludeIds, lightIds, mapDevice, category)
    ensures category in Bucketed(devices, excludeIds, lightIds, mapDevice) <==>
      Category(devices, excludeIds, lightIds, mapDevice, category) != []
  {
    if devices != [] {
      var n := |devices| - 1;
      BucketedMeaning(devices[..n], excludeIds, lightIds, mapDevice, category);
      CategoryAppend(devices[..n], [devices[n]], excludeIds, lightIds, mapDevice, category);
      assert devices[..n] + [devices[n]] == devices;
    }
  }

  /** No excluded device and no device of a falsy type is placed; every
      other device is placed in the list of its type. */
  lemma BucketedPlacement(devices: seq<Device>, excludeIds: seq<int>, lightIds: seq<int>, mapDevice: Mapper, category: string, d: Device)
    ensures d in Lookup(Bucketed(devices, excludeIds, lightIds, mapDevice), category) <==>
      d in devices && d.deviceId !in excludeIds && category != "" && mapDevice(d, lightIds) == Some(category)
  {
    BucketedMeaning(devices, excludeIds, lightIds, mapDevice, category);
    CategoryMembers(devices, excludeIds, lightIds, mapDevice, category, d);
  }

  /** The loop at the heart of `checker`, over the devices the controller
      returned. */
  method BucketDevices(devices: seq<Device>, excludeIds: seq<int>, lightIds: seq<int>, mapDevice: Mapper) returns (b: Buckets)
    ensures b == Bucketed(devices, excludeIds, lightIds, mapDevice)
  {
    b := map[];
    var i := 0;
    while i < |devices|
      invariant 0 <= i <= |devices|
      invariant b == Bucketed(devices[..i], excludeIds, lightIds, mapDevice)
    {
      assert devices[..i + 1][..i] == devices[..i];
      var device := devices[i];
      i := i + 1;
      if device.deviceId in excludeIds {
        continue;
      }
      var deviceType := mapDevice(device, lightIds);
      if !Truthy(deviceType) {
        continue;
      }
      b := b[deviceType.value := Lookup(b, deviceType.value) + [device]];
    }
    assert devices[..i] == devices;
  }

  // ---------------------------------------------------------------- effects

  /** What `get_devices()` and `get_scenes()` do on one attempt. */
  datatype Fetch =
    | Fetched(devices: seq<Device>, scenes: seq<Scene>)
    | RequestFailed         // a `RequestException`
    | OtherFailure          // any other exception

  /** A callback handed to Home Assistant to run later. */
  datatype Task =
    | RetryHandler(nextDelay: int)                              // `handler`
    | CheckJob(controller: nat, nextCheck: int, isRetry: bool)  // `checker` on a worker
    | LoadTask(devices: Buckets, scenes: seq<Scene>, isRetry: bool)  // `load`

  /** The calls into Home Assistant and pyvera, in the order they happen. */
  datatype Effect =
    | InitController(url: string, controller: nat)  // `init_controller(base_url)`
    | ListenStop                                    // `listen_once(EVENT_HOMEASSISTANT_STOP, …)`
    | StopController(controller: nat)               // `controller.stop()`
    | Query(controller: nat)                        // `get_devices()`, `get_scenes()`
    | Schedule(delay: int, task: Task)              // `call_later(hass, delay, task)`
    | AddJob(task: Task)                            // `hass.add_job(task)`
    | Fire(event: string)                           // `hass.bus.fire(event, {})`
    | LoadPlatform(component: string)               // `discovery.load_platform`

  /** What a function returns, or that it raised. */
  datatype Outcome = Returned(value: bool) | Raised

  /** `load_platform` for every component, in order. */
  function PlatformLoads(components: seq<string>): (effects: seq<Effect>)
    ensures |effects| == |components|
    ensures forall i :: 0 <= i < |components| ==> effects[i] == LoadPlatform(components[i])
  {
    seq(|components|, i requires 0 <= i < |components| => LoadPlatform(components[i]))
  }

  /** The effects of `load`: on a retry the platforms are loaded again, and
      then the loaded event is fired. */
  function LoadEffects(isRetry: bool, components: seq<string>): (effects: seq<Effect>)
    ensures |effects| == (if isRetry then |components| else 0) + 1
    ensures effects[|effects| - 1] == Fire(EventLoaded)
    ensures isRetry ==> effects[..|components|] == PlatformLoads(components)
    ensures !isRetry ==> effects == [Fire(EventLoaded)]
  {
    (if isRetry then PlatformLoads(components) else []) + [Fire(EventLoaded)]
  }

  /** The tasks that a `checker` attempt leaves behind. */
  function CheckerTasks(nextCheck: int, isRetry: bool, fetch: Fetch, placed: Buckets): (tasks: seq<Task>)
    ensures fetch.OtherFailure? || (fetch.Fetched? && !isRetry) <==> tasks == []
  {
    match fetch
    case RequestFailed => [RetryHandler(NextDelay(nextCheck))]
    case OtherFailure => []
    case Fetched(_, scenes) => if isRetry then [LoadTask(placed, scenes, true)] else []
  }

  /** The effects of a `checker` attempt on the controller `controller`. */
  function CheckerEffects(controller: nat, nextCheck: int, isRetry: bool, fetch: Fetch, placed: Buckets, components: seq<string>): (effects: seq<Effect>)
    ensures |effects| > 0 && effects[0] == Query(controller)
    ensures fetch.RequestFailed? ==>
      effects == [Query(controller), Schedule(nextCheck, RetryHandler(NextDelay(nextCheck))), Fire(EventLoadFailed)]
    ensures fetch.OtherFailure? ==> effects == [Query(controller)]
    ensures fetch.Fetched? && isRetry ==>
      effects == [Query(controller), Schedule(0, LoadTask(placed, fetch.scenes, true))]
    ensures fetch.Fetched? && !isRetry ==> effects == [Query(controller)] + LoadEffects(false, components)
  {
    [Query(controller)] +
    match fetch
    case RequestFailed => [Schedule(nextCheck, RetryHandler(NextDelay(nextCheck))), Fire(EventLoadFailed)]
    case OtherFailure => []
    case Fetched(_, scenes) =>
      if isRetry then [Schedule(0, LoadTask(placed, scenes, true))] else LoadEffects(false, components)
  }

  /** A failed attempt fires the failure event exactly once, fires no loaded
      event, and arms exactly one timer, for the current delay, whose
      handler carries the next one. */
  lemma FailedAttempt(controller: nat, nextCheck: int, isRetry: bool, placed: Buckets, components: seq<string>)
    ensures var effects := CheckerEffects(controller, nextCheck, isRetry, RequestFailed, placed, components);
      Count(effects, Fire(EventLoadFailed)) == 1 &&
      Count(effects, Fire(EventLoaded)) == 0 &&
      (forall i :: 0 <= i < |effects| && effects[i].Schedule? ==>
         i == 1 && effects[i].delay == nextCheck && effects[i].task == RetryHandler(NextDelay(nextCheck)))
  {
    var effects := CheckerEffects(controller, nextCheck, isRetry, RequestFailed, placed, components);
    forall x ensures Count(effects, x) == Count([effects[0]], x) + Count([effects[1]], x) + Count([effects[2]], x) {
      assert effects == [effects[0]] + [effects[1]] + [effects[2]];
      CountAppend([effects[0]] + [effects[1]], [effects[2]], x);
      CountAppend([effects[0]], [effects[1]], x);
    }
    CountOne(effects[0], Fire(EventLoadFailed));
    CountOne(effects[1], Fire(EventLoadFailed));
    CountOne(effects[2], Fire(EventLoadFailed));
    CountOne(effects[0], Fire(EventLoaded));
    CountOne(effects[1], Fire(EventLoaded));
    CountOne(effects[2], Fire(EventLoaded));
  }

  /** A successful attempt fires the loaded event once: at once on the first
      attempt, after the deferred `load` on a retry. */
  lemma SucceededAttempt(controller: nat, nextCheck: int, isRetry: bool, devices: seq<Device>, scenes: seq<Scene>, placed: Buckets, components: seq<string>)
    ensures var effects := CheckerEffects(controller, nextCheck, isRetry, Fetched(devices, scenes), placed, components);
      Count(effects, Fire(EventLoadFailed)) == 0 &&
      Count(effects, Fire(EventLoaded)) == (if isRetry then 0 else 1)
  {
    var effects := CheckerEffects(controller, nextCheck, isRetry, Fetched(devices, scenes), placed, components);
    var event := if isRetry then Schedule(0, LoadTask(placed, scenes, true)) else Fire(EventLoaded);
    assert effects == [Query(controller)] + [event];
    CountAppend([Query(controller)], [event], Fire(EventLoadFailed));
    CountAppend([Query(controller)], [event], Fire(EventLoaded));
    CountOne(Query(controller), Fire(EventLoadFailed));
    CountOne(Query(controller), Fire(EventLoaded));
    CountOne(event, Fire(EventLoadFailed));
    CountOne(event, Fire(EventLoaded));
  }

  /** A task is one the patched setup can have left pending: every timer
      and queued attempt carries a delay of the backoff schedule. */
  ghost predicate TaskOk(t: Task, controllers: nat)
  {
    match t
    case RetryHandler(d) => IsDelay(d)
    case CheckJob(c, d, isRetry) => c < controllers && isRetry && IsDelay(d)
    case LoadTask(_, _, isRetry) => isRetry
  }

  /** A pending timer or queued attempt waits between 30 and 3600 seconds,
      and the delay it passes on is again on the schedule. */
  lemma PendingDelayBounds(t: Task, controllers: nat)
    requires TaskOk(t, controllers) && !t.LoadTask?
    ensures t.RetryHandler? ==>
      FirstDelay <= t.nextDelay <= MaxDelay && IsDelay(NextDelay(t.nextDelay))
    ensures t.CheckJob? ==>
      FirstDelay <= t.nextCheck <= MaxDelay && IsDelay(NextDelay(t.nextCheck))
  {
    var d := if t.RetryHandler? then t.nextDelay else t.nextCheck;
    var k: nat :| Delay(k) == d;
    DelayBounds(k);
    NextDelayIsDelay(d);
  }

  // ------------------------------------------------------------ the session

  /** One Home Assistant instance running the patched Vera `setup` with one
      configuration. Its fields are the entries of `hass.data` that the
      patch writes, the controllers made so far, the callbacks waiting to
      run, and the log of effects. */
  class VeraSetup {
    const baseUrl: string
    const lightIds: seq<int>
    const excludeIds: seq<int>
    /** `vera.VERA_COMPONENTS`. */
    const components: seq<string>
    const mapDevice: Mapper

    /** `hass.data[VERA_CONTROLLER]`. */
    var controller: Option<nat>
    /** `hass.data[VERA_DEVICES]`. */
    var devices: Option<Buckets>
    /** `hass.data[VERA_SCENES]`. */
    var scenes: Option<seq<Scene>>
    /** How many controllers `init_controller` has made; the next is this number. */
    var controllers: nat
    /** Callbacks handed to `call_later` or `add_job` that have not run yet. */
    var pending: seq<Task>
    var effects: seq<Effect>

    ghost predicate Valid()
      reads this
    {
      (controller.Some? ==> controller.value < controllers) &&
      (pending != [] ==> controller.Some?) &&
      forall i :: 0 <= i < |pending| ==> TaskOk(pending[i], controllers)
    }

    /** A Home Assistant instance before `setup` runs. */
    constructor(baseUrl: string, lightIds: seq<int>, excludeIds: seq<int>, components: seq<string>, mapDevice: Mapper)
      ensures Valid()
      ensures this.baseUrl == baseUrl && this.lightIds == lightIds && this.excludeIds == excludeIds
      ensures this.components == components && this.mapDevice == mapDevice
      ensures controller == None && devices == None && scenes == None
      ensures controllers == 0 && pending == [] && effects == []
    {
      this.baseUrl := baseUrl;
      this.lightIds := lightIds;
      this.excludeIds := excludeIds;
      this.components := components;
      this.mapDevice := mapDevice;
      controller := None;
      devices := None;
      scenes := None;
      controllers := 0;
      pending := [];
      effects := [];
    }

    /** The buckets of an attempt's devices. */
    function Placement(fetch: Fetch): Buckets
    {
      if fetch.Fetched? then Bucketed(fetch.devices, excludeIds, lightIds, mapDevice) else map[]
    }

    /** `init_controller(base_url)[0]`, stored as `hass.data[VERA_CONTROLLER]`. */
    method NewController() returns (c: nat)
      modifies this
      ensures c == old(controllers) && controllers == c + 1 && controller == Some(c)
      ensures effects == old(effects) + [InitController(baseUrl, c)]
      ensures devices == old(devices) && scenes == old(scenes) && pending == old(pending)
    {
      c := controllers;
      controllers := controllers + 1;
      effects := effects + [InitController(baseUrl, c)];
      controller := Some(c);
    }

    /** The `load_platform` loop. */
    method LoadPlatforms()
      modifies this
      ensures effects == old(effects) + PlatformLoads(components)
      ensures controller == old(controller) && controllers == old(controllers)
      ensures devices == old(devices) && scenes == old(scenes) && pending == old(pending)
    {
      var i := 0;
      while i < |components|
        invariant 0 <= i <= |components|
        invariant effects == old(effects) + PlatformLoads(components)[..i]
        invariant controller == old(controller) && controllers == old(controllers)
        invariant devices == old(devices) && scenes == old(scenes) && pending == old(pending)
      {
        effects := effects + [LoadPlatform(components[i])];
        assert PlatformLoads(components)[..i + 1] == PlatformLoads(components)[..i] + [LoadPlatform(components[i])];
        i := i + 1;
      }
      assert PlatformLoads(components)[..i] == PlatformLoads(components);
    }

    /** `load`: publish the devices and scenes, reload the platforms on a
        retry, then fire the loaded event. */
    method Load(placed: Buckets, found: seq<Scene>, isRetry: bool)
      modifies this
      ensures devices == Some(placed) && scenes == Some(found)
      ensures effects == old(effects) + LoadEffects(isRetry, components)
      ensures controller == old(controller) && controllers == old(controllers) && pending == old(pending)
    {
      devices := Some(placed);
      scenes := Some(found);
      if isRetry {
        LoadPlatforms();
      }
      effects := effects + [Fire(EventLoaded)];
    }

    /** `checker(controller, next_check, is_retry)`, given what the
        controller answers. */
    method Checker(c: nat, nextCheck: int, isRetry: bool, fetch: Fetch) returns (r: Outcome)
      requires Valid() && controller.Some? && c < controllers && IsDelay(nextCheck)
      modifies this
      ensures Valid()
      ensures r == (if fetch.RequestFailed? then Returned(false) else if fetch.OtherFailure? then Raised else Returned(true))
      ensures effects == old(effects) + CheckerEffects(c, nextCheck, isRetry, fetch, Placement(fetch), components)
      ensures pending == old(pending) + CheckerTasks(nextCheck, isRetry, fetch, Placement(fetch))
      ensures controller == old(controller) && controllers == old(controllers)
      ensures fetch.Fetched? && !isRetry ==> devices == Some(Placement(fetch)) && scenes == Some(fetch.scenes)
      ensures !(fetch.Fetched? && !isRetry) ==> devices == old(devices) && scenes == old(scenes)
    {
      effects := effects + [Query(c)];
      match fetch {
        case OtherFailure =>
          return Raised;
        case RequestFailed =>
          NextDelayIsDelay(nextCheck);
          var nextDelay := NextDelay(nextCheck);
          pending := pending + [RetryHandler(nextDelay)];
          effects := effects + [Schedule(nextCheck, RetryHandler(nextDelay))];
          effects := effects + [Fire(EventLoadFailed)];
          return Returned(false);
        case Fetched(found, foundScenes) =>
          var placed := BucketDevices(found, excludeIds, lightIds, mapDevice);
          var sceneList := [] + foundScenes;
          assert sceneList == foundScenes;
          if !isRetry {
            Load(placed, sceneList, false);
            assert effects == old(effects) + ([Query(c)] + LoadEffects(false, components));
          } else {
            pending := pending + [LoadTask(placed, sceneList, true)];
            effects := effects + [Schedule(0, LoadTask(placed, sceneList, true))];
          }
          return Returned(true);
      }
    }

    /** The patched `setup`: make the controller, register the shutdown
        hook, seed empty devices and scenes, make the first attempt, then
        load every platform whatever the attempt's outcome. */
    method Setup(fetch: Fetch) returns (r: Outcome)
      requires Valid() && controller.None?
      modifies this
      ensures Valid()
      ensures controller == Some(old(controllers)) && controllers == old(controllers) + 1
      ensures fetch.OtherFailure? ==>
        r == Raised && effects == old(effects) + [InitController(baseUrl, old(controllers)), ListenStop, Query(old(controllers))]
      ensures !fetch.OtherFailure? ==>
        r == Returned(true) &&
        effects == old(effects) + [InitController(baseUrl, old(controllers)), ListenStop] +
          CheckerEffects(old(controllers), FirstDelay, false, fetch, Placement(fetch), components) + PlatformLoads(components)
      ensures pending == old(pending) + CheckerTasks(FirstDelay, false, fetch, Placement(fetch))
      ensures fetch.Fetched? ==> devices == Some(Placement(fetch)) && scenes == Some(fetch.scenes)
      ensures !fetch.Fetched? ==> devices == Some(map[]) && scenes == Some([])
    {
      var c := NewController();
      effects := effects + [ListenStop];
      devices := Some(map[]);
      scenes := Some([]);
      assert Delay(0) == FirstDelay;
      var attempt := Checker(c, FirstDelay, false, fetch);
      if attempt.Raised? {
        return Raised;
      }
      LoadPlatforms();
      return Returned(true);
    }

    /** `stop_subscription`: stop the controller stored at shutdown time. */
    method StopSubscription()
      requires controller.Some?
      modifies this
      ensures effects == old(effects) + [StopController(old(controller).value)]
      ensures controller == old(controller) && controllers == old(controllers)
      ensures devices == old(devices) && scenes == old(scenes) && pending == old(pending)
    {
      effects := effects + [StopController(controller.value)];
    }

    /** The timer of a failed attempt fires: `handler` stops the stored
        controller, makes and stores a new one for the same URL and queues
        an attempt on it with the next delay. */
    method RunHandler(k: nat)
      requires Valid() && k < |pending| && pending[k].RetryHandler?
      modifies this
      ensures Valid()
      ensures var c := old(controllers);
        controllers == c + 1 && controller == Some(c) &&
        effects == old(effects) + [StopController(old(controller).value), InitController(baseUrl, c),
                                   AddJob(CheckJob(c, old(pending[k]).nextDelay, true))] &&
        pending == old(pending[..k] + pending[k + 1..]) + [CheckJob(c, old(pending[k]).nextDelay, true)]
      ensures devices == old(devices) && scenes == old(scenes)
    {
      var nextDelay := pending[k].nextDelay;
      pending := pending[..k] + pending[k + 1..];
      effects := effects + [StopController(controller.value)];
      var c := NewController();
      var job := CheckJob(c, nextDelay, true);
      pending := pending + [job];
      effects := effects + [AddJob(job)];
    }

    /** A queued retry attempt runs on a worker. */
    method RunCheck(k: nat, fetch: Fetch) returns (r: Outcome)
      requires Valid() && k < |pending| && pending[k].CheckJob?
      modifies this
      ensures Valid()
      ensures var t := old(pending[k]);
        r == (if fetch.RequestFailed? then Returned(false) else if fetch.OtherFailure? then Raised else Returned(true)) &&
        effects == old(effects) + CheckerEffects(t.controller, t.nextCheck, true, fetch, Placement(fetch), components) &&
        pending == old(pending[..k] + pending[k + 1..]) + CheckerTasks(t.nextCheck, true, fetch, Placement(fetch))
      ensures controller == old(controller) && controllers == old(controllers)
      ensures devices == old(devices) && scenes == old(scenes)
    {
      var t := pending[k];
      assert TaskOk(t, controllers);
      pending := pending[..k] + pending[k + 1..];
      r := Checker(t.controller, t.nextCheck, t.isRetry, fetch);
    }

    /** The deferred `load` of a successful retry runs. */
    method RunLoad(k: nat)
      requires Valid() && k < |pending| && pending[k].LoadTask?
      modifies this
      ensures Valid()
      ensures devices == Some(old(pending[k]).devices) && scenes == Some(old(pending[k]).scenes)
      ensures effects == old(effects) + LoadEffects(true, components)
      ensures pending == old(pending[..k] + pending[k + 1..])
      ensures controller == old(controller) && controllers == old(controllers)
    {
      var t := pending[k];
      assert TaskOk(t, controllers);
      pending := pending[..k] + pending[k + 1..];
      Load(t.devices, t.scenes, t.isRetry);
    }
  }
}
