/**
 * The driver factory of WebDriverFactory.kt: it counts launches, adds the fingerprint's
 * proxy to the capabilities, dispatches on the browser type to the browser manager, and
 * wraps the new browser's driver with a priority, starting it on request.
 */
module DriverFactory {
  import opened Wrappers
  import opened Browsers

  /** The browser as the dispatch casts it. */
  datatype LaunchedBrowser = ChromeDevtoolsBrowser(chrome: Browser) | MockBrowser(mock: Browser)

  /** `browser.newDriver()`, started or not. */
  datatype Driver = Driver(browserSerial: nat, started: bool)

  /** WebDriverAdapter: the driver with its priority. */
  datatype DriverAdapter = DriverAdapter(driver: Driver, priority: int)

  /**
   * The exceptions: UnsupportedWebDriverException, the IllegalArgumentException of `require`,
   * the browser manager's launch errors, the ClassCastException of a cast to the other browser
   * class, and whatever `newDriver` or `startWork` throws.
   */
  datatype FactoryError =
    | UnsupportedWebDriver(browserType: BrowserType)
    | IllegalArgument
    | LaunchFailed(error: LaunchError)
    | WrongBrowserClass(launched: BrowserType)
    | NewDriverFailed
    | StartWorkFailed

  /** How opening the driver goes: `newDriver` throws, `startWork` throws, or both succeed. */
  datatype DriverStep = NewDriverFails | StartWorkFails | DriverOk

  /** `setProxy`: no proxy leaves the capabilities as they are; a proxy sets exactly the key "proxy". */
  function SetProxy(capabilities: map<string, string>, proxyServer: Option<string>): (r: map<string, string>)
    ensures proxyServer.None? ==> r == capabilities
    ensures proxyServer.Some? ==> "proxy" in r && r["proxy"] == proxyServer.value
    ensures proxyServer.Some? ==> r.Keys == capabilities.Keys + {"proxy"}
    ensures forall k :: k in capabilities && k != "proxy" ==> k in r && r[k] == capabilities[k]
  {
    match proxyServer
    case None => capabilities
    case Some(p) => capabilities["proxy" := p]
  }

  /**
   * `launchChrome` and `launchMockChrome`: the `require` on the type, then the browser manager,
   * then the cast. The manager may hand back a browser it already keeps under the same data
   * directory; its class is that of the type it was launched with, and a cast to the other
   * class fails, with the browser still kept by the manager.
   */
  function LaunchPathSpec(bs: BrowserState, settings: DriverSettings, id: BrowserId, capabilities: map<string, string>,
                          mock: bool, fails: bool): (BrowserState, Result<LaunchedBrowser, FactoryError>)
  {
    if id.browserType != (if mock then MockChrome else PulsarChrome) then (bs, Err(IllegalArgument))
    else
      var (bs1, r) := LaunchSpec(bs, id, settings, capabilities, fails);
      (bs1, match r
            case Err(e) => Err(LaunchFailed(e))
            case Ok(b) =>
              if b.id.browserType != id.browserType then Err(WrongBrowserClass(b.id.browserType))
              else Ok(if mock then MockBrowser(b) else ChromeDevtoolsBrowser(b)))
  }

  /** `launchBrowser`: count the launch, add the proxy, and dispatch on the browser type. */
  function LaunchBrowserSpec(numDrivers: nat, bs: BrowserState, settings: DriverSettings, general: map<string, string>,
                             id: BrowserId, fails: bool): (nat, BrowserState, Result<LaunchedBrowser, FactoryError>)
  {
    var capabilities := SetProxy(general, id.proxyServer);
    match id.browserType
    case PulsarChrome =>
      var (bs1, r) := LaunchPathSpec(bs, settings, id, capabilities, false, fails);
      (numDrivers + 1, bs1, r)
    case MockChrome =>
      var (bs1, r) := LaunchPathSpec(bs, settings, id, capabilities, true, fails);
      (numDrivers + 1, bs1, r)
    case OtherBrowser(_) => (numDrivers + 1, bs, Err(UnsupportedWebDriver(id.browserType)))
  }

  /**
   * The dispatch is closed: Chrome goes to the Chrome path and comes back as a devtools
   * browser, the mock type to the mock path, and every other type fails as unsupported with
   * nothing launched. The `require` of either path never fails on the way through the
   * dispatch, a launched browser of the other class fails the cast, and every call counts
   * one launch, whatever its outcome.
   */
  lemma LaunchBrowserDispatch(numDrivers: nat, bs: BrowserState, settings: DriverSettings, general: map<string, string>,
                              id: BrowserId, fails: bool)
    ensures var (n, bs1, r) := LaunchBrowserSpec(numDrivers, bs, settings, general, id, fails);
      var (bsM, rM) := LaunchSpec(bs, id, settings, SetProxy(general, id.proxyServer), fails);
      && n == numDrivers + 1
      && r != Err(IllegalArgument)
      && (id.browserType.OtherBrowser? <==> r == Err(UnsupportedWebDriver(id.browserType)))
      && (id.browserType.OtherBrowser? ==> bs1 == bs)
      && (!id.browserType.OtherBrowser? ==> bs1 == bsM && (r.Ok? <==> rM.Ok? && rM.value.id.browserType == id.browserType))
      && (!id.browserType.OtherBrowser? && rM.Ok? && rM.value.id.browserType != id.browserType ==>
            r == Err(WrongBrowserClass(rM.value.id.browserType)))
      && (!id.browserType.OtherBrowser? && rM.Err? ==> r == Err(LaunchFailed(rM.error)))
      && (id.browserType == PulsarChrome && r.Ok? ==> r == Ok(ChromeDevtoolsBrowser(rM.value)))
      && (id.browserType == MockChrome && r.Ok? ==> r == Ok(MockBrowser(rM.value)))
  {
  }

  /** A path called with the other type fails its `require` and launches nothing. */
  lemma LaunchPathRequiresType(bs: BrowserState, settings: DriverSettings, id: BrowserId, capabilities: map<string, string>,
                               mock: bool, fails: bool)
    ensures var (bs1, r) := LaunchPathSpec(bs, settings, id, capabilities, mock, fails);
      r == Err(IllegalArgument) <==> id.browserType != (if mock then MockChrome else PulsarChrome)
    ensures var (bs1, r) := LaunchPathSpec(bs, settings, id, capabilities, mock, fails);
      r == Err(IllegalArgument) ==> bs1 == bs
  {
  }

  /**
   * The cast after the `require`: a browser launched fresh for the id always passes it, while
   * one the manager already keeps under the same data directory with the other type fails it
   * and is left in place.
   */
  lemma LaunchPathCast(bs: BrowserState, settings: DriverSettings, id: BrowserId, capabilities: map<string, string>,
                       mock: bool, fails: bool)
    requires id.browserType == (if mock then MockChrome else PulsarChrome)
    ensures var (bs1, r) := LaunchPathSpec(bs, settings, id, capabilities, mock, fails);
      && (Key(id) in bs.browsers && bs.browsers[Key(id)].id.browserType != id.browserType ==>
            bs1 == bs && r == Err(WrongBrowserClass(bs.browsers[Key(id)].id.browserType)))
      && (Key(id) !in bs.browsers && !fails ==>
            && r.Ok? && BrowserOf(r.value).id == id && bs1.browsers == bs.browsers[Key(id) := BrowserOf(r.value)]
            && (mock <==> r.value.MockBrowser?))
  {
  }

  /** The launched browser, whatever the cast. */
  function BrowserOf(b: LaunchedBrowser): Browser
  {
    match b
    case ChromeDevtoolsBrowser(c) => c
    case MockBrowser(m) => m
  }

  /**
   * `launchBrowserAndDriver`: launch, open a driver, start it when asked, and wrap it with the
   * priority. step says whether `newDriver` or `startWork` throws; either leaves the browser
   * launched.
   */
  function LaunchBrowserAndDriverSpec(numDrivers: nat, bs: BrowserState, settings: DriverSettings, general: map<string, string>,
                                      id: BrowserId, priority: int, start: bool, fails: bool, step: DriverStep)
    : (nat, BrowserState, Result<(LaunchedBrowser, DriverAdapter), FactoryError>)
  {
    var (n, bs1, r) := LaunchBrowserSpec(numDrivers, bs, settings, general, id, fails);
    match r
    case Err(e) => (n, bs1, Err(e))
    case Ok(b) =>
      if step == NewDriverFails then (n, bs1, Err(NewDriverFailed))
      else if start && step == StartWorkFails then (n, bs1, Err(StartWorkFailed))
      else (n, bs1, Ok((b, DriverAdapter(Driver(BrowserOf(b).serial, start), priority))))
  }

  /**
   * The driver belongs to the launched browser, carries the priority asked for, and is started
   * exactly when start is true; a failed launch yields no driver, and so does a `newDriver`
   * that throws, or a `startWork` that throws when the driver is to be started.
   */
  lemma DriverStartedIffStart(numDrivers: nat, bs: BrowserState, settings: DriverSettings, general: map<string, string>,
                              id: BrowserId, priority: int, start: bool, fails: bool, step: DriverStep)
    ensures var (n, bs1, r) := LaunchBrowserAndDriverSpec(numDrivers, bs, settings, general, id, priority, start, fails, step);
      var (n0, bs0, r0) := LaunchBrowserSpec(numDrivers, bs, settings, general, id, fails);
      && n == n0 == numDrivers + 1 && bs1 == bs0
      && (r.Ok? <==> r0.Ok? && step != NewDriverFails && !(start && step == StartWorkFails))
      && (r0.Err? ==> r == Err(r0.error))
      && (r0.Ok? && step == NewDriverFails ==> r == Err(NewDriverFailed))
      && (r0.Ok? && start && step == StartWorkFails ==> r == Err(StartWorkFailed))
      && (r.Ok? ==> r.value.0 == r0.value && r.value.1.priority == priority
                    && r.value.1.driver.started == start && r.value.1.driver.browserSerial == BrowserOf(r0.value).serial)
  {
  }

  /**
   * The factory object: the launch counter, the driver settings with their general options,
   * and the browser manager it launches through.
   */
  class WebDriverFactory {
    var numDrivers: nat
    const settings: DriverSettings
    const generalOptions: map<string, string>
    const browserManager: BrowserManager

    constructor(settings: DriverSettings, generalOptions: map<string, string>, browserManager: BrowserManager)
      ensures numDrivers == 0 && this.settings == settings && this.generalOptions == generalOptions
      ensures this.browserManager == browserManager
    {
      numDrivers := 0;
      this.settings := settings;
      this.generalOptions := generalOptions;
      this.browserManager := browserManager;
    }

    /** `launchChrome` (mock false) and `launchMockChrome` (mock true). */
    method LaunchPath(id: BrowserId, capabilities: map<string, string>, mock: bool, fails: bool)
      returns (r: Result<LaunchedBrowser, FactoryError>)
      modifies browserManager
      ensures (browserManager.State(), r) == LaunchPathSpec(old(browserManager.State()), settings, id, capabilities, mock, fails)
    {
      if id.browserType != (if mock then MockChrome else PulsarChrome) {
        return Err(IllegalArgument);
      }
      var b := browserManager.Launch(id, settings, capabilities, fails);
      if b.Err? {
        return Err(LaunchFailed(b.error));
      }
      if b.value.id.browserType != id.browserType {
        return Err(WrongBrowserClass(b.value.id.browserType));
      }
      r := Ok(if mock then MockBrowser(b.value) else ChromeDevtoolsBrowser(b.value));
    }

    /** `launchBrowser`; fails says whether the browser manager's launch throws. */
    method LaunchBrowser(id: BrowserId, fails: bool) returns (r: Result<LaunchedBrowser, FactoryError>)
      modifies this, browserManager
      ensures (numDrivers, browserManager.State(), r)
           == LaunchBrowserSpec(old(numDrivers), old(browserManager.State()), settings, generalOptions, id, fails)
    {
      numDrivers := numDrivers + 1;
      var capabilities := SetProxy(generalOptions, id.proxyServer);
      match id.browserType {
        case PulsarChrome =>
          r := LaunchPath(id, capabilities, false, fails);
        case MockChrome =>
          r := LaunchPath(id, capabilities, true, fails);
        case OtherBrowser(_) =>
          r := Err(UnsupportedWebDriver(id.browserType));
      }
    }

    /** `launchBrowserAndDriver`; step says whether `newDriver` or `startWork` throws. */
    method LaunchBrowserAndDriver(id: BrowserId, priority: int, start: bool, fails: bool, step: DriverStep)
      returns (r: Result<(LaunchedBrowser, DriverAdapter), FactoryError>)
      modifies this, browserManager
      ensures (numDrivers, browserManager.State(), r)
           == LaunchBrowserAndDriverSpec(old(numDrivers), old(browserManager.State()), settings, generalOptions, id, priority, start, fails, step)
    {
      var b := LaunchBrowser(id, fails);
      if b.Err? {
        return Err(b.error);
      }
      if step == NewDriverFails {
        return Err(NewDriverFailed);
      }
      var driver := Driver(BrowserOf(b.value).serial, false);
      if start {
        if step == StartWorkFails {
          return Err(StartWorkFailed);
        }
        driver := driver.(started := true);
      }
      r := Ok((b.value, DriverAdapter(driver, priority)));
    }

    /** `create(browserId, priority, conf, start)`: the driver half of `launchBrowserAndDriver`. */
    method Create(id: BrowserId, priority: int, start: bool, fails: bool, step: DriverStep) returns (r: Result<DriverAdapter, FactoryError>)
      modifies this, browserManager
      ensures var (n, bs, full) := LaunchBrowserAndDriverSpec(old(numDrivers), old(browserManager.State()), settings, generalOptions,
                                                              id, priority, start, fails, step);
        && numDrivers == n && browserManager.State() == bs
        && r == (if full.Ok? then Ok(full.value.1) else Err(full.error))
    {
      var both := LaunchBrowserAndDriver(id, priority, start, fails, step);
      if both.Err? {
        return Err(both.error);
      }
      r := Ok(both.value.1);
    }

    /** `create(conf, start)` and `create(start)`: a random browser id at priority 0; random is `BrowserId.RANDOM`. */
    method CreateRandom(random: BrowserId, start: bool, fails: bool, step: DriverStep) returns (r: Result<DriverAdapter, FactoryError>)
      modifies this, browserManager
      ensures numDrivers == old(numDrivers) + 1
      ensures r.Ok? ==> r.value.priority == 0 && r.value.driver.started == start
      ensures var (n, bs, full) := LaunchBrowserAndDriverSpec(old(numDrivers), old(browserManager.State()), settings, generalOptions,
                                                              random, 0, start, fails, step);
        && browserManager.State() == bs
        && r == (if full.Ok? then Ok(full.value.1) else Err(full.error))
    {
      r := Create(random, 0, start, fails, step);
      DriverStartedIffStart(old(numDrivers), old(browserManager.State()), settings, generalOptions, random, 0, start, fails, step);
    }
  }
}
