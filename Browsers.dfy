/**
 * The browser registry of BrowserManager.kt: browsers launched at most once per user-data
 * directory, closed one at a time with a record of the closed identities, or all together,
 * once.
 *
 * Launching a browser and closing one are foreign effects; whether they fail comes from the
 * caller, and a launched browser is a value with a serial number.
 */
module Browsers {
  import opened Wrappers
  import opened Paths

  /** The browser types the factory tells apart; every other type is one it does not support. */
  datatype BrowserType = PulsarChrome | MockChrome | OtherBrowser(name: string)

  /** A BrowserId: the user-data directory, the browser type, and the fingerprint's proxy server. */
  datatype BrowserId = BrowserId(userDataDir: Path, browserType: BrowserType, proxyServer: Option<string>)

  /** The supervisor part of WebDriverSettings. */
  datatype DriverSettings = DriverSettings(isSupervised: bool, supervisorProcess: Option<string>, supervisorProcessArgs: seq<string>)

  datatype LauncherOptions = LauncherOptions(supervisorProcess: Option<string>, supervisorProcessArgs: seq<string>)

  datatype ChromeOptions = ChromeOptions(capabilities: map<string, string>)

  datatype Browser = Browser(serial: nat, id: BrowserId, launcherOptions: LauncherOptions, launchOptions: ChromeOptions)

  datatype LaunchError = BrowserLaunchFailed(id: BrowserId) | BrowserCloseFailed(serial: nat)

  /**
   * The registry: the closed flag, the browsers by user-data directory, the closed identities,
   * the serials of the browsers closed without error, and the launch counter.
   */
  datatype BrowserState = BrowserState(closed: bool, browsers: map<string, Browser>, closedBrowserIds: seq<BrowserId>,
                                       shutDown: set<nat>, nextSerial: nat)

  /** The key of a browser: `browserId.userDataDir.toString()`. */
  function Key(id: BrowserId): string
  {
    ToString(id.userDataDir)
  }

  /** Each browser sits under its own key, has a serial of its own, and none of them is shut down. */
  ghost predicate Inv(s: BrowserState)
  {
    && (forall k :: k in s.browsers ==> k == Key(s.browsers[k].id) && s.browsers[k].serial < s.nextSerial)
    && (forall k :: k in s.browsers ==> s.browsers[k].serial !in s.shutDown)
    && (forall k, j :: k in s.browsers && j in s.browsers && k != j ==> s.browsers[k].serial != s.browsers[j].serial)
    && (forall n :: n in s.shutDown ==> n < s.nextSerial)
  }

  function InitialState(): (s: BrowserState)
    ensures Inv(s) && !s.closed && s.browsers == map[]
  {
    BrowserState(false, map[], [], {}, 0)
  }

  /** The launcher options of `launch`: the supervisor settings are copied only when supervised. */
  function LauncherOptionsFor(settings: DriverSettings): (o: LauncherOptions)
    ensures settings.isSupervised ==> o.supervisorProcess == settings.supervisorProcess && o.supervisorProcessArgs == settings.supervisorProcessArgs
    ensures !settings.isSupervised ==> o == LauncherOptions(None, [])
  {
    var base := LauncherOptions(None, []);
    if settings.isSupervised then base.(supervisorProcess := settings.supervisorProcess,
                                        supervisorProcessArgs := base.supervisorProcessArgs + settings.supervisorProcessArgs)
    else base
  }

  /**
   * `launchIfAbsent`: the browser stored under the key, or a new one launched and stored; a
   * failed launch stores nothing.
   */
  function LaunchIfAbsentSpec(s: BrowserState, id: BrowserId, launcher: LauncherOptions, options: ChromeOptions, fails: bool)
    : (BrowserState, Result<Browser, LaunchError>)
  {
    var key := Key(id);
    if key in s.browsers then (s, Ok(s.browsers[key]))
    else if fails then (s, Err(BrowserLaunchFailed(id)))
    else
      var b := Browser(s.nextSerial, id, launcher, options);
      (s.(browsers := s.browsers[key := b], nextSerial := s.nextSerial + 1), Ok(b))
  }

  /** `launch`: the supervisor options of the settings, and Chrome options of the capabilities. */
  function LaunchSpec(s: BrowserState, id: BrowserId, settings: DriverSettings, capabilities: map<string, string>, fails: bool)
    : (BrowserState, Result<Browser, LaunchError>)
  {
    LaunchIfAbsentSpec(s, id, LauncherOptionsFor(settings), ChromeOptions(capabilities), fails)
  }

  /**
   * A browser is launched only when none is stored under the key: a stored one comes back with
   * nothing changed; otherwise a successful launch stores a browser with a new serial, with
   * the options given, and changes no other key.
   */
  lemma LaunchOnlyWhenAbsent(s: BrowserState, id: BrowserId, launcher: LauncherOptions, options: ChromeOptions, fails: bool)
    requires Inv(s)
    ensures var (s1, r) := LaunchIfAbsentSpec(s, id, launcher, options, fails);
      && Inv(s1) && s1.closed == s.closed && s1.closedBrowserIds == s.closedBrowserIds && s1.shutDown == s.shutDown
      && (Key(id) in s.browsers ==> s1 == s && r == Ok(s.browsers[Key(id)]))
      && (Key(id) !in s.browsers && fails ==> s1 == s && r.Err?)
      && (Key(id) !in s.browsers && !fails ==>
            && r.Ok? && r.value.id == id && r.value.launcherOptions == launcher && r.value.launchOptions == options
            && s1.browsers == s.browsers[Key(id) := r.value]
            && forall k :: k in s.browsers ==> s.browsers[k].serial != r.value.serial)
  {
  }

  /** Once a launch succeeded, every later launch for the same directory returns that browser. */
  lemma LaunchRepeatsSameBrowser(s: BrowserState, id: BrowserId, launcher: LauncherOptions, options: ChromeOptions, fails: bool,
                                 launcher2: LauncherOptions, options2: ChromeOptions, fails2: bool)
    requires LaunchIfAbsentSpec(s, id, launcher, options, fails).1.Ok?
    ensures var (s1, r1) := LaunchIfAbsentSpec(s, id, launcher, options, fails);
      LaunchIfAbsentSpec(s1, id, launcher2, options2, fails2) == (s1, r1)
  {
  }

  /**
   * `closeBrowserGracefully`: remove the key and close the browser it held; the identity is then
   * recorded as closed, whether or not a browser was there. A close that throws propagates
   * after the removal and before the record.
   */
  function CloseBrowserGracefullySpec(s: BrowserState, id: BrowserId, closeFails: bool): (BrowserState, Result<(), LaunchError>)
  {
    var key := Key(id);
    if key !in s.browsers then (s.(closedBrowserIds := s.closedBrowserIds + [id]), Ok(()))
    else
      var b := s.browsers[key];
      var s1 := s.(browsers := s.browsers - {key});
      if closeFails then (s1, Err(BrowserCloseFailed(b.serial)))
      else (s1.(closedBrowserIds := s1.closedBrowserIds + [id], shutDown := s1.shutDown + {b.serial}), Ok(()))
  }

  /**
   * The key is gone afterwards and the other keys are untouched; the identity is appended
   * exactly when no close threw, even for a directory that held no browser.
   */
  lemma CloseGracefullyRemovesKey(s: BrowserState, id: BrowserId, closeFails: bool)
    requires Inv(s)
    ensures var (s1, r) := CloseBrowserGracefullySpec(s, id, closeFails);
      && Inv(s1) && s1.closed == s.closed && Key(id) !in s1.browsers
      && (forall k :: k in s.browsers && k != Key(id) ==> k in s1.browsers && s1.browsers[k] == s.browsers[k])
      && (forall k :: k in s1.browsers ==> k in s.browsers)
      && (r.Ok? ==> s1.closedBrowserIds == s.closedBrowserIds + [id])
      && (r.Err? ==> s1.closedBrowserIds == s.closedBrowserIds && Key(id) in s.browsers && closeFails)
      && (Key(id) !in s.browsers ==> r.Ok?)
  {
  }

  /**
   * `close`: on the first call only, close every browser (a browser whose close throws is
   * only logged, so the others are still closed), then clear the map.
   */
  function CloseSpec(s: BrowserState, failing: set<nat>): BrowserState
  {
    if s.closed then s
    else s.(closed := true, browsers := map[],
            shutDown := s.shutDown + set k | k in s.browsers && s.browsers[k].serial !in failing :: s.browsers[k].serial)
  }

  /**
   * The first close leaves no browser and shuts down every browser whose close does not throw;
   * only the first call acts.
   */
  lemma CloseActsOnce(s: BrowserState, failing: set<nat>, failing2: set<nat>)
    requires Inv(s)
    ensures var s1 := CloseSpec(s, failing);
      && Inv(s1) && s1.closed && s1.browsers == (if s.closed then s.browsers else map[])
      && s1.closedBrowserIds == s.closedBrowserIds
      && (!s.closed ==> forall k :: k in s.browsers && s.browsers[k].serial !in failing ==> s.browsers[k].serial in s1.shutDown)
      && (!s.closed ==> forall n :: n in s1.shutDown && n !in s.shutDown ==> n !in failing)
      && CloseSpec(s1, failing2) == s1
  {
  }

  /** The object: the fields mirror BrowserState, and the launch counter is the browser factory's. */
  class BrowserManager {
    var closed: bool
    var browsers: map<string, Browser>
    var closedBrowserIds: seq<BrowserId>
    var shutDown: set<nat>
    var nextSerial: nat

    function State(): BrowserState
      reads this
    {
      BrowserState(closed, browsers, closedBrowserIds, shutDown, nextSerial)
    }

    ghost predicate Valid()
      reads this
    {
      Inv(State())
    }

    constructor()
      ensures State() == InitialState() && Valid()
    {
      closed := false;
      browsers := map[];
      closedBrowserIds := [];
      shutDown := {};
      nextSerial := 0;
    }

    /** `launch`; fails says whether `BrowserFactory.launch` throws. */
    method Launch(id: BrowserId, settings: DriverSettings, capabilities: map<string, string>, fails: bool)
      returns (r: Result<Browser, LaunchError>)
      modifies this
      ensures (State(), r) == LaunchSpec(old(State()), id, settings, capabilities, fails)
    {
      var launcher := LauncherOptions(None, []);
      if settings.isSupervised {
        launcher := launcher.(supervisorProcess := settings.supervisorProcess);
        launcher := launcher.(supervisorProcessArgs := launcher.supervisorProcessArgs + settings.supervisorProcessArgs);
      }
      var options := ChromeOptions(capabilities);
      r := LaunchIfAbsent(id, launcher, options, fails);
    }

    /** `launchIfAbsent`. */
    method LaunchIfAbsent(id: BrowserId, launcher: LauncherOptions, options: ChromeOptions, fails: bool)
      returns (r: Result<Browser, LaunchError>)
      modifies this
      ensures (State(), r) == LaunchIfAbsentSpec(old(State()), id, launcher, options, fails)
    {
      var key := Key(id);
      if key in browsers {
        return Ok(browsers[key]);
      }
      if fails {
        return Err(BrowserLaunchFailed(id));
      }
      var b := Browser(nextSerial, id, launcher, options);
      nextSerial := nextSerial + 1;
      browsers := browsers[key := b];
      return Ok(b);
    }

    /** `closeBrowserGracefully`; closeFails says whether the browser's close throws. */
    method CloseBrowserGracefully(id: BrowserId, closeFails: bool) returns (r: Result<(), LaunchError>)
      modifies this
      ensures (State(), r) == CloseBrowserGracefullySpec(old(State()), id, closeFails)
    {
      var key := Key(id);
      if key in browsers {
        var b := browsers[key];
        browsers := browsers - {key};
        if closeFails {
          return Err(BrowserCloseFailed(b.serial));
        }
        shutDown := shutDown + {b.serial};
      }
      closedBrowserIds := closedBrowserIds + [id];
      return Ok(());
    }

    /** `close`; failing are the serials of the browsers whose close throws. */
    method Close(failing: set<nat>)
      modifies this
      ensures State() == CloseSpec(old(State()), failing)
    {
      if closed {
        return;
      }
      closed := true;
      var rest := browsers.Keys;
      ghost var all := browsers;
      while rest != {}
        invariant rest <= all.Keys && browsers == all && closed
        invariant closedBrowserIds == old(closedBrowserIds) && nextSerial == old(nextSerial)
        invariant shutDown == old(shutDown) + set k | k in all.Keys - rest && all[k].serial !in failing :: all[k].serial
        decreases |rest|
      {
        var k :| k in rest;
        if browsers[k].serial !in failing {
          shutDown := shutDown + {browsers[k].serial};
        }
        ghost var done := all.Keys - rest;
        rest := rest - {k};
        assert all.Keys - rest == done + {k};
      }
      browsers := map[];
    }
  }
}
