/**
 * `SecretsManager` of src/core/secrets_manager.py: credentials injected into
 * the login form of a browser page without passing through the agent, and a
 * per-user session cache of cookies that validates itself and is deleted
 * when it is stale or unreadable.
 *
 * The browser page is a `Page`: the set of CSS selectors that currently have
 * at least one element, the cookie jar of its context, and a log of the
 * actions performed on it.  The cache directory is a `CacheDisk` mapping
 * file paths to their contents.  SHA-256, the environment and the failures
 * of the browser or the file system are parameters.
 */
module Secrets {
  import opened Base

  datatype Cookie = Cookie(name: string, value: string, domain: string)

  /** What is done to the page, in order. */
  datatype PageAction =
    | Goto(url: Option<string>)
    | FillField(selector: string, text: string)
    | ClickOn(selector: string)
    | AddCookies(cookies: seq<Cookie>)
    | PressKey(key: string)

  class Page {
    /** The selectors for which `get_elements_by_css_selector` returns a non-empty list. */
    var present: set<string>
    /** The cookies of the page's browser context. */
    var cookies: seq<Cookie>
    var log: seq<PageAction>

    constructor(present: set<string>, cookies: seq<Cookie>)
      ensures this.present == present && this.cookies == cookies && log == []
    {
      this.present := present;
      this.cookies := cookies;
      log := [];
    }
  }

  /** A cache file holds a JSON list of cookies, or text that does not decode as one. */
  datatype CacheContent = CookieJar(cookies: seq<Cookie>) | Unreadable

  class CacheDisk {
    var files: map<string, CacheContent>
    /** Files whose mode has been set to 0o600. */
    var ownerOnly: set<string>

    constructor()
      ensures files == map[] && ownerOnly == {}
    {
      files := map[];
      ownerOnly := {};
    }
  }

  // ---------------------------------------------------------------------------
  // Construction (lines 19-37)
  // ---------------------------------------------------------------------------

  /** Python truthiness of an optional string. */
  predicate Truthy(s: Option<string>) {
    s.Some? && s.value != ""
  }

  /** `arg or os.getenv(key)`. */
  function OrEnv(arg: Option<string>, env: map<string, string>, key: string): (r: Option<string>)
    ensures Truthy(arg) ==> r == arg
    ensures !Truthy(arg) ==> r == GetEnv(env, key)
  {
    if Truthy(arg) then arg else GetEnv(env, key)
  }

  const SessionSuffix: string := "_session.json"

  /**
   * The cache file of a user: the first 12 characters of the hex SHA-256 of
   * the user name, then `_session.json`, inside the cache directory; none
   * without a user name.
   */
  function CacheFileFor(dir: string, username: Option<string>, sha256Hex: string -> string): (r: Option<string>)
    ensures r.None? <==> !Truthy(username)
    ensures r.Some? ==>
      |dir| + 1 + |SessionSuffix| <= |r.value| <= |dir| + 1 + 12 + |SessionSuffix| &&
      r.value[..|dir| + 1] == dir + "/" &&
      r.value[|r.value| - |SessionSuffix|..] == SessionSuffix
  {
    if Truthy(username) then Some(dir + "/" + Take(sha256Hex(username.value), 12) + SessionSuffix) else None
  }

  /** Two users share a cache file exactly when their hash prefixes agree. */
  lemma CacheFileSharedIff(dir: string, u1: string, u2: string, sha256Hex: string -> string)
    requires u1 != "" && u2 != ""
    ensures CacheFileFor(dir, Some(u1), sha256Hex) == CacheFileFor(dir, Some(u2), sha256Hex) <==>
      Take(sha256Hex(u1), 12) == Take(sha256Hex(u2), 12)
  {
    var h1 := Take(sha256Hex(u1), 12);
    var h2 := Take(sha256Hex(u2), 12);
    var p1 := dir + "/" + h1 + SessionSuffix;
    var p2 := dir + "/" + h2 + SessionSuffix;
    if p1 == p2 {
      assert |h1| == |h2|;
      assert p1[|dir| + 1..|dir| + 1 + |h1|] == h1;
      assert p2[|dir| + 1..|dir| + 1 + |h2|] == h2;
    }
  }

  // ---------------------------------------------------------------------------
  // Selector resolution (lines 55-91)
  // ---------------------------------------------------------------------------

  const UserSelectors: seq<string> :=
    ["input[name='user-name']", "#user-name", "input[type='email']", "#username", "#email"]
  const PassSelectors: seq<string> := ["input[name='password']", "#password", "input[type='password']"]
  const ButtonSelectors: seq<string> :=
    ["input[type='submit']", "#login-button", "button:has-text('Login')", "button[type='submit']",
     "[data-test='login-button']"]

  /** The index of the first selector, from `i` on, that has elements. */
  function FirstPresentFrom(present: set<string>, sels: seq<string>, i: nat): (r: Option<nat>)
    requires i <= |sels|
    ensures r.Some? ==>
      i <= r.value < |sels| && sels[r.value] in present &&
      forall j :: i <= j < r.value ==> sels[j] !in present
    ensures r.None? ==> forall j :: i <= j < |sels| ==> sels[j] !in present
    decreases |sels| - i
  {
    if i == |sels| then None
    else if sels[i] in present then Some(i)
    else FirstPresentFrom(present, sels, i + 1)
  }

  /** The first selector in list order that has elements: the one the `for ... break` loop acts on. */
  function FirstPresent(present: set<string>, sels: seq<string>): (r: Option<nat>)
    ensures r.Some? ==>
      r.value < |sels| && sels[r.value] in present && forall j :: 0 <= j < r.value ==> sels[j] !in present
    ensures r.None? <==> forall j :: 0 <= j < |sels| ==> sels[j] !in present
  {
    FirstPresentFrom(present, sels, 0)
  }

  /** `elements[0].fill(text)` on the first selector with elements; nothing when none has. */
  function FillFirst(present: set<string>, sels: seq<string>, text: string): seq<PageAction> {
    match FirstPresent(present, sels)
    case None => []
    case Some(k) => [FillField(sels[k], text)]
  }

  /** `elements[0].click()` on the first selector with elements; nothing when none has. */
  function ClickFirst(present: set<string>, sels: seq<string>): seq<PageAction> {
    match FirstPresent(present, sels)
    case None => []
    case Some(k) => [ClickOn(sels[k])]
  }

  /** What `inject_login` does to the page before the post-login alerts. */
  function LoginActions(username: string, password: string, url: Option<string>, present: set<string>): seq<PageAction> {
    [Goto(url)] + FillFirst(present, UserSelectors, username) + FillFirst(present, PassSelectors, password)
    + ClickFirst(present, ButtonSelectors)
  }

  /**
   * The actions that happen when the page raises after `fault` of them (the
   * navigation, a fill or the click failing, or a failing element query before
   * the next action), or all of them when nothing raises.
   */
  function Performed(acts: seq<PageAction>, fault: Option<nat>): (r: seq<PageAction>)
    ensures fault.None? ==> r == acts
    ensures fault.Some? ==> |r| == (if fault.value < |acts| then fault.value else |acts|)
    ensures r <= acts
  {
    if fault.Some? && fault.value < |acts| then acts[..fault.value] else acts
  }

  /** Raising after `k + 1` actions performs the first one and then raises after `k` of the rest. */
  lemma PerformedCons(a: PageAction, acts: seq<PageAction>, fault: Option<nat>)
    requires fault != Some(0)
    ensures Performed([a] + acts, fault) == [a] + Performed(acts, if fault.Some? then Some(fault.value - 1) else None)
  {
    if fault.Some? && fault.value < |[a] + acts| {
      assert ([a] + acts)[..fault.value] == [a] + acts[..fault.value - 1];
    }
  }

  /** No selector is both a user-field and a password-field selector. */
  lemma SelectorListsDisjoint()
    ensures forall s :: s in UserSelectors ==> s !in PassSelectors
  {
  }

  /**
   * The login navigates first, then makes at most one fill per field and at
   * most one click: the user name goes only into a user field, the password
   * only into a password field, and a click carries no text.
   */
  lemma LoginActionsShape(username: string, password: string, url: Option<string>, present: set<string>)
    ensures var acts := LoginActions(username, password, url, present);
      1 <= |acts| <= 4 && acts[0] == Goto(url) &&
      (forall k :: 1 <= k < |acts| ==> !acts[k].Goto?) &&
      (forall k :: 0 <= k < |acts| && acts[k].FillField? ==>
        (acts[k].selector in UserSelectors && acts[k].text == username) ||
        (acts[k].selector in PassSelectors && acts[k].text == password)) &&
      (forall k :: 0 <= k < |acts| && acts[k].ClickOn? ==> acts[k].selector in ButtonSelectors) &&
      (forall k :: 0 <= k < |acts| ==> !acts[k].AddCookies? && !acts[k].PressKey?)
  {
    var acts := LoginActions(username, password, url, present);
    var u := FillFirst(present, UserSelectors, username);
    var p := FillFirst(present, PassSelectors, password);
    var c := ClickFirst(present, ButtonSelectors);
    var tail := u + p + c;
    assert acts == [Goto(url)] + tail;
    FillFirstOk(present, UserSelectors, username, username, password);
    FillFirstOk(present, PassSelectors, password, username, password);
    ClickFirstOk(present, username, password);
    assert |tail| <= 3;
    forall k | 1 <= k < |acts| ensures LoginStepOk(acts[k], username, password) {
      assert acts[k] == tail[k - 1];
      if k - 1 < |u| {
        assert tail[k - 1] == u[k - 1];
      } else if k - 1 < |u| + |p| {
        assert tail[k - 1] == p[k - 1 - |u|];
      } else {
        assert tail[k - 1] == c[k - 1 - |u| - |p|];
      }
    }
  }

  /** An action the login may take after navigating: a fill of the right text into the right kind of field, or a button click. */
  predicate LoginStepOk(a: PageAction, username: string, password: string) {
    !a.Goto? && !a.AddCookies? && !a.PressKey? &&
    (a.FillField? ==> (a.selector in UserSelectors && a.text == username) || (a.selector in PassSelectors && a.text == password)) &&
    (a.ClickOn? ==> a.selector in ButtonSelectors)
  }

  lemma FillFirstOk(present: set<string>, sels: seq<string>, text: string, username: string, password: string)
    requires (sels == UserSelectors && text == username) || (sels == PassSelectors && text == password)
    ensures |FillFirst(present, sels, text)| <= 1
    ensures forall k :: 0 <= k < |FillFirst(present, sels, text)| ==> LoginStepOk(FillFirst(present, sels, text)[k], username, password)
  {
  }

  lemma ClickFirstOk(present: set<string>, username: string, password: string)
    ensures |ClickFirst(present, ButtonSelectors)| <= 1
    ensures forall k :: 0 <= k < |ClickFirst(present, ButtonSelectors)| ==> LoginStepOk(ClickFirst(present, ButtonSelectors)[k], username, password)
  {
  }

  /** The password is written exactly when a password field exists, into the first such field. */
  lemma PasswordFillIff(username: string, password: string, url: Option<string>, present: set<string>)
    ensures (exists k :: 0 <= k < |LoginActions(username, password, url, present)| &&
               LoginActions(username, password, url, present)[k].FillField? &&
               LoginActions(username, password, url, present)[k].selector in PassSelectors) <==>
            FirstPresent(present, PassSelectors).Some?
    ensures FirstPresent(present, PassSelectors).Some? ==>
      FillField(PassSelectors[FirstPresent(present, PassSelectors).value], password) in LoginActions(username, password, url, present)
  {
    var acts := LoginActions(username, password, url, present);
    var u := FillFirst(present, UserSelectors, username);
    var p := FillFirst(present, PassSelectors, password);
    var c := ClickFirst(present, ButtonSelectors);
    SelectorListsDisjoint();
    assert acts == [Goto(url)] + u + p + c;
    if FirstPresent(present, PassSelectors).Some? {
      assert acts[1 + |u|] == p[0];
    } else {
      assert p == [];
      assert forall k :: 1 <= k < 1 + |u| ==> acts[k] == u[k - 1];
      assert forall k :: 1 + |u| <= k < |acts| ==> acts[k] == c[k - 1 - |u|];
    }
  }

  /** The Escape presses that happen when press number `keyFault` (from 0) raises, or both of them. */
  function EscapeActions(keyFault: Option<nat>): (r: seq<PageAction>)
    ensures |r| <= 2 && (keyFault.None? ==> |r| == 2)
    ensures keyFault.Some? ==> |r| == if keyFault.value < 2 then keyFault.value else 2
    ensures forall k :: 0 <= k < |r| ==> r[k] == PressKey("Escape")
  {
    var n := if keyFault.None? || keyFault.value >= 2 then 2 else keyFault.value;
    if n == 0 then [] else if n == 1 then [PressKey("Escape")] else [PressKey("Escape"), PressKey("Escape")]
  }

  // ---------------------------------------------------------------------------
  // The session cache (lines 97-170)
  // ---------------------------------------------------------------------------

  /** Where `_save_session` stops: not at all, or at one of its three raising calls. */
  datatype SaveFault = SaveOk | CookiesFail | WriteFails | ChmodFails

  /** The files after `_save_session` with the page holding `cookies`. */
  function SavedFiles(cacheFile: Option<string>, files: map<string, CacheContent>, cookies: seq<Cookie>, fault: SaveFault)
    : map<string, CacheContent>
  {
    if cacheFile.None? || fault == CookiesFail || fault == WriteFails then files
    else files[cacheFile.value := CookieJar(cookies)]
  }

  /** The owner-only files after `_save_session`: the cache file is added once `chmod` succeeds. */
  function SavedOwnerOnly(cacheFile: Option<string>, ownerOnly: set<string>, fault: SaveFault): set<string> {
    if cacheFile.Some? && fault == SaveOk then ownerOnly + {cacheFile.value} else ownerOnly
  }

  /** Saving writes the page's cookies to the cache file once the write succeeds, and touches nothing else. */
  lemma SaveEffect(cacheFile: Option<string>, files: map<string, CacheContent>, cookies: seq<Cookie>, fault: SaveFault)
    ensures var f := SavedFiles(cacheFile, files, cookies, fault);
      (cacheFile.Some? && (fault == SaveOk || fault == ChmodFails) ==>
        cacheFile.value in f && f[cacheFile.value] == CookieJar(cookies) &&
        forall p :: p != cacheFile.value ==> (p in f <==> p in files) && (p in files ==> f[p] == files[p])) &&
      (cacheFile.None? || fault == CookiesFail || fault == WriteFails ==> f == files)
  {
  }

  /** The selectors of the composite query of lines 116-118: the login form is still shown. */
  const LoginMarkers: seq<string> := ["input[name='user-name']", "#user-name", "input[type='email']"]

  /** The query `"a, b, c"` finds no element: none of its selectors does. */
  predicate MarkersAbsent(present: set<string>) {
    forall k :: 0 <= k < |LoginMarkers| ==> LoginMarkers[k] !in present
  }

  /** Where the `try` block of `try_load_cached_session` raises, if it does (reading and decoding are the file's part). */
  datatype PageFault = NoPageFault | AddCookiesFails | GotoFails | QueryFails

  /** The effect of `try_load_cached_session`: its result, the new files, the page actions, the cookies added. */
  datatype LoadEffect = LoadEffect(valid: bool, files: map<string, CacheContent>, actions: seq<PageAction>, added: seq<Cookie>)

  function LoadCached(cacheFile: Option<string>, files: map<string, CacheContent>, url: Option<string>,
                      present: set<string>, fault: PageFault): LoadEffect
  {
    if cacheFile.None? || cacheFile.value !in files then LoadEffect(false, files, [], [])
    else
      var gone := files - {cacheFile.value};
      match files[cacheFile.value]
      case Unreadable => LoadEffect(false, gone, [], [])
      case CookieJar(cs) =>
        if fault == AddCookiesFails then LoadEffect(false, gone, [], [])
        else if fault == GotoFails then LoadEffect(false, gone, [AddCookies(cs)], cs)
        else if fault == QueryFails then LoadEffect(false, gone, [AddCookies(cs), Goto(url)], cs)
        else if MarkersAbsent(present) then LoadEffect(true, files, [AddCookies(cs), Goto(url)], cs)
        else LoadEffect(false, gone, [AddCookies(cs), Goto(url)], cs)
  }

  /** Without a cache file on disk nothing happens and the result is False. */
  lemma LoadWithoutCacheIsInert(cacheFile: Option<string>, files: map<string, CacheContent>, url: Option<string>,
                                present: set<string>, fault: PageFault)
    requires cacheFile.None? || cacheFile.value !in files
    ensures LoadCached(cacheFile, files, url, present, fault) == LoadEffect(false, files, [], [])
  {
  }

  /** A cached session is accepted exactly when its file decodes, nothing raises and the login form is gone. */
  lemma LoadValidIff(cacheFile: Option<string>, files: map<string, CacheContent>, url: Option<string>,
                     present: set<string>, fault: PageFault)
    ensures LoadCached(cacheFile, files, url, present, fault).valid <==>
      cacheFile.Some? && cacheFile.value in files && files[cacheFile.value].CookieJar? &&
      fault == NoPageFault && MarkersAbsent(present)
  {
  }

  /** With a cache file present, it is kept when the session is valid and deleted otherwise, alone. */
  lemma LoadHealsCache(cacheFile: Option<string>, files: map<string, CacheContent>, url: Option<string>,
                       present: set<string>, fault: PageFault)
    requires cacheFile.Some? && cacheFile.value in files
    ensures var e := LoadCached(cacheFile, files, url, present, fault);
      (e.valid ==> e.files == files) &&
      (!e.valid ==> e.files == files - {cacheFile.value} && cacheFile.value !in e.files)
  {
  }

  /** A raising page call never yields True. */
  lemma LoadFaultNeverValid(cacheFile: Option<string>, files: map<string, CacheContent>, url: Option<string>,
                            present: set<string>, fault: PageFault)
    requires fault != NoPageFault
    ensures !LoadCached(cacheFile, files, url, present, fault).valid
  {
  }

  /**
   * A session saved successfully is loaded back: the next load, if the page
   * no longer shows the login form, accepts it and adds exactly the saved cookies.
   */
  lemma SaveThenLoad(cacheFile: Option<string>, files: map<string, CacheContent>, cookies: seq<Cookie>,
                     url: Option<string>, present: set<string>)
    requires cacheFile.Some? && MarkersAbsent(present)
    ensures var e := LoadCached(cacheFile, SavedFiles(cacheFile, files, cookies, SaveOk), url, present, NoPageFault);
      e.valid && e.added == cookies && e.actions == [AddCookies(cookies), Goto(url)]
  {
  }

  /** The files after `clear_cache`. */
  function ClearedFiles(cacheFile: Option<string>, files: map<string, CacheContent>): map<string, CacheContent> {
    if cacheFile.Some? && cacheFile.value in files then files - {cacheFile.value} else files
  }

  /** After `clear_cache` a load finds nothing and does nothing. */
  lemma ClearThenLoad(cacheFile: Option<string>, files: map<string, CacheContent>, url: Option<string>,
                      present: set<string>, fault: PageFault)
    ensures var f := ClearedFiles(cacheFile, files);
      (cacheFile.Some? ==> cacheFile.value !in f) &&
      LoadCached(cacheFile, f, url, present, fault) == LoadEffect(false, f, [], [])
  {
  }

  // ---------------------------------------------------------------------------
  // The manager
  // ---------------------------------------------------------------------------

  const DefaultCacheDir: string := "data/auth_cache"

  class SecretsManager {
    const username: Option<string>
    const password: Option<string>
    const loginUrl: Option<string>
    const cacheDir: string
    const cacheFile: Option<string>
    const disk: CacheDisk

    /** Lines 19-37; the directory is created on demand, and in the map model every directory exists. */
    constructor(username: Option<string>, password: Option<string>, loginUrl: Option<string>, cacheDir: string,
                env: map<string, string>, sha256Hex: string -> string, disk: CacheDisk)
      ensures this.username == OrEnv(username, env, "APP_USERNAME")
      ensures this.password == OrEnv(password, env, "APP_PASSWORD")
      ensures this.loginUrl == OrEnv(loginUrl, env, "APP_LOGIN_URL")
      ensures this.cacheDir == cacheDir && this.disk == disk
      ensures this.cacheFile == CacheFileFor(cacheDir, this.username, sha256Hex)
    {
      this.username := OrEnv(username, env, "APP_USERNAME");
      this.password := OrEnv(password, env, "APP_PASSWORD");
      this.loginUrl := OrEnv(loginUrl, env, "APP_LOGIN_URL");
      this.cacheDir := cacheDir;
      this.disk := disk;
      this.cacheFile := CacheFileFor(cacheDir, OrEnv(username, env, "APP_USERNAME"), sha256Hex);
    }

    /** The `for selector in selectors: ... if elements: ... break` loop: the first selector with elements. */
    method FirstWithElements(page: Page, selectors: seq<string>) returns (found: Option<nat>)
      ensures found == FirstPresent(page.present, selectors)
      ensures found.Some? ==> found.value < |selectors| && selectors[found.value] in page.present
    {
      found := None;
      var i := 0;
      while i < |selectors|
        invariant 0 <= i <= |selectors|
        invariant FirstPresentFrom(page.present, selectors, i) == FirstPresent(page.present, selectors)
        decreases |selectors| - i
      {
        if selectors[i] in page.present {
          found := Some(i);
          break;
        }
        i := i + 1;
      }
    }

    /**
     * `inject_login`: nothing at all without both credentials; otherwise the
     * navigation, the three first-match loops, and the post-login alerts.
     * `loginFault` is where the page raises (see `Performed`); the exception
     * then propagates, so neither the alerts nor the session save happen.
     */
    method InjectLogin(page: Page, loginFault: Option<nat>, keyFault: Option<nat>, saveFault: SaveFault)
      returns (raised: bool)
      modifies page, disk
      ensures page.present == old(page.present) && page.cookies == old(page.cookies)
      ensures !Truthy(username) || !Truthy(password) ==>
        !raised && page.log == old(page.log) && disk.files == old(disk.files) && disk.ownerOnly == old(disk.ownerOnly)
      ensures Truthy(username) && Truthy(password) ==> raised == loginFault.Some?
      ensures Truthy(username) && Truthy(password) && raised ==>
        page.log == old(page.log) + Performed(LoginActions(username.value, password.value, loginUrl, page.present), loginFault) &&
        disk.files == old(disk.files) && disk.ownerOnly == old(disk.ownerOnly)
      ensures Truthy(username) && Truthy(password) && !raised ==>
        page.log == old(page.log) + LoginActions(username.value, password.value, loginUrl, page.present) + EscapeActions(keyFault) &&
        disk.files == SavedFiles(cacheFile, old(disk.files), page.cookies, saveFault) &&
        disk.ownerOnly == SavedOwnerOnly(cacheFile, old(disk.ownerOnly), saveFault)
    {
      if !Truthy(username) || !Truthy(password) {
        return false;
      }
      ghost var acts := LoginActions(username.value, password.value, loginUrl, page.present);
      ghost var tail := FillFirst(page.present, UserSelectors, username.value)
        + FillFirst(page.present, PassSelectors, password.value) + ClickFirst(page.present, ButtonSelectors);
      assert acts == [Goto(loginUrl)] + tail;
      if loginFault == Some(0) {
        assert Performed(acts, loginFault) == [];
        return true;
      }
      page.log := page.log + [Goto(loginUrl)];
      var rest: Option<nat> := if loginFault.Some? then Some(loginFault.value - 1) else None;
      raised := FillAndSubmit(page, username.value, password.value, rest);
      PerformedCons(Goto(loginUrl), tail, loginFault);
      assert page.log == old(page.log) + Performed(acts, loginFault);
      if raised {
        return;
      }
      assert page.log == old(page.log) + acts;
      HandlePostLoginAlerts(page, keyFault, saveFault);
    }

    /** The three first-match loops of lines 75-91; `fault` is where the page raises, counted from the first fill. */
    method FillAndSubmit(page: Page, user: string, pass: string, fault: Option<nat>) returns (raised: bool)
      modifies page
      ensures page.present == old(page.present) && page.cookies == old(page.cookies)
      ensures raised == fault.Some?
      ensures page.log == old(page.log) + Performed(FillFirst(page.present, UserSelectors, user)
        + FillFirst(page.present, PassSelectors, pass) + ClickFirst(page.present, ButtonSelectors), fault)
    {
      var u := FirstWithElements(page, UserSelectors);
      var uActs: seq<PageAction> := if u.Some? then [FillField(UserSelectors[u.value], user)] else [];
      var p := FirstWithElements(page, PassSelectors);
      var pActs: seq<PageAction> := if p.Some? then [FillField(PassSelectors[p.value], pass)] else [];
      var b := FirstWithElements(page, ButtonSelectors);
      var bActs: seq<PageAction> := if b.Some? then [ClickOn(ButtonSelectors[b.value])] else [];
      assert uActs == FillFirst(page.present, UserSelectors, user);
      assert pActs == FillFirst(page.present, PassSelectors, pass);
      assert bActs == ClickFirst(page.present, ButtonSelectors);
      var acts := uActs + pActs + bActs;
      var done := if fault.Some? && fault.value < |acts| then acts[..fault.value] else acts;
      page.log := page.log + done;
      raised := fault.Some?;
    }

    /** `_handle_post_login_alerts`: two Escape presses, a keyboard failure swallowed, then the session saved. */
    method HandlePostLoginAlerts(page: Page, keyFault: Option<nat>, saveFault: SaveFault)
      modifies page, disk
      ensures page.present == old(page.present) && page.cookies == old(page.cookies)
      ensures page.log == old(page.log) + EscapeActions(keyFault)
      ensures disk.files == SavedFiles(cacheFile, old(disk.files), page.cookies, saveFault)
      ensures disk.ownerOnly == SavedOwnerOnly(cacheFile, old(disk.ownerOnly), saveFault)
    {
      if keyFault != Some(0) {
        page.log := page.log + [PressKey("Escape")];
        if keyFault != Some(1) {
          page.log := page.log + [PressKey("Escape")];
        }
      }
      SaveSession(page, saveFault);
    }

    /** `_save_session`: skipped without a cache file; a failure of any of its calls is swallowed. */
    method SaveSession(page: Page, fault: SaveFault)
      modifies disk
      ensures disk.files == SavedFiles(cacheFile, old(disk.files), page.cookies, fault)
      ensures disk.ownerOnly == SavedOwnerOnly(cacheFile, old(disk.ownerOnly), fault)
    {
      if cacheFile.None? {
        return;
      }
      if fault == CookiesFail || fault == WriteFails {
        return;
      }
      disk.files := disk.files[cacheFile.value := CookieJar(page.cookies)];
      if fault == ChmodFails {
        return;
      }
      disk.ownerOnly := disk.ownerOnly + {cacheFile.value};
    }

    /** `try_load_cached_session`. */
    method TryLoadCachedSession(page: Page, fault: PageFault) returns (valid: bool)
      modifies page, disk
      ensures var e := LoadCached(cacheFile, old(disk.files), loginUrl, old(page.present), fault);
        valid == e.valid && disk.files == e.files &&
        page.log == old(page.log) + e.actions && page.cookies == old(page.cookies) + e.added
      ensures page.present == old(page.present) && disk.ownerOnly == old(disk.ownerOnly)
    {
      if cacheFile.None? || cacheFile.value !in disk.files {
        return false;
      }
      var cf := cacheFile.value;
      var content := disk.files[cf];
      if content.Unreadable? {
        disk.files := disk.files - {cf};
        return false;
      }
      if fault == AddCookiesFails {
        disk.files := disk.files - {cf};
        return false;
      }
      page.cookies := page.cookies + content.cookies;
      page.log := page.log + [AddCookies(content.cookies)];
      if fault == GotoFails {
        disk.files := disk.files - {cf};
        return false;
      }
      page.log := page.log + [Goto(loginUrl)];
      if fault == QueryFails {
        disk.files := disk.files - {cf};
        return false;
      }
      if MarkersAbsent(page.present) {
        return true;
      }
      disk.files := disk.files - {cf};
      return false;
    }

    /** `clear_cache`. */
    method ClearCache()
      modifies disk
      ensures disk.files == ClearedFiles(cacheFile, old(disk.files))
      ensures disk.ownerOnly == old(disk.ownerOnly)
    {
      if cacheFile.Some? && cacheFile.value in disk.files {
        disk.files := disk.files - {cacheFile.value};
      }
    }
  }
}
