/** Start-up of the HTTP layer: `Initialize` configures authentication, the version watcher,
    the panic handler, the request/response, XHR and WebSocket packages and finally the router,
    in that order, stopping at the first error and remembering the context only when every step
    succeeded. The packages it drives (`auth`, `api_ws`) are modelled by their own modules; the
    ones whose code is not part of this model (`reqres`, `api_xhr`, `reseer`, `path`, the synonym
    table and the version setter) are collaborators passed in as functions. */
module ApiHttp {
  import opened Common
  import opened Context
  import opened Routes
  import Strconv
  import Auth
  import ApiWs

  const ErrNoCookieName: Error := "Cookie name must be specified"
  const ErrNoCookieStoreId: Error := "Cookie store ID must be specified"
  const ErrNoOnPanic: Error := "OnPanic handler must be provided"

  /** The version tracking file inside `ctx.Dirs.VersionFileDir`. */
  const TrackFile := "reseer_track.csv"

  /** The function values this package hands to others. */
  const GetVersion := Ref("api_http.GetVersion")
  const CloseAuthdConn := Ref("api_ws.CloseAuthdConn")

  /** What `reseer.New` returns: the watcher (nil or not) and an error. */
  datatype WatcherResult = WatcherResult(watcher: Option<Ref>, err: Option<Error>)

  /** The collaborators whose code is not part of this model, as functions of their inputs. */
  datatype Env = Env(
    routeSynonyms: string -> seq<string>,           // routeSynonyms(r)
    joinPath: (string, string) -> string,           // path.Join(dir, file)
    newWatcher: (string, Ref) -> WatcherResult,     // reseer.New(file, notify, onAppVersionChanged)
    versionText: Option<Ref> -> string,             // _versionWatcher.VersionTxt()
    reqresInit: Option<Ref> -> Option<Error>,       // reqres.Initialize(onPanic)
    xhrInit: Option<Ref> -> Option<Error>)          // api_xhr.Initialize(onPanic)

  /** Everything `Initialize` and `DeInitialize` can change: this package's variables `_ctx`,
      `_versionWatcher`, the app version, the root handler of `http.Handle("/")` and the
      watchers stopped so far, and the state of the `auth` and `api_ws` packages. */
  datatype World = World(
    ctx: Option<Ctx>,
    watcher: Option<Ref>,
    appVersion: string,
    root: Option<Router>,
    stopped: seq<Ref>,
    authSettings: Auth.Settings,
    deAuth: seq<Ref>,
    wsSettings: ApiWs.Settings)

  /** A world after a step, and the error the step returned. */
  datatype Step = Step(world: World, err: Option<Error>)

  const InitialWorld := World(None, None, "", None, [], Auth.ZeroSettings, [], ApiWs.ZeroSettings)

  // ---------------------------------------------------------------------------------------
  // The steps, as functions of the world
  // ---------------------------------------------------------------------------------------

  /** `Initialize_Auth`: both cookie names are checked here first; then `auth.Initialize` runs
      and `CloseAuthdConn` is registered as a de-auth listener whatever it returned. Only the
      `auth` package changes, by at most one listener, and the error is one of four messages. */
  function AuthStep(w: World, c: Ctx): (r: Step)
    ensures r.world == w.(authSettings := r.world.authSettings, deAuth := r.world.deAuth)
    ensures r.world.deAuth == w.deAuth || r.world.deAuth == w.deAuth + [CloseAuthdConn]
    ensures r.err in {None, Some(ErrNoCookieName), Some(ErrNoCookieStoreId), Some(Auth.ErrMaxAgeNotInteger)}
  {
    var p := c.auth;
    if p.cookieName == "" then Step(w, Some(ErrNoCookieName))
    else if p.cookieStoreId == "" then Step(w, Some(ErrNoCookieStoreId))
    else
      var o := Auth.Configure(w.authSettings, p.cookieName, p.cookieStoreId, p.cookiePath,
                              p.cookieDomain, p.cookieMaxAge);
      Step(w.(authSettings := o.settings, deAuth := w.deAuth + [CloseAuthdConn]), o.err)
  }

  /** `Initialize_Dirs`: the watcher variable takes whatever `reseer.New` returned; the app
      version is set from it only when no error came back. Nothing else changes. */
  function DirsStep(w: World, dirs: Dirs, env: Env): (r: Step)
    ensures r.world == w.(watcher := r.world.watcher, appVersion := r.world.appVersion)
    ensures r.err != None ==> r.world.appVersion == w.appVersion
  {
    var r := env.newWatcher(env.joinPath(dirs.versionFileDir, TrackFile), dirs.appWatchNotify);
    var w' := w.(watcher := r.watcher);
    if r.err == None then Step(w'.(appVersion := env.versionText(r.watcher)), None)
    else Step(w', r.err)
  }

  /** `Initialize_WS`: `api_ws.Initialize(GetVersion, ctx.OnPanic)`. Since `GetVersion` is
      never nil, it fails exactly when the panic handler is nil; only `api_ws` changes. */
  function WsStep(w: World, c: Ctx): (r: Step)
    ensures r.world == w.(wsSettings := r.world.wsSettings)
    ensures r.err == None <==> c.onPanic.Some?
  {
    var o := ApiWs.Configure(w.wsSettings, Some(GetVersion), c.onPanic);
    Step(w.(wsSettings := o.settings), o.err)
  }

  /** The router `Initialize_Router` builds for the given key orders. */
  function RouterFor(c: Ctx, env: Env, orders: Orders): Router
  {
    Router(RoutesFor(c, env.routeSynonyms, orders), Some(MadeNotFound(c.html.notFound)))
  }

  /** `Initialize_Router`: the router becomes the root handler; no error is ever returned. */
  function RouterStep(w: World, c: Ctx, env: Env, orders: Orders): Step
  {
    Step(w.(root := Some(RouterFor(c, env, orders))), None)
  }

  /** The steps of `Initialize` before the router, which never look at the handler maps. They
      leave the context, the root handler and the stopped watchers alone, and when they
      succeed the panic handler was given and `api_ws` holds it. */
  function Prepare(w: World, c: Ctx, env: Env): (r: Step)
    ensures r.world.ctx == w.ctx && r.world.root == w.root && r.world.stopped == w.stopped
    ensures r.err == None ==> c.onPanic.Some? && r.world.wsSettings == ApiWs.Settings(Some(GetVersion), c.onPanic)
  {
    var a := AuthStep(w, c);
    if a.err != None then a
    else
      var d := DirsStep(a.world, c.dirs, env);
      if d.err != None then d
      else if c.onPanic == None then Step(d.world, Some(ErrNoOnPanic))
      else if env.reqresInit(c.onPanic) != None then Step(d.world, env.reqresInit(c.onPanic))
      else if env.xhrInit(c.onPanic) != None then Step(d.world, env.xhrInit(c.onPanic))
      else WsStep(d.world, c)
  }

  /** `Initialize`, for the key orders the router loops take: after the router step succeeds the
      context is remembered. A failed start-up installs neither the context nor a router; a
      successful one installs both; no watcher is ever stopped. */
  function Startup(w: World, c: Ctx, env: Env, orders: Orders): (r: Step)
    ensures r.world.stopped == w.stopped
    ensures r.err != None ==> r.world.ctx == w.ctx && r.world.root == w.root
    ensures r.err == None ==> r.world.ctx == Some(c) && r.world.root == Some(RouterFor(c, env, orders))
  {
    var p := Prepare(w, c, env);
    if p.err != None then p
    else
      var r := RouterStep(p.world, c, env, orders);
      if r.err != None then r
      else Step(r.world.(ctx := Some(c)), None)
  }

  /** `DeInitialize`: the watcher is stopped only when there is one. Only the list of stopped
      watchers changes, by at most the current watcher. */
  function Shutdown(w: World): (r: World)
    ensures r == w.(stopped := r.stopped)
    ensures |w.stopped| <= |r.stopped| <= |w.stopped| + 1 && r.stopped[..|w.stopped|] == w.stopped
    ensures |r.stopped| > |w.stopped| ==> w.watcher == Some(r.stopped[|w.stopped|])
  {
    if w.watcher.Some? then w.(stopped := w.stopped + [w.watcher.value]) else w
  }

  // ---------------------------------------------------------------------------------------
  // The package
  // ---------------------------------------------------------------------------------------

  /** The state of the `api_http` package and the two packages it configures. */
  class HttpPackage {
    var ctx: Option<Ctx>
    var versionWatcher: Option<Ref>
    var appVersion: string
    var rootHandler: Option<Router>
    /** The watchers `Stop` was called on, in order. */
    var stopped: seq<Ref>
    const auth: Auth.AuthPackage
    const ws: ApiWs.WsPackage

    function Current(): World
      reads this, auth, ws
    {
      World(ctx, versionWatcher, appVersion, rootHandler, stopped,
            auth.State(), auth.deAuthListeners, ws.State())
    }

    constructor ()
      ensures Current() == InitialWorld
      ensures fresh(auth) && fresh(ws)
    {
      ctx, versionWatcher, appVersion, rootHandler, stopped := None, None, "", None, [];
      auth := new Auth.AuthPackage();
      ws := new ApiWs.WsPackage();
    }

    /** `Initialize_Auth(&ctx)`. */
    method InitializeAuth(c: Ctx) returns (err: Option<Error>)
      modifies auth
      ensures Step(Current(), err) == AuthStep(old(Current()), c)
    {
      var params := c.auth;
      if params.cookieName == "" {
        return Some(ErrNoCookieName);
      }
      if params.cookieStoreId == "" {
        return Some(ErrNoCookieStoreId);
      }
      err := auth.Initialize(params.cookieName, params.cookieStoreId, params.cookiePath,
                             params.cookieDomain, params.cookieMaxAge);
      auth.AddListenerDeAuth(CloseAuthdConn);
    }

    /** `Initialize_Dirs(ctx.Dirs)`. */
    method InitializeDirs(dirs: Dirs, env: Env) returns (err: Option<Error>)
      modifies this
      ensures Step(Current(), err) == DirsStep(old(Current()), dirs, env)
    {
      var r := env.newWatcher(env.joinPath(dirs.versionFileDir, TrackFile), dirs.appWatchNotify);
      versionWatcher, err := r.watcher, r.err;
      if err == None {
        appVersion := env.versionText(versionWatcher);
      }
    }

    /** `Initialize_WS(&ctx)`. */
    method InitializeWS(c: Ctx) returns (err: Option<Error>)
      modifies ws
      ensures Step(Current(), err) == WsStep(old(Current()), c)
    {
      err := ws.Initialize(Some(GetVersion), c.onPanic);
    }

    /** `Initialize_Router(&ctx)`: builds the router, installs it as the root handler and
        returns the route summary it would print. */
    method InitializeRouter(c: Ctx, env: Env)
      returns (err: Option<Error>, summ: seq<SummaryLine>, ghost orders: Orders)
      modifies this
      ensures ValidOrders(c, orders)
      ensures Step(Current(), err) == RouterStep(old(Current()), c, env, orders)
      ensures summ == SummaryFor(c, orders)
    {
      var router;
      router, summ, orders := BuildRouter(c, env.routeSynonyms);
      rootHandler := Some(router);
      err := None;
    }

    /** `Initialize(ctx)`. The key orders matter only when the router step is reached. */
    method Initialize(c: Ctx, env: Env) returns (err: Option<Error>, ghost orders: Orders)
      modifies this, auth, ws
      ensures Step(Current(), err) == Startup(old(Current()), c, env, orders)
      ensures err == None ==> ValidOrders(c, orders)
    {
      orders := Orders([], [], [], [], []);
      ghost var a := AuthStep(Current(), c);
      err := InitializeAuth(c);
      if err != None {
        return;
      }
      ghost var d := DirsStep(a.world, c.dirs, env);
      err := InitializeDirs(c.dirs, env);
      if err != None {
        return;
      }
      if c.onPanic == None {
        return Some(ErrNoOnPanic), orders;
      }
      err := env.reqresInit(c.onPanic);
      if err != None {
        return;
      }
      err := env.xhrInit(c.onPanic);
      if err != None {
        return;
      }
      ghost var p := WsStep(d.world, c);
      err := InitializeWS(c);
      assert Step(Current(), err) == p == Prepare(old(Current()), c, env);
      if err != None {
        return;
      }
      var summ;
      err, summ, orders := InitializeRouter(c, env);
      if err != None {
        return;
      }
      ctx := Some(c);
    }

    /** `DeInitialize()`. */
    method DeInitialize()
      modifies this
      ensures Current() == Shutdown(old(Current()))
    {
      if versionWatcher.Some? {
        stopped := stopped + [versionWatcher.value];
      }
    }
  }

  // ---------------------------------------------------------------------------------------
  // Properties of start-up
  // ---------------------------------------------------------------------------------------

  /** The context is remembered exactly when start-up succeeds; otherwise it keeps its old
      value. */
  lemma ContextCommittedOnlyOnSuccess(w: World, c: Ctx, env: Env, orders: Orders)
    ensures var s := Startup(w, c, env, orders);
            s.world.ctx == if s.err == None then Some(c) else w.ctx
  {
  }

  /** A missing cookie name or store id stops start-up before anything changes: `auth` is not
      configured and no listener is registered. */
  lemma MissingCookieNamesChangeNothing(w: World, c: Ctx, env: Env, orders: Orders)
    requires c.auth.cookieName == "" || c.auth.cookieStoreId == ""
    ensures Startup(w, c, env, orders)
         == Step(w, Some(if c.auth.cookieName == "" then ErrNoCookieName else ErrNoCookieStoreId))
  {
  }

  /** With both cookie names given, `CloseAuthdConn` is registered exactly once by the call,
      whatever `auth.Initialize` and the later steps return. */
  lemma ListenerRegisteredOnce(w: World, c: Ctx, env: Env, orders: Orders)
    requires c.auth.cookieName != "" && c.auth.cookieStoreId != ""
    ensures Startup(w, c, env, orders).world.deAuth == w.deAuth + [CloseAuthdConn]
  {
  }

  /** With both cookie names checked here, `auth.Initialize` can fail only on the max-age: its
      own empty-name checks are never the ones that fire. */
  lemma AuthFailsOnlyOnMaxAge(w: World, c: Ctx)
    requires c.auth.cookieName != "" && c.auth.cookieStoreId != ""
    ensures var a := AuthStep(w, c);
            && (a.err == None <==> Strconv.Accepts(c.auth.cookieMaxAge))
            && (a.err != None ==> a.err == Some(Auth.ErrMaxAgeNotInteger))
  {
    Auth.MaxAgeAcceptedIff(w.authSettings, c.auth.cookieName, c.auth.cookieStoreId,
                           c.auth.cookiePath, c.auth.cookieDomain, c.auth.cookieMaxAge);
  }

  /** An error from the auth step (a missing cookie name, a malformed max-age) or from
      `reseer.New` is what start-up returns, from the world that step left: no later step runs,
      whatever the panic handler is. */
  lemma AuthAndDirsErrorsStopStartup(w: World, c: Ctx, env: Env, orders: Orders)
    ensures var a := AuthStep(w, c);
            var d := DirsStep(a.world, c.dirs, env);
            && (a.err != None ==> Startup(w, c, env, orders) == a)
            && (a.err == None && d.err != None ==> Startup(w, c, env, orders) == d)
  {
  }

  /** A nil panic handler is reported only once auth and the watcher have been set up, whose
      effects then remain. */
  lemma NilOnPanicReportedAfterAuthAndDirs(w: World, c: Ctx, env: Env, orders: Orders)
    requires c.onPanic == None
    ensures var a := AuthStep(w, c);
            var d := DirsStep(a.world, c.dirs, env);
            Startup(w, c, env, orders)
              == if a.err != None then a
                 else if d.err != None then d
                 else Step(d.world, Some(ErrNoOnPanic))
  {
  }

  /** Once auth and the watcher are set up and a panic handler is given, a `reqres` error is
      returned as it is and `api_xhr` is never called; an `api_xhr` error is returned only after
      `reqres` succeeded. Either way `api_ws` is not configured and neither a router nor the
      context is installed. */
  lemma ReqresAndXhrErrorsStopStartup(w: World, c: Ctx, env: Env, orders: Orders)
    requires AuthStep(w, c).err == None
    requires DirsStep(AuthStep(w, c).world, c.dirs, env).err == None
    requires c.onPanic.Some?
    ensures var d := DirsStep(AuthStep(w, c).world, c.dirs, env);
            && (env.reqresInit(c.onPanic) != None ==>
                  Startup(w, c, env, orders) == Step(d.world, env.reqresInit(c.onPanic)))
            && (env.reqresInit(c.onPanic) == None && env.xhrInit(c.onPanic) != None ==>
                  Startup(w, c, env, orders) == Step(d.world, env.xhrInit(c.onPanic)))
            && (env.reqresInit(c.onPanic) != None || env.xhrInit(c.onPanic) != None ==>
                  var s := Startup(w, c, env, orders).world;
                  s.wsSettings == w.wsSettings && s.root == w.root && s.ctx == w.ctx)
  {
  }

  /** The WebSocket and router steps never fail once reached: start-up succeeds exactly when the
      cookie settings are valid, the watcher starts, a panic handler is given and the `reqres`
      and `api_xhr` packages accept it. */
  lemma StartupSucceedsIff(w: World, c: Ctx, env: Env, orders: Orders)
    ensures var d := DirsStep(AuthStep(w, c).world, c.dirs, env);
            Startup(w, c, env, orders).err == None
            <==> && c.auth.cookieName != "" && c.auth.cookieStoreId != ""
                 && Strconv.Accepts(c.auth.cookieMaxAge)
                 && d.err == None
                 && c.onPanic.Some?
                 && env.reqresInit(c.onPanic) == None
                 && env.xhrInit(c.onPanic) == None
  {
    if c.auth.cookieName != "" && c.auth.cookieStoreId != "" {
      AuthFailsOnlyOnMaxAge(w, c);
    }
  }

  /** After a successful start-up every package holds what the context asked for. */
  lemma SuccessfulStartupState(w: World, c: Ctx, env: Env, orders: Orders)
    requires Startup(w, c, env, orders).err == None
    ensures var s := Startup(w, c, env, orders).world;
            var p := c.auth;
            var r := env.newWatcher(env.joinPath(c.dirs.versionFileDir, TrackFile), c.dirs.appWatchNotify);
            && s.ctx == Some(c)
            && Strconv.Accepts(p.cookieMaxAge)
            && s.authSettings == Auth.Settings(p.cookieName, p.cookieStoreId,
                                               Some(Auth.CookieStore(p.cookieStoreId)), p.cookiePath,
                                               p.cookieDomain, Strconv.Denoted(p.cookieMaxAge))
            && s.deAuth == w.deAuth + [CloseAuthdConn]
            && s.watcher == r.watcher && s.appVersion == env.versionText(r.watcher)
            && s.wsSettings == ApiWs.Settings(Some(GetVersion), c.onPanic)
            && s.root == Some(RouterFor(c, env, orders))
            && s.stopped == w.stopped
  {
    StartupSucceedsIff(w, c, env, orders);
    Strconv.AtoiSpec(c.auth.cookieMaxAge);
  }

  /** The watcher variable always takes the new watcher; the version is set only without an
      error. */
  lemma DirsVersionOnlyOnSuccess(w: World, dirs: Dirs, env: Env)
    ensures var r := env.newWatcher(env.joinPath(dirs.versionFileDir, TrackFile), dirs.appWatchNotify);
            var d := DirsStep(w, dirs, env);
            && d.err == r.err
            && d.world.watcher == r.watcher
            && d.world.appVersion == (if r.err == None then env.versionText(r.watcher) else w.appVersion)
            && d.world.(watcher := w.watcher, appVersion := w.appVersion) == w
  {
  }

  /** Whatever order Go visits the handler maps in, start-up ends in the same state except for
      the order of the router's registrations, which hold the same entries. */
  lemma StartupOrderIndependent(w: World, c: Ctx, env: Env, o1: Orders, o2: Orders)
    requires ValidOrders(c, o1) && ValidOrders(c, o2)
    ensures Startup(w, c, env, o1).err == Startup(w, c, env, o2).err
    ensures Startup(w, c, env, o1).world.(root := None) == Startup(w, c, env, o2).world.(root := None)
    ensures Startup(w, c, env, o1).err == None ==>
              multiset(Startup(w, c, env, o1).world.root.value.routes)
              == multiset(Startup(w, c, env, o2).world.root.value.routes)
  {
    RoutesOrderIndependent(c, env.routeSynonyms, o1, o2);
  }

  /** `DeInitialize` stops the watcher when there is one, and otherwise does nothing. */
  lemma ShutdownStopsOnlyAWatcher(w: World)
    ensures w.watcher == None ==> Shutdown(w) == w
    ensures w.watcher.Some? ==> Shutdown(w) == w.(stopped := w.stopped + [w.watcher.value])
  {
  }

  /** `DeInitialize` after a successful `Initialize` stops exactly the watcher `reseer.New`
      returned, if it returned one. */
  lemma ShutdownAfterStartup(w: World, c: Ctx, env: Env, orders: Orders)
    requires Startup(w, c, env, orders).err == None
    ensures var r := env.newWatcher(env.joinPath(c.dirs.versionFileDir, TrackFile), c.dirs.appWatchNotify);
            Shutdown(Startup(w, c, env, orders).world).stopped
              == w.stopped + if r.watcher.Some? then [r.watcher.value] else []
  {
    SuccessfulStartupState(w, c, env, orders);
  }

  /** The watcher variable is not cleared, so a second `DeInitialize` stops the same watcher
      again. */
  lemma RepeatedShutdownStopsTwice(w: World)
    requires w.watcher.Some?
    ensures Shutdown(Shutdown(w)).stopped == w.stopped + [w.watcher.value, w.watcher.value]
  {
    assert Shutdown(w).watcher == w.watcher;
  }
}
