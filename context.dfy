/** The start-up context `api_http.Initialize` receives. Its Go declaration is not part of
    this model; the fields are the ones `api_http/initialize.go` reads. */
module Context {
  import opened Common

  /** A request handler supplied by the application (a Go `H`). */
  type Handler = Ref

  /** The cookie parameters in `ctx.Auth`; the max-age is still a string. */
  datatype AuthParams = AuthParams(
    cookieName: string,
    cookieStoreId: string,
    cookiePath: string,
    cookieDomain: string,
    cookieMaxAge: string)

  /** `ctx.Dirs`: where the version tracking file lives and whom the watcher notifies. */
  datatype Dirs = Dirs(versionFileDir: string, appWatchNotify: Ref)

  /** A WebSocket route: its URL and its table of procedures. */
  datatype WsRoute = WsRoute(url: string, procs: Ref)

  /** `ctx.Handlers_HTML`. */
  datatype HtmlHandlers = HtmlHandlers(
    public: map<string, Handler>,
    authd: map<string, Handler>,
    notFound: Handler)

  /** `ctx.Handlers_XHR`. */
  datatype XhrHandlers = XhrHandlers(public: map<string, Handler>, authd: map<string, Handler>)

  /** `ctx.Handlers_WS`: slices, so their order is fixed. */
  datatype WsHandlers = WsHandlers(public: seq<WsRoute>, authd: seq<WsRoute>)

  /** `ctx.Handlers_FILE`. */
  datatype FileHandlers = FileHandlers(public: map<string, Handler>)

  datatype Ctx = Ctx(
    auth: AuthParams,
    dirs: Dirs,
    onPanic: Option<Ref>,
    html: HtmlHandlers,
    xhr: XhrHandlers,
    ws: WsHandlers,
    file: FileHandlers)
}
