/** The `api_ws` package's configuration: `Initialize` checks that both callbacks are given,
    in a fixed order, and only then stores them. */
module ApiWs {
  import opened Common

  const ErrNoVerGetter: Error := "Websocket handler needs Version Getter handler"
  const ErrNoOnPanic: Error := "Websocket handler needs OnPanic handler"

  /** The package variables `_verGetter` and `_onPanic`; `None` is nil. */
  datatype Settings = Settings(verGetter: Option<Ref>, onPanic: Option<Ref>)

  const ZeroSettings := Settings(None, None)

  datatype Outcome = Outcome(settings: Settings, err: Option<Error>)

  /** `Initialize` as a function of the old settings and its two arguments. A failed call
      changes nothing, and a successful one leaves both callbacks set: the package never holds
      one callback without the other unless it held it before. */
  function Configure(old_: Settings, verGetter: Option<Ref>, onPanic: Option<Ref>): (r: Outcome)
    ensures r.err in {None, Some(ErrNoVerGetter), Some(ErrNoOnPanic)}
    ensures r.err != None ==> r.settings == old_
    ensures r.err == None ==> r.settings.verGetter.Some? && r.settings.onPanic.Some?
  {
    if verGetter == None then Outcome(old_, Some(ErrNoVerGetter))
    else if onPanic == None then Outcome(old_, Some(ErrNoOnPanic))
    else Outcome(Settings(verGetter, onPanic), None)
  }

  /** The state of the `api_ws` package. */
  class WsPackage {
    var verGetter: Option<Ref>
    var onPanic: Option<Ref>

    function State(): Settings
      reads this
    {
      Settings(verGetter, onPanic)
    }

    constructor ()
      ensures State() == ZeroSettings
    {
      verGetter, onPanic := None, None;
    }

    /** `api_ws.Initialize(verGetter, onPanic)`. */
    method Initialize(verGetter': Option<Ref>, onPanic': Option<Ref>) returns (err: Option<Error>)
      modifies this
      ensures Outcome(State(), err) == Configure(old(State()), verGetter', onPanic')
    {
      if verGetter' == None {
        err := Some(ErrNoVerGetter);
        return;
      }
      if onPanic' == None {
        err := Some(ErrNoOnPanic);
        return;
      }
      verGetter := verGetter';
      onPanic := onPanic';
      err := None;
    }
  }

  /** A nil version getter is reported whatever the panic handler is, and changes nothing. */
  lemma NilVerGetterRejected(s: Settings, onPanic: Option<Ref>)
    ensures Configure(s, None, onPanic) == Outcome(s, Some(ErrNoVerGetter))
  {
  }

  /** A version getter without a panic handler is reported, and changes nothing. */
  lemma NilOnPanicRejected(s: Settings, verGetter: Ref)
    ensures Configure(s, Some(verGetter), None) == Outcome(s, Some(ErrNoOnPanic))
  {
  }

  /** The call succeeds exactly when both callbacks are given, and then stores both; on an
      error both variables keep their old values. */
  lemma ConfigureSucceedsIff(s: Settings, verGetter: Option<Ref>, onPanic: Option<Ref>)
    ensures var r := Configure(s, verGetter, onPanic);
      && (r.err == None <==> verGetter.Some? && onPanic.Some?)
      && (r.err == None ==> r.settings == Settings(verGetter, onPanic))
      && (r.err != None ==> r.settings == s)
  {
  }
}
