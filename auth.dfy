/** The `auth` package's configuration: `Initialize` validates the cookie settings in a fixed
    order and stores them in six package variables. The de-auth listener registry of the same
    package is kept here too, as the list `AddListenerDeAuth` appends to. */
module Auth {
  import opened Common
  import Strconv

  const ErrEmptySessName: Error := "Auth cannot be configured with empty cookie session name"
  const ErrEmptyStoreId: Error := "Auth cannot be configured with empty cookie store id"
  const ErrMaxAgeNotInteger: Error := "Auth cannot be configured with cookie maxAge not integer"

  /** The session cookie store built from the store id; its internals are not modelled. */
  datatype CookieStore = CookieStore(keyPair: string)

  /** The six package variables; `store` is `None` while the `*sessions.CookieStore` is nil. */
  datatype Settings = Settings(
    sessName: string,
    storeId: string,
    store: Option<CookieStore>,
    path: string,
    domain: string,
    maxAge: int)

  /** Go's zero values for the six variables. */
  const ZeroSettings := Settings("", "", None, "", "", 0)

  /** What `Initialize` leaves behind: the new settings and the returned error. */
  datatype Outcome = Outcome(settings: Settings, err: Option<Error>)

  /** `Initialize` as a function of the old settings and its five arguments. The max-age is
      stored from Atoi's result before that result's error is looked at. The error is one of
      the three messages or nil; a failed call changes at most the max-age; and a max-age that
      changes is an int64, since Atoi's failure values are 0 and the int64 bounds. */
  function Configure(old_: Settings, sessName: string, storeId: string, path: string,
                     domain: string, maxAge: string): (r: Outcome)
    ensures r.err in {None, Some(ErrEmptySessName), Some(ErrEmptyStoreId), Some(ErrMaxAgeNotInteger)}
    ensures r.err != None ==> r.settings == old_.(maxAge := r.settings.maxAge)
    ensures r.settings.maxAge == old_.maxAge || InInt64(r.settings.maxAge)
  {
    if sessName == "" then Outcome(old_, Some(ErrEmptySessName))
    else if storeId == "" then Outcome(old_, Some(ErrEmptyStoreId))
    else
      var parsed := Strconv.Atoi(maxAge);
      Strconv.AtoiSpec(maxAge);
      var withMaxAge := old_.(maxAge := parsed.value);
      if parsed.err != Strconv.NoError then Outcome(withMaxAge, Some(ErrMaxAgeNotInteger))
      else Outcome(Settings(sessName, storeId, Some(CookieStore(storeId)), path, domain, parsed.value), None)
  }

  /** The state of the `auth` package. */
  class AuthPackage {
    var cookieSessName: string
    var cookieStoreId: string
    var cookieStore: Option<CookieStore>
    var cookiePath: string
    var cookieDomain: string
    var cookieMaxAge: int
    /** Listeners called on de-authentication, in registration order, duplicates kept. */
    var deAuthListeners: seq<Ref>

    function State(): Settings
      reads this
    {
      Settings(cookieSessName, cookieStoreId, cookieStore, cookiePath, cookieDomain, cookieMaxAge)
    }

    constructor ()
      ensures State() == ZeroSettings && deAuthListeners == []
    {
      cookieSessName, cookieStoreId, cookieStore := "", "", None;
      cookiePath, cookieDomain, cookieMaxAge := "", "", 0;
      deAuthListeners := [];
    }

    /** `auth.Initialize(cookieSessName, cookieStoreId, cookiePath, cookieDomain, cookieMaxAge)`. */
    method Initialize(sessName: string, storeId: string, path: string, domain: string, maxAge: string)
      returns (err: Option<Error>)
      modifies this
      ensures Outcome(State(), err) == Configure(old(State()), sessName, storeId, path, domain, maxAge)
      ensures deAuthListeners == old(deAuthListeners)
    {
      if sessName == "" {
        err := Some(ErrEmptySessName);
        return;
      }
      if storeId == "" {
        err := Some(ErrEmptyStoreId);
        return;
      }
      var parsed := Strconv.Atoi(maxAge);
      cookieMaxAge := parsed.value;
      if parsed.err != Strconv.NoError {
        err := Some(ErrMaxAgeNotInteger);
        return;
      }
      cookieSessName := sessName;
      cookieStoreId := storeId;
      cookieStore := Some(CookieStore(storeId));
      cookiePath := path;
      cookieDomain := domain;
      err := None;
    }

    /** `auth.AddListener_DeAuth`: registers one more listener, without de-duplication. */
    method AddListenerDeAuth(listener: Ref)
      modifies this
      ensures deAuthListeners == old(deAuthListeners) + [listener]
      ensures State() == old(State())
    {
      deAuthListeners := deAuthListeners + [listener];
    }
  }

  // ---------------------------------------------------------------------------------------
  // Properties of Configure
  // ---------------------------------------------------------------------------------------

  /** An empty session name is reported first and changes nothing. */
  lemma EmptySessNameRejected(s: Settings, storeId: string, path: string, domain: string, maxAge: string)
    ensures Configure(s, "", storeId, path, domain, maxAge) == Outcome(s, Some(ErrEmptySessName))
  {
  }

  /** With a session name, an empty store id is reported and changes nothing. */
  lemma EmptyStoreIdRejected(s: Settings, sessName: string, path: string, domain: string, maxAge: string)
    requires sessName != ""
    ensures Configure(s, sessName, "", path, domain, maxAge) == Outcome(s, Some(ErrEmptyStoreId))
  {
  }

  /** Once both names are given, the call succeeds exactly when the max-age is an optionally
      signed decimal integer that fits int64 (negative values included). */
  lemma MaxAgeAcceptedIff(s: Settings, sessName: string, storeId: string, path: string,
                          domain: string, maxAge: string)
    requires sessName != "" && storeId != ""
    ensures var r := Configure(s, sessName, storeId, path, domain, maxAge);
      && (r.err == None <==> Strconv.Accepts(maxAge))
      && (r.err != None ==> r.err == Some(ErrMaxAgeNotInteger))
  {
    Strconv.AtoiSpec(maxAge);
  }

  /** On success every variable holds its argument verbatim, the store is built from the store
      id, and the max-age is the number the string denotes. */
  lemma SuccessStoresArguments(s: Settings, sessName: string, storeId: string, path: string,
                               domain: string, maxAge: string)
    requires Configure(s, sessName, storeId, path, domain, maxAge).err == None
    ensures Strconv.Accepts(maxAge)
    ensures Configure(s, sessName, storeId, path, domain, maxAge).settings
         == Settings(sessName, storeId, Some(CookieStore(storeId)), path, domain, Strconv.Denoted(maxAge))
  {
    Strconv.AtoiSpec(maxAge);
  }

  /** A rejected max-age leaves five variables as they were but overwrites the stored max-age
      with Atoi's failure value: 0 for a malformed string, the int64 bound for an overflow. */
  lemma MaxAgeFailureOverwritesMaxAge(s: Settings, sessName: string, storeId: string, path: string,
                                      domain: string, maxAge: string)
    requires sessName != "" && storeId != "" && !Strconv.Accepts(maxAge)
    ensures var r := Configure(s, sessName, storeId, path, domain, maxAge);
      && r.err == Some(ErrMaxAgeNotInteger)
      && r.settings.(maxAge := s.maxAge) == s
      && r.settings.maxAge == Strconv.Atoi(maxAge).value
      && (!Strconv.WellFormed(maxAge) ==> r.settings.maxAge in {0, MinInt64, MaxInt64})
      && (Strconv.WellFormed(maxAge) ==> r.settings.maxAge == if maxAge[0] == '-' then MinInt64 else MaxInt64)
  {
    Strconv.AtoiSpec(maxAge);
  }

  /** Path and domain are never checked: they do not influence the error, empty ones included. */
  lemma PathAndDomainNotValidated(s: Settings, sessName: string, storeId: string, maxAge: string,
                                  path1: string, domain1: string, path2: string, domain2: string)
    ensures Configure(s, sessName, storeId, path1, domain1, maxAge).err
         == Configure(s, sessName, storeId, path2, domain2, maxAge).err
  {
  }

  /** A successful call overwrites everything an earlier call stored: the last call wins. */
  lemma LastSuccessfulCallWins(s1: Settings, s2: Settings, sessName: string, storeId: string,
                               path: string, domain: string, maxAge: string)
    requires Configure(s1, sessName, storeId, path, domain, maxAge).err == None
    ensures Configure(s2, sessName, storeId, path, domain, maxAge)
         == Configure(s1, sessName, storeId, path, domain, maxAge)
  {
  }

  /** Sample calls: a valid configuration, a malformed max-age, an empty session name and a
      negative max-age. */
  lemma ConfigureExamples(s: Settings)
    ensures Configure(s, "sess", "abc123", "/", "", "3600").err == None
    ensures Configure(s, "sess", "abc123", "/", "", "3600").settings.maxAge == 3600
    ensures Configure(s, "sess", "abc123", "/", "", "abc").err == Some(ErrMaxAgeNotInteger)
    ensures Configure(s, "sess", "abc123", "/", "", "abc").settings == s.(maxAge := 0)
    ensures Configure(s, "", "abc123", "/", "", "3600").err == Some(ErrEmptySessName)
    ensures Configure(s, "sess", "abc123", "", "", "-5").err == None
  {
    Strconv.AtoiExamples();
  }
}
