/** Lazy, once-only Earth Engine start-up: find the service-account key,
    check its shape, authenticate with it and then initialise the library.
    The environment variable, the file system, `JSON.parse` and the two
    library callbacks are parameters; the flag that remembers a successful
    start-up is the field of `EarthEngineModule`. */
module EarthEngineInit {
  import opened Wrappers
  import opened Json

  /** Why a start-up attempt rejected. */
  datatype InitError =
    | CredentialsNotSet               // the variable is unset or empty
    | CredentialsNotFound             // neither JSON nor the path of an existing file
    | CredentialFileUnreadable        // `readFileSync` threw
    | CredentialFileNotJson           // the file's text is not JSON
    | KeyIsNull                       // the key parsed to `null`: reading a field of it threw
    | InvalidKeyStructure             // `client_email` or `private_key` missing or falsy
    | AuthFailed(detail: string)      // the authentication error callback ran
    | InitFailed(detail: string)      // the initialisation error callback ran

  /** The rejection message the module itself writes.  The three errors the
      JavaScript runtime raises (unreadable file, bad JSON, `null` key) carry
      the runtime's own message, which is not modelled. */
  function Message(e: InitError): Option<string>
  {
    match e
    case CredentialsNotSet => Some("GOOGLE_APPLICATION_CREDENTIALS is not set")
    case CredentialsNotFound => Some("Could not parse credentials as JSON or find file")
    case InvalidKeyStructure => Some("Invalid service account key structure")
    case AuthFailed(d) => Some("EE auth failed: " + d)
    case InitFailed(d) => Some("EE init failed: " + d)
    case _ => None
  }

  /** What the process offers: the value of `GOOGLE_APPLICATION_CREDENTIALS`
      (`None` when unset), `JSON.parse` (`None` when it throws),
      `fs.existsSync` and `fs.readFileSync(path, "utf8")` (`None` when it
      throws). */
  datatype Host = Host(
    credentials: Option<string>,
    parseJson: string -> Option<JsValue>,
    fileExists: string -> bool,
    readFile: string -> Option<string>)

  /** Which callback a library call ends in. */
  datatype Callback = OnSuccess | OnError(err: string)

  /** The Earth Engine library: `authenticateViaPrivateKey(key, …)` and then
      `initialize(null, null, …)`. */
  datatype Library = Library(
    authenticate: JsValue -> Callback,
    initialize: Callback)

  /** Credential resolution: the variable must be set and non-empty; its value
      is parsed as JSON first, and only if that throws is it taken as the path
      of a JSON key file. */
  function ResolveKey(h: Host): (r: Result<JsValue, InitError>)
    ensures r == Failure(CredentialsNotSet) <==> h.credentials == None || h.credentials == Some("")
    ensures r.Success? <==>
              h.credentials.Some? && h.credentials.value != ""
              && (h.parseJson(h.credentials.value).Some?
                  || (h.fileExists(h.credentials.value) && h.readFile(h.credentials.value).Some?
                      && h.parseJson(h.readFile(h.credentials.value).value).Some?))
    ensures r.Success? && h.parseJson(h.credentials.value).Some? ==>
              Some(r.value) == h.parseJson(h.credentials.value)
    ensures r.Success? && h.parseJson(h.credentials.value).None? ==>
              Some(r.value) == h.parseJson(h.readFile(h.credentials.value).value)
  {
    match h.credentials
    case None => Failure(CredentialsNotSet)
    case Some(cred) =>
      if cred == "" then Failure(CredentialsNotSet)
      else match h.parseJson(cred)
        case Some(key) => Success(key)
        case None =>
          if !h.fileExists(cred) then Failure(CredentialsNotFound)
          else match h.readFile(cred)
            case None => Failure(CredentialFileUnreadable)
            case Some(text) =>
              match h.parseJson(text)
              case None => Failure(CredentialFileNotJson)
              case Some(key) => Success(key)
  }

  /** A key the library will be asked to authenticate with. */
  predicate UsableKey(key: JsValue)
  {
    key.JsObject?
    && "client_email" in key.fields && Truthy(key.fields["client_email"])
    && "private_key" in key.fields && Truthy(key.fields["private_key"])
  }

  /** The structural check `!key.client_email || !key.private_key`. */
  function CheckKey(key: JsValue): (r: Outcome<InitError>)
    ensures r.Pass? <==> UsableKey(key)
    ensures r == Fail(KeyIsNull) <==> key.JsNull? || key.JsUndefined?
    ensures r.Fail? ==> r.error == KeyIsNull || r.error == InvalidKeyStructure
  {
    match Get(key, "client_email")
    case None => Fail(KeyIsNull)
    case Some(email) =>
      if !Truthy(email) then Fail(InvalidKeyStructure)
      else match Get(key, "private_key")
        case None => Fail(KeyIsNull)
        case Some(pk) => if !Truthy(pk) then Fail(InvalidKeyStructure) else Pass
  }

  /** One start-up attempt from an uninitialised state: its outcome and which
      of the two library calls it made. */
  datatype Attempt = Attempt(outcome: Outcome<InitError>, authenticated: bool, initializeCalled: bool)

  function AttemptInit(h: Host, lib: Library): (a: Attempt)
    ensures a.initializeCalled ==> a.authenticated
    ensures a.outcome.Pass? ==> a.initializeCalled && lib.initialize.OnSuccess?
  {
    match ResolveKey(h)
    case Failure(e) => Attempt(Fail(e), false, false)
    case Success(key) =>
      match CheckKey(key)
      case Fail(e) => Attempt(Fail(e), false, false)
      case Pass =>
        match lib.authenticate(key)
        case OnError(err) => Attempt(Fail(AuthFailed(err)), true, false)
        case OnSuccess =>
          match lib.initialize
          case OnError(err) => Attempt(Fail(InitFailed(err)), true, true)
          case OnSuccess => Attempt(Pass, true, true)
  }

  // ----- properties of one attempt -----

  /** An unset or empty variable rejects with the "not set" message before
      anything else is looked at. */
  lemma UnsetCredentialsRejected(h: Host, lib: Library)
    requires h.credentials == None || h.credentials == Some("")
    ensures AttemptInit(h, lib) == Attempt(Fail(CredentialsNotSet), false, false)
    ensures Message(CredentialsNotSet) == Some("GOOGLE_APPLICATION_CREDENTIALS is not set")
  {
  }

  /** A value that parses as JSON is the key itself: the file system is never
      consulted, whatever it holds. */
  lemma JsonValueWins(h: Host, fileExists: string -> bool, readFile: string -> Option<string>)
    requires h.credentials.Some? && h.credentials.value != ""
    requires h.parseJson(h.credentials.value).Some?
    ensures ResolveKey(h) == Success(h.parseJson(h.credentials.value).value)
    ensures ResolveKey(h) == ResolveKey(h.(fileExists := fileExists, readFile := readFile))
  {
  }

  /** A value that is not JSON and names no existing file rejects with the
      "could not parse … or find file" message. */
  lemma MissingFileRejected(h: Host, lib: Library)
    requires h.credentials.Some? && h.credentials.value != ""
    requires h.parseJson(h.credentials.value).None?
    requires !h.fileExists(h.credentials.value)
    ensures AttemptInit(h, lib) == Attempt(Fail(CredentialsNotFound), false, false)
    ensures Message(CredentialsNotFound) == Some("Could not parse credentials as JSON or find file")
  {
  }

  /** A value that is not JSON but names an existing file is resolved to the
      JSON in that file. */
  lemma FileFallback(h: Host, text: string)
    requires h.credentials.Some? && h.credentials.value != ""
    requires h.parseJson(h.credentials.value).None?
    requires h.fileExists(h.credentials.value)
    requires h.readFile(h.credentials.value) == Some(text)
    ensures ResolveKey(h) == (match h.parseJson(text)
                              case Some(key) => Success(key)
                              case None => Failure(CredentialFileNotJson))
  {
  }

  /** A key without a usable `client_email` or `private_key` is rejected
      before the library is asked to authenticate. */
  lemma InvalidKeyNeverAuthenticates(h: Host, lib: Library)
    requires ResolveKey(h).Success? && !UsableKey(ResolveKey(h).value)
    ensures !AttemptInit(h, lib).authenticated
    ensures AttemptInit(h, lib).outcome.Fail?
    ensures !ResolveKey(h).value.JsNull? && !ResolveKey(h).value.JsUndefined? ==>
              AttemptInit(h, lib).outcome == Fail(InvalidKeyStructure)
  {
  }

  /** Initialisation is requested only after authentication succeeded; an
      authentication failure rejects with "EE auth failed: …". */
  lemma AuthFailureNeverInitializes(h: Host, lib: Library, err: string)
    requires ResolveKey(h).Success? && UsableKey(ResolveKey(h).value)
    requires lib.authenticate(ResolveKey(h).value) == OnError(err)
    ensures AttemptInit(h, lib) == Attempt(Fail(AuthFailed(err)), true, false)
    ensures Message(AttemptInit(h, lib).outcome.error) == Some("EE auth failed: " + err)
  {
  }

  /** An attempt succeeds exactly when a usable key is found, authentication
      succeeds with it and initialisation succeeds. */
  lemma AttemptSucceedsIff(h: Host, lib: Library)
    ensures AttemptInit(h, lib).outcome.Pass? <==>
              ResolveKey(h).Success? && UsableKey(ResolveKey(h).value)
              && lib.authenticate(ResolveKey(h).value).OnSuccess? && lib.initialize.OnSuccess?
  {
  }

  /** The module-level state of `earthEngine.ts`: the `initialized` flag, plus
      ghost counters of the outside calls made so far, so that contracts can
      say which calls a given invocation made. */
  class EarthEngineModule {
    var initialized: bool
    ghost var credentialReads: nat   // reads of GOOGLE_APPLICATION_CREDENTIALS
    ghost var authentications: nat   // calls of authenticateViaPrivateKey
    ghost var initializations: nat   // calls of initialize

    /** Module load: `let initialized = false`. */
    constructor ()
      ensures !initialized
      ensures credentialReads == 0 && authentications == 0 && initializations == 0
    {
      initialized := false;
      credentialReads, authentications, initializations := 0, 0, 0;
    }

    /** `initEarthEngine()`: returns at once when already initialised;
        otherwise makes one attempt, and sets the flag only in the
        initialisation success callback. */
    method InitEarthEngine(h: Host, lib: Library) returns (r: Outcome<InitError>)
      modifies this
      ensures old(initialized) ==> r == Pass && initialized
      ensures old(initialized) ==> credentialReads == old(credentialReads)
                                   && authentications == old(authentications)
                                   && initializations == old(initializations)
      ensures !old(initialized) ==>
                r == AttemptInit(h, lib).outcome
                && initialized == r.Pass?
                && credentialReads == old(credentialReads) + 1
                && authentications == old(authentications) + (if AttemptInit(h, lib).authenticated then 1 else 0)
                && initializations == old(initializations) + (if AttemptInit(h, lib).initializeCalled then 1 else 0)
    {
      if initialized {
        return Pass;
      }
      credentialReads := credentialReads + 1;
      var resolved := ResolveKey(h);
      if resolved.Failure? {
        return Fail(resolved.error);
      }
      var key := resolved.value;
      var checked := CheckKey(key);
      if checked.Fail? {
        return checked;
      }
      authentications := authentications + 1;
      var auth := lib.authenticate(key);
      if auth.OnError? {
        return Fail(AuthFailed(auth.err));
      }
      initializations := initializations + 1;
      if lib.initialize.OnError? {
        return Fail(InitFailed(lib.initialize.err));
      }
      initialized := true;
      r := Pass;
    }
  }
}
