/**
 * HealthGraphAuthenticationMiddleware: the checks and defaults its
 * constructor applies to the shared options object, the back-channel
 * HttpClient it builds, and the resolution of that client's handler.
 */
module HealthGraph {
  import opened Wrappers
  import opened Strings
  import opened Owin

  /** typeof(HealthGraphAuthenticationMiddleware).FullName */
  const MiddlewareTypeFullName := "Owin.Security.Providers.HealthGraph.HealthGraphAuthenticationMiddleware"

  /** The version tag that closes the default state protector's purpose list. */
  const StateProtectorVersion := "v1"

  /** The back-channel client's response buffer cap: ten mebibytes. */
  const MaxResponseContentBufferSize := 1024 * 1024 * 10

  /** What the constructor throws: an ArgumentException naming the missing
      option (Exception_OptionMustBeProvided); the InvalidOperationException
      that app.GetDefaultSignInAsAuthenticationType() throws when the host has
      no default (Exception_MissingDefaultSignInAsAuthenticationType); or the
      InvalidOperationException Exception_ValidatorHandlerMismatch. */
  datatype ConstructionError =
    | ArgumentError(optionName: string)
    | MissingDefaultSignInAsAuthenticationType
    | ValidatorHandlerMismatch

  /** A snapshot of the options the constructor reads or writes. */
  datatype OptionsState = OptionsState(
    clientId: Option<string>,
    clientSecret: Option<string>,
    authenticationType: string,
    provider: Option<AuthenticationProvider>,
    stateDataFormat: Option<StateDataFormat>,
    signInAsAuthenticationType: Option<string>,
    backchannelTimeout: int,
    backchannelHttpHandler: HttpMessageHandler?,
    backchannelCertificateValidator: Option<CertificateValidator>)

  /** HealthGraphAuthenticationOptions: one object, shared with the caller,
      that the constructor completes in place. */
  class HealthGraphAuthenticationOptions {
    var clientId: Option<string>
    var clientSecret: Option<string>
    var authenticationType: string
    var provider: Option<AuthenticationProvider>
    var stateDataFormat: Option<StateDataFormat>
    var signInAsAuthenticationType: Option<string>
    var backchannelTimeout: int
    var backchannelHttpHandler: HttpMessageHandler?
    var backchannelCertificateValidator: Option<CertificateValidator>

    function State(): OptionsState
      reads this
    {
      OptionsState(clientId, clientSecret, authenticationType, provider, stateDataFormat,
                   signInAsAuthenticationType, backchannelTimeout, backchannelHttpHandler,
                   backchannelCertificateValidator)
    }
  }

  /** The two argument checks that open the constructor, in source order. */
  function CredentialError(clientId: Option<string>, clientSecret: Option<string>): (r: Option<ConstructionError>)
    ensures r == Some(ArgumentError("ClientId")) <==> IsNullOrWhiteSpace(clientId)
    ensures r == Some(ArgumentError("ClientSecret")) <==> !IsNullOrWhiteSpace(clientId) && IsNullOrWhiteSpace(clientSecret)
    ensures r == None <==> !IsNullOrWhiteSpace(clientId) && !IsNullOrWhiteSpace(clientSecret)
  {
    if IsNullOrWhiteSpace(clientId) then Some(ArgumentError("ClientId"))
    else if IsNullOrWhiteSpace(clientSecret) then Some(ArgumentError("ClientSecret"))
    else None
  }

  /** The state format made when the caller supplied none: a
      PropertiesDataFormat over a protector scoped to this middleware type,
      the options' authentication type and the version tag. */
  function DefaultStateDataFormat(app: AppBuilder, authenticationType: string): (f: StateDataFormat)
    ensures f.PropertiesDataFormat?
    ensures f.protector.provider == app.dataProtectionProvider
    ensures |f.protector.purposes| == 3
    ensures f.protector.purposes[0] == MiddlewareTypeFullName
    ensures f.protector.purposes[1] == authenticationType
    ensures f.protector.purposes[2] == "v1"
  {
    PropertiesDataFormat(CreateDataProtector(app, [MiddlewareTypeFullName, authenticationType, StateProtectorVersion]))
  }

  /** The options after the constructor's defaulting step. When the sign-in
      type is missing and so is the host's default, the call at the last step
      throws before assigning, so that option is left as it was. */
  function WithDefaults(s: OptionsState, app: AppBuilder): (r: OptionsState)
    // a supplied value is kept as it is
    ensures s.provider.Some? ==> r.provider == s.provider
    ensures s.stateDataFormat.Some? ==> r.stateDataFormat == s.stateDataFormat
    ensures !IsNullOrEmpty(s.signInAsAuthenticationType) ==> r.signInAsAuthenticationType == s.signInAsAuthenticationType
    // a missing one is filled in
    ensures s.provider.None? ==> r.provider == Some(HealthGraphAuthenticationProvider)
    ensures s.stateDataFormat.None? ==> r.stateDataFormat == Some(DefaultStateDataFormat(app, s.authenticationType))
    ensures IsNullOrEmpty(s.signInAsAuthenticationType) && GetDefaultSignInAsAuthenticationType(app).Some? ==>
              r.signInAsAuthenticationType == GetDefaultSignInAsAuthenticationType(app)
    ensures IsNullOrEmpty(s.signInAsAuthenticationType) && GetDefaultSignInAsAuthenticationType(app).None? ==>
              r.signInAsAuthenticationType == s.signInAsAuthenticationType
    // and nothing else changes
    ensures r.(provider := s.provider, stateDataFormat := s.stateDataFormat,
               signInAsAuthenticationType := s.signInAsAuthenticationType) == s
  {
    s.(provider := if s.provider.None? then Some(HealthGraphAuthenticationProvider) else s.provider,
       stateDataFormat := if s.stateDataFormat.None? then Some(DefaultStateDataFormat(app, s.authenticationType))
                          else s.stateDataFormat,
       signInAsAuthenticationType := if IsNullOrEmpty(s.signInAsAuthenticationType) &&
                                        GetDefaultSignInAsAuthenticationType(app).Some?
                                     then GetDefaultSignInAsAuthenticationType(app)
                                     else s.signInAsAuthenticationType)
  }

  /** Whether handler resolution refuses: `supplied` is None when no handler
      was supplied (a new WebRequestHandler is used), else whether the
      supplied one is a WebRequestHandler. */
  function HandlerError(supplied: Option<bool>, validator: Option<CertificateValidator>): (r: Option<ConstructionError>)
    ensures r.Some? ==> r.value == ValidatorHandlerMismatch
    ensures r.Some? <==> validator.Some? && supplied == Some(false)
  {
    var isWebRequestHandler := if supplied.Some? then supplied.value else true;
    if validator.None? then None
    else if !isWebRequestHandler then Some(ValidatorHandlerMismatch)
    else None
  }

  /** How a supplied handler reference looks to HandlerError: the `??` on a
      null handler, and the `as WebRequestHandler` cast on a non-null one. */
  function HandlerKind(h: HttpMessageHandler?): (r: Option<bool>)
    ensures r.None? <==> h == null
    ensures h != null ==> r == Some(h.isWebRequestHandler)
  {
    if h == null then None else Some(h.isWebRequestHandler)
  }

  /** Whether the sign-in defaulting step throws: the option is null or empty
      and the host has no default to put there. */
  function SignInDefaultMissing(s: OptionsState, app: AppBuilder): (r: bool)
    ensures r <==> IsNullOrEmpty(s.signInAsAuthenticationType) && IsNullOrEmpty(app.defaultSignInAsAuthenticationType)
  {
    IsNullOrEmpty(s.signInAsAuthenticationType) && GetDefaultSignInAsAuthenticationType(app).None?
  }

  /** The error the whole constructor ends with, if any. */
  function ConstructionFailure(s: OptionsState, app: AppBuilder): (r: Option<ConstructionError>)
    ensures r == None <==>
              !IsNullOrWhiteSpace(s.clientId) && !IsNullOrWhiteSpace(s.clientSecret) &&
              !SignInDefaultMissing(s, app) &&
              !(s.backchannelCertificateValidator.Some? && s.backchannelHttpHandler != null &&
                !s.backchannelHttpHandler.isWebRequestHandler)
    ensures r == Some(ArgumentError("ClientId")) <==> IsNullOrWhiteSpace(s.clientId)
    ensures r == Some(ArgumentError("ClientSecret")) <==>
              !IsNullOrWhiteSpace(s.clientId) && IsNullOrWhiteSpace(s.clientSecret)
    ensures r == Some(MissingDefaultSignInAsAuthenticationType) <==>
              !IsNullOrWhiteSpace(s.clientId) && !IsNullOrWhiteSpace(s.clientSecret) && SignInDefaultMissing(s, app)
    ensures r == Some(ValidatorHandlerMismatch) <==>
              !IsNullOrWhiteSpace(s.clientId) && !IsNullOrWhiteSpace(s.clientSecret) && !SignInDefaultMissing(s, app) &&
              s.backchannelCertificateValidator.Some? && s.backchannelHttpHandler != null &&
              !s.backchannelHttpHandler.isWebRequestHandler
  {
    var credentials := CredentialError(s.clientId, s.clientSecret);
    if credentials.Some? then credentials
    else if SignInDefaultMissing(s, app) then Some(MissingDefaultSignInAsAuthenticationType)
    else HandlerError(HandlerKind(s.backchannelHttpHandler), s.backchannelCertificateValidator)
  }

  /** The constructor's defaulting, applied a second time, changes nothing. */
  lemma WithDefaultsIdempotent(s: OptionsState, app: AppBuilder)
    ensures WithDefaults(WithDefaults(s, app), app) == WithDefaults(s, app)
  {
  }

  /** After defaulting, provider and state format are present, and the sign-in
      type is non-empty exactly when the defaulting step did not throw. */
  lemma WithDefaultsFillsGaps(s: OptionsState, app: AppBuilder)
    ensures WithDefaults(s, app).provider.Some?
    ensures WithDefaults(s, app).stateDataFormat.Some?
    ensures !IsNullOrEmpty(WithDefaults(s, app).signInAsAuthenticationType) <==> !SignInDefaultMissing(s, app)
  {
  }

  /** Defaulting does not change how construction ends: the same options
      object, constructed again, fails or succeeds as it did the first time. */
  lemma ConstructionFailureStableUnderDefaults(s: OptionsState, app: AppBuilder)
    ensures ConstructionFailure(WithDefaults(s, app), app) == ConstructionFailure(s, app)
  {
  }

  /** A whitespace-only sign-in type survives defaulting, while the same value
      as a client id is refused. */
  lemma WhiteSpaceSignInTypeKept(s: OptionsState, app: AppBuilder, blank: string)
    requires blank != [] && forall i :: 0 <= i < |blank| ==> IsWhiteSpace(blank[i])
    ensures WithDefaults(s.(signInAsAuthenticationType := Some(blank)), app).signInAsAuthenticationType == Some(blank)
    ensures CredentialError(Some(blank), s.clientSecret) == Some(ArgumentError("ClientId"))
  {
  }

  /** State formats defaulted for different authentication types use
      different protector purpose lists. */
  lemma DefaultStateFormatsSeparateAuthenticationTypes(app: AppBuilder, a: string, b: string)
    requires a != b
    ensures DefaultStateDataFormat(app, a) != DefaultStateDataFormat(app, b)
  {
  }

  /** A configured validator with the default handler is always accepted. */
  lemma DefaultHandlerAcceptsValidator(v: CertificateValidator)
    ensures HandlerError(None, Some(v)) == None
  {
  }

  class HealthGraphAuthenticationMiddleware {
    const options: HealthGraphAuthenticationOptions
    const httpClient: HttpClient

    constructor (options: HealthGraphAuthenticationOptions, httpClient: HttpClient)
      ensures this.options == options && this.httpClient == httpClient
    {
      this.options := options;
      this.httpClient := httpClient;
    }

    /** ResolveHttpMessageHandler: the supplied handler, or a new
        WebRequestHandler; with a validator configured, that handler's
        certificate callback is set to it, or resolution refuses a handler
        that is not a WebRequestHandler. The options are only read. */
    static method ResolveHttpMessageHandler(options: HealthGraphAuthenticationOptions)
      returns (r: Result<HttpMessageHandler, ConstructionError>)
      modifies options.backchannelHttpHandler
      ensures r.Failure? <==> HandlerError(HandlerKind(options.backchannelHttpHandler),
                                           options.backchannelCertificateValidator).Some?
      ensures r.Failure? ==> r.error == ValidatorHandlerMismatch && unchanged(options.backchannelHttpHandler)
      ensures r.Success? && options.backchannelHttpHandler != null ==> r.value == options.backchannelHttpHandler
      ensures r.Success? && options.backchannelHttpHandler == null ==>
                fresh(r.value) && r.value.isWebRequestHandler
      ensures r.Success? && options.backchannelCertificateValidator.Some? ==>
                r.value.serverCertificateValidationCallback == options.backchannelCertificateValidator
      ensures options.backchannelCertificateValidator.None? && options.backchannelHttpHandler != null ==>
                unchanged(options.backchannelHttpHandler)
      ensures r.Success? && options.backchannelCertificateValidator.None? && options.backchannelHttpHandler == null ==>
                r.value.serverCertificateValidationCallback == None
    {
      var handler: HttpMessageHandler;
      if options.backchannelHttpHandler != null {
        handler := options.backchannelHttpHandler;
      } else {
        handler := new HttpMessageHandler.WebRequestHandler();
      }
      if options.backchannelCertificateValidator.None? {
        return Success(handler);
      }
      if !handler.isWebRequestHandler {
        return Failure(ValidatorHandlerMismatch);
      }
      handler.serverCertificateValidationCallback := Some(options.backchannelCertificateValidator.value);
      return Success(handler);
    }

    /** The middleware's constructor. It checks the credentials before
        touching anything, then completes the shared options in place, then
        builds the back-channel client; a handler mismatch is found only after
        the options were completed. */
    static method New(app: AppBuilder, options: HealthGraphAuthenticationOptions)
      returns (r: Result<HealthGraphAuthenticationMiddleware, ConstructionError>)
      modifies options, options.backchannelHttpHandler
      ensures r.Failure? <==> ConstructionFailure(old(options.State()), app).Some?
      ensures r.Failure? ==> Some(r.error) == ConstructionFailure(old(options.State()), app)
      // a credential failure happens before any option is written
      ensures CredentialError(old(options.clientId), old(options.clientSecret)).Some? ==>
                unchanged(options) && r == Failure(CredentialError(old(options.clientId), old(options.clientSecret)).value)
      ensures r.Failure? && old(options.backchannelHttpHandler) != null ==> unchanged(old(options.backchannelHttpHandler))
      // past the credential checks the options are defaulted, even if a later step throws
      ensures CredentialError(old(options.clientId), old(options.clientSecret)).None? ==>
                options.State() == WithDefaults(old(options.State()), app)
      ensures r.Success? ==>
                fresh(r.value) && r.value.options == options &&
                r.value.httpClient.timeout == options.backchannelTimeout &&
                r.value.httpClient.maxResponseContentBufferSize == 10 * 1024 * 1024
      ensures r.Success? && options.backchannelHttpHandler != null ==>
                r.value.httpClient.handler == options.backchannelHttpHandler
      ensures r.Success? && options.backchannelHttpHandler == null ==>
                fresh(r.value.httpClient.handler) && r.value.httpClient.handler.isWebRequestHandler
      ensures r.Success? && options.backchannelCertificateValidator.Some? ==>
                r.value.httpClient.handler.serverCertificateValidationCallback == options.backchannelCertificateValidator
      ensures r.Success? && options.backchannelCertificateValidator.None? && options.backchannelHttpHandler == null ==>
                r.value.httpClient.handler.serverCertificateValidationCallback == None
      ensures options.backchannelCertificateValidator.None? && options.backchannelHttpHandler != null ==>
                unchanged(options.backchannelHttpHandler)
    {
      if IsNullOrWhiteSpace(options.clientId) {
        return Failure(ArgumentError("ClientId"));
      }
      if IsNullOrWhiteSpace(options.clientSecret) {
        return Failure(ArgumentError("ClientSecret"));
      }

      if options.provider.None? {
        options.provider := Some(HealthGraphAuthenticationProvider);
      }
      if options.stateDataFormat.None? {
        var dataProtector := CreateDataProtector(app, [MiddlewareTypeFullName, options.authenticationType, StateProtectorVersion]);
        options.stateDataFormat := Some(PropertiesDataFormat(dataProtector));
      }
      if IsNullOrEmpty(options.signInAsAuthenticationType) {
        var defaultType := GetDefaultSignInAsAuthenticationType(app);
        if defaultType.None? {
          return Failure(MissingDefaultSignInAsAuthenticationType);
        }
        options.signInAsAuthenticationType := defaultType;
      }

      var handler := ResolveHttpMessageHandler(options);
      if handler.Failure? {
        return Failure(handler.error);
      }
      var client := HttpClient(handler.value, options.backchannelTimeout, MaxResponseContentBufferSize);
      var middleware := new HealthGraphAuthenticationMiddleware(options, client);
      return Success(middleware);
    }
  }

  /** Two middleware instances built over one options object: the second
      construction finds nothing left to default. */
  method ConstructTwice(app: AppBuilder, options: HealthGraphAuthenticationOptions)
    returns (first: Result<HealthGraphAuthenticationMiddleware, ConstructionError>,
             second: Result<HealthGraphAuthenticationMiddleware, ConstructionError>)
    modifies options, options.backchannelHttpHandler
    ensures first.Success? <==> second.Success?
    ensures first.Failure? ==> second == first
    ensures options.State() == if CredentialError(old(options.clientId), old(options.clientSecret)).Some?
                               then old(options.State()) else WithDefaults(old(options.State()), app)
    ensures first.Success? ==> second.value.options == first.value.options && second.value != first.value
  {
    first := HealthGraphAuthenticationMiddleware.New(app, options);
    ghost var afterFirst := options.State();
    if CredentialError(old(options.clientId), old(options.clientSecret)).None? {
      WithDefaultsIdempotent(old(options.State()), app);
      ConstructionFailureStableUnderDefaults(old(options.State()), app);
    }
    second := HealthGraphAuthenticationMiddleware.New(app, options);
    assert options.State() == afterFirst;
  }
}
