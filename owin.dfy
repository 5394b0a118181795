/**
 * The library objects that the HealthGraph middleware's constructor creates
 * or inspects, reduced to what the constructor can observe of them.
 */
module Owin {
  import opened Wrappers
  import opened Strings

  /** An IAppBuilder as the constructor uses it: the identity of its data
      protection provider and the default sign-in authentication type held
      in its properties (None when the property is absent or not a string). */
  datatype AppBuilder = AppBuilder(dataProtectionProvider: nat, defaultSignInAsAuthenticationType: Option<string>)

  /** An IDataProtector, known by the provider that made it and the purpose
      list it was created for; its cryptography is not modelled. */
  datatype DataProtector = DataProtector(provider: nat, purposes: seq<string>)

  /** app.CreateDataProtector(purposes): a protector of the app's provider,
      scoped to exactly the purposes given, in their order. */
  function CreateDataProtector(app: AppBuilder, purposes: seq<string>): (p: DataProtector)
    ensures p.provider == app.dataProtectionProvider
    ensures p.purposes == purposes
  {
    DataProtector(app.dataProtectionProvider, purposes)
  }

  /** app.GetDefaultSignInAsAuthenticationType(): the host's default when it
      is a non-empty string; otherwise the extension method throws an
      InvalidOperationException (Exception_MissingDefaultSignInAsAuthenticationType),
      which is None here. */
  function GetDefaultSignInAsAuthenticationType(app: AppBuilder): (r: Option<string>)
    ensures r.Some? <==> !IsNullOrEmpty(app.defaultSignInAsAuthenticationType)
    ensures r.Some? ==> r == app.defaultSignInAsAuthenticationType && r.value != []
  {
    if IsNullOrEmpty(app.defaultSignInAsAuthenticationType) then None
    else app.defaultSignInAsAuthenticationType
  }

  /** ISecureDataFormat<AuthenticationProperties>: either a PropertiesDataFormat
      wrapping a data protector, or one the caller supplied. */
  datatype StateDataFormat = PropertiesDataFormat(protector: DataProtector) | CustomStateDataFormat(id: nat)

  /** IHealthGraphAuthenticationProvider: the default implementation or one
      the caller supplied. */
  datatype AuthenticationProvider = HealthGraphAuthenticationProvider | CustomProvider(id: nat)

  /** ICertificateValidator; its Validate method is what a handler's callback
      slot ends up pointing at. */
  datatype CertificateValidator = CertificateValidator(id: nat)

  /** An HttpMessageHandler. Only a WebRequestHandler (or a subclass of it)
      has a ServerCertificateValidationCallback; `None` is a null callback. */
  class HttpMessageHandler {
    const isWebRequestHandler: bool
    var serverCertificateValidationCallback: Option<CertificateValidator>

    /** new WebRequestHandler() */
    constructor WebRequestHandler()
      ensures isWebRequestHandler && serverCertificateValidationCallback == None
    {
      isWebRequestHandler := true;
      serverCertificateValidationCallback := None;
    }

    /** A handler the caller built and put in BackchannelHttpHandler: a
        WebRequestHandler (or subclass) or some other HttpMessageHandler. */
    constructor Custom(isWebRequestHandler: bool)
      ensures this.isWebRequestHandler == isWebRequestHandler
      ensures serverCertificateValidationCallback == None
    {
      this.isWebRequestHandler := isWebRequestHandler;
      serverCertificateValidationCallback := None;
    }
  }

  /** The settings of an HttpClient that the constructor fixes: its handler,
      its Timeout (a TimeSpan, here a count of ticks) and its
      MaxResponseContentBufferSize in bytes. */
  datatype HttpClient = HttpClient(handler: HttpMessageHandler, timeout: int, maxResponseContentBufferSize: int)
}
