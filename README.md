# HealthGraph authentication middleware: construction

This project models the constructor of `HealthGraphAuthenticationMiddleware`, the OWIN middleware
that signs users in with their RunKeeper Health Graph account, and its helper
`ResolveHttpMessageHandler`. The constructor reads a `HealthGraphAuthenticationOptions` object that it
shares with the caller, and it does three things in order:

1. It rejects a null, empty or whitespace-only `ClientId`, and then the same kind of `ClientSecret`.
2. It completes the options in place. A null `Provider` becomes the default
   `HealthGraphAuthenticationProvider`. A null `StateDataFormat` becomes a `PropertiesDataFormat` over a data
   protector with the purposes [middleware type full name, `AuthenticationType`, "v1"]. A null or empty
   `SignInAsAuthenticationType` becomes the host's default. If the host has no default,
   `GetDefaultSignInAsAuthenticationType` throws. At that point `Provider` and `StateDataFormat` have
   already been written.
3. It builds the back-channel `HttpClient`. The client gets the resolved handler, the options'
   `BackchannelTimeout` and a 10 MiB response buffer cap.

Handler resolution uses the supplied `BackchannelHttpHandler`, or a new `WebRequestHandler` when none is
supplied. If a certificate validator is configured, it points that handler's
`ServerCertificateValidationCallback` at the validator. It refuses (`ValidatorHandlerMismatch`) when the
handler is not a `WebRequestHandler`.

Modules:
- `Wrappers` (wrappers.dfy): `Option` stands for a nullable reference and `Result` for a call that may throw.
- `Strings` (strings.dfy): `string.IsNullOrWhiteSpace`, `string.IsNullOrEmpty` and `char.IsWhiteSpace`.
- `Owin` (owin.dfy): the library objects the constructor touches. The app builder, data protector, state
  format, provider and validator are values. `HttpMessageHandler` is a class, because its callback slot is
  written in place. Its constructor `WebRequestHandler` is the default handler. `Custom` is a handler the
  caller builds and supplies. `HttpClient` is a record of the settings the constructor fixes. The behaviour
  of `GetDefaultSignInAsAuthenticationType` is that of Katana's extension method, which lives in
  Microsoft.Owin.Security, outside this provider: it returns the host's default when that is a non-empty string, and throws otherwise.
- `HealthGraph` (middleware.dfy): the options class, the middleware class and its two static methods.
  It also holds the pure functions that specify them: `CredentialError`, `WithDefaults`,
  `DefaultStateDataFormat`, `HandlerError` and `ConstructionFailure`. Construction ends with at most one
  error. They are checked in this order: the ClientId argument error, the ClientSecret argument error,
  the missing host default sign-in type, and the handler mismatch.

A Dafny constructor cannot fail, so the C# constructor is the static method
`HealthGraphAuthenticationMiddleware.New`. `New` returns either the new middleware or the exception it
would throw, as a `ConstructionError`. The Dafny constructor only stores the two fields.

Three details of the code matter:
- The credential checks use `IsNullOrWhiteSpace`, so they reject null, empty and whitespace-only values.
- The sign-in check uses `IsNullOrEmpty`, so a whitespace-only `SignInAsAuthenticationType` counts as
  supplied and is kept.
- When a validator is configured and no handler is supplied, the validator is wired into the new
  default handler. That handler is a `WebRequestHandler`, so it always takes the callback
  (`DefaultHandlerAcceptsValidator`, a corollary of `HandlerError`'s contract).

## Model

| member | source | states |
|---|---|---|
| Strings.AllWhiteSpace | src/Owin.Security.Providers.HealthGraph/HealthGraphAuthenticationMiddleware.cs:24-29 | the character scan behind the credential checks holds exactly when every character is .NET white space |
| Strings.IsWhiteSpace | src/Owin.Security.Providers.HealthGraph/HealthGraphAuthenticationMiddleware.cs:24-29 | the .NET white-space set used by the credential checks contains space, tab, line feed and carriage return, and never an ASCII letter or digit |
| Strings.IsNullOrEmpty | src/Owin.Security.Providers.HealthGraph/HealthGraphAuthenticationMiddleware.cs:45 | the sign-in check fails only for a non-null string with at least one character |
| Strings.IsNullOrWhiteSpace | src/Owin.Security.Providers.HealthGraph/HealthGraphAuthenticationMiddleware.cs:24-29 | a credential counts as blank exactly when it is null or made only of white space; every null or empty string is blank |
| Strings.WhiteSpaceOnlyIsNotEmpty | src/Owin.Security.Providers.HealthGraph/HealthGraphAuthenticationMiddleware.cs:45-46 | the whitespace test and the null-or-empty test differ exactly on non-empty strings of white space |
| HealthGraph.CredentialError | src/Owin.Security.Providers.HealthGraph/HealthGraphAuthenticationMiddleware.cs:24-29 | a blank ClientId gives an argument error naming "ClientId", whatever the secret is; with a usable ClientId, a blank ClientSecret gives one naming "ClientSecret"; otherwise no error |
| Owin.CreateDataProtector | src/Owin.Security.Providers.HealthGraph/HealthGraphAuthenticationMiddleware.cs:38-41 | the default state protector belongs to the app's data protection provider and is scoped to exactly the purposes passed, in their order |
| Owin.GetDefaultSignInAsAuthenticationType | src/Owin.Security.Providers.HealthGraph/HealthGraphAuthenticationMiddleware.cs:46 | the host's default is returned exactly when it is a non-empty string; otherwise the call throws |
| HealthGraph.DefaultStateDataFormat | src/Owin.Security.Providers.HealthGraph/HealthGraphAuthenticationMiddleware.cs:36-43 | the default state format is a PropertiesDataFormat over the app's protector, with exactly the purposes [middleware type full name, AuthenticationType, "v1"] in that order |
| HealthGraph.WithDefaults | src/Owin.Security.Providers.HealthGraph/HealthGraphAuthenticationMiddleware.cs:33-46 | Provider and StateDataFormat are replaced only when null, and SignInAsAuthenticationType only when null or empty; supplied values are kept; missing ones get the default provider, the default state format or the host's default sign-in type; when the host has no default, the sign-in type is left as it was, because that call throws before the assignment; no other option changes |
| HealthGraph.WithDefaultsIdempotent | src/Owin.Security.Providers.HealthGraph/HealthGraphAuthenticationMiddleware.cs:33-46 | defaulting the options a second time changes nothing |
| HealthGraph.WithDefaultsFillsGaps | src/Owin.Security.Providers.HealthGraph/HealthGraphAuthenticationMiddleware.cs:33-46 | after defaulting, Provider and StateDataFormat are present, and the sign-in type is non-empty exactly when the host-default lookup did not throw |
| HealthGraph.WhiteSpaceSignInTypeKept | src/Owin.Security.Providers.HealthGraph/HealthGraphAuthenticationMiddleware.cs:24-46 | a whitespace-only SignInAsAuthenticationType is kept by defaulting, while the same value as ClientId is rejected |
| HealthGraph.DefaultStateFormatsSeparateAuthenticationTypes | src/Owin.Security.Providers.HealthGraph/HealthGraphAuthenticationMiddleware.cs:38-42 | default state formats made for different authentication types differ |
| HealthGraph.ConstructionFailureStableUnderDefaults | src/Owin.Security.Providers.HealthGraph/HealthGraphAuthenticationMiddleware.cs:24-77 | defaulting the options does not change how construction ends, so a second construction over the same options fails or succeeds as the first did |
| HealthGraph.HandlerKind | src/Owin.Security.Providers.HealthGraph/HealthGraphAuthenticationMiddleware.cs:64-70 | a null supplied handler means the default is used; a non-null one is classified by whether it is a WebRequestHandler |
| HealthGraph.HandlerError | src/Owin.Security.Providers.HealthGraph/HealthGraphAuthenticationMiddleware.cs:62-77 | handler resolution fails, and then only with ValidatorHandlerMismatch, exactly when a validator is configured and the supplied handler is not a WebRequestHandler |
| HealthGraph.DefaultHandlerAcceptsValidator | src/Owin.Security.Providers.HealthGraph/HealthGraphAuthenticationMiddleware.cs:64-76 | a validator with no supplied handler never causes a mismatch (a corollary of HandlerError's contract) |
| HealthGraph.SignInDefaultMissing | src/Owin.Security.Providers.HealthGraph/HealthGraphAuthenticationMiddleware.cs:45-46 | the sign-in defaulting step throws exactly when the option is null or empty and so is the host's default |
| HealthGraph.ConstructionFailure | src/Owin.Security.Providers.HealthGraph/HealthGraphAuthenticationMiddleware.cs:24-73 | construction succeeds exactly when both credentials are non-blank, the sign-in type is present or the host has a default, and no validator is paired with a supplied handler that is not a WebRequestHandler; the ClientId error wins over the ClientSecret error, both win over the missing host default, and that wins over a mismatch; each error is returned exactly when its condition holds and no earlier one does |
| Owin.HttpMessageHandler.WebRequestHandler | src/Owin.Security.Providers.HealthGraph/HealthGraphAuthenticationMiddleware.cs:64 | a new WebRequestHandler has no certificate callback |
| HealthGraph.HealthGraphAuthenticationMiddleware.ResolveHttpMessageHandler | src/Owin.Security.Providers.HealthGraph/HealthGraphAuthenticationMiddleware.cs:62-77 | without a validator: the supplied handler, unchanged, or a fresh WebRequestHandler with no callback; with a validator: ValidatorHandlerMismatch for a handler that is not a WebRequestHandler, leaving it untouched, otherwise the same handler (or a fresh WebRequestHandler) with its callback set to the validator |
| HealthGraph.HealthGraphAuthenticationMiddleware.New | src/Owin.Security.Providers.HealthGraph/HealthGraphAuthenticationMiddleware.cs:19-55 | fails exactly as ConstructionFailure says; a credential failure leaves the options untouched; otherwise the options become WithDefaults of their old value, even when the host-default lookup or the handler resolution throws afterwards; on success the middleware keeps the same options object, and its client has the resolved handler, Timeout equal to BackchannelTimeout and a 10·1024·1024-byte buffer cap; the handler is the supplied one or a fresh WebRequestHandler, its callback is the validator when one is configured, and a fresh default handler has no callback when none is |
| HealthGraph.ConstructTwice | src/Owin.Security.Providers.HealthGraph/HealthGraphAuthenticationMiddleware.cs:33-46 | two constructions over one options object succeed or fail together, and a second failure is the same error; the options end as they started after a credential failure, and as WithDefaults of their start in every other case |

## Left out

- The OWIN pipeline: the `next` middleware and the `AuthenticationMiddleware` base class, which stores the options and rejects a null options object. The model's options reference is never null.
- `CreateHandler` and `HealthGraphAuthenticationHandler`: the handshake, state round-tripping and claims mapping. The handler's code is not part of this model.
- Logger creation: logging is I/O.
- Data-protection cryptography: a protector is modelled as an opaque value that records its provider and its purpose list.
- How the host stores its default sign-in type in the app's properties: the model takes that property's value as an input.
- Unicode versions before 6.3: runtimes with older Unicode data also count U+180E MONGOLIAN VOWEL SEPARATOR as white space. `IsWhiteSpace` follows the newer set.
- `AuthenticationType` is modelled as a string that is never null.
- `HttpClient` internals: the range check on `Timeout`, the User-Agent and Expect-Continue headers, and real TLS validation. The model keeps only the handler, the timeout and the buffer cap.
- The culture-specific formatting of the resource messages: an error is modelled as its kind plus the option's name.
- Object identity of the default provider: every default `HealthGraphAuthenticationProvider` is the same value in the model.
