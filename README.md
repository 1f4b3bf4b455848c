# VaporSecurityHeaders in Dafny

This project models the security-header middleware of VaporSecurityHeaders,
a Vapor package that adds HTTP security headers to every response. It covers
the following parts:

- **Per-header configurations.** X-Content-Type-Options, Content-Security-Policy,
  X-Frame-Options, X-XSS-Protection (the four-option and the three-option kind),
  Strict-Transport-Security, Referrer-Policy, Server and
  Content-Security-Policy-Report-Only. Each one maps its options to a header
  value, and its `setHeader` writes that value onto the shared response.
  Writing a header replaces any earlier value of it.
- **The `SecurityHeaders` middleware.** Its initializer builds the ordered
  configuration list: four baseline entries, then the optional ones that are
  present, in a fixed order. Its `respond` applies every entry once, in list
  order, to the downstream response.
- **`SecurityHeadersFactory`.** A mutable builder. Each `with` setter
  replaces one field and returns the same factory. `api()` changes only the
  policy. `build()` passes every field to the initializer.
- **`HTTPSRedirectMiddleware`.** Its decision to pass a request on, reject
  it with 400, or redirect it with 301 to `https://` + host + URL.
- **The older `VaporSecurityHeaders.swift` variant.** It has a fixed four-entry
  list, an `api` flag and a hard-coded HSTS value. Its types clash with the
  newer ones, so it lives in its own module.

Responses are a class `Http.Response` whose `headers` field is a
`map<string, string>`. Each `setHeader` is a method that modifies the
response. The method is proved against a pure function that gives the new
header map. Properties of those functions are proved as lemmas.
Header values that the source produces by string interpolation, such as the
HSTS `max-age` and the frame and XSS options, come with a parser. The
lemmas prove that parsing a rendered value gives back the configuration.

Where the code and the test suite disagree, the model follows the code:

- **Redirect tests.** The redirection tests pass a non-nil, empty allow-list by
  default, yet expect a 301 (`RedirectionTest.swift:26-38`). The code
  answers 400 whenever a given allow-list lacks the host
  (`HTTPSRedirectMiddleware.swift:25-29`).
- **Referrer-Policy.** A single option is taken, as the initializer does. The
  test at `HeaderTests.swift:460-466` uses a multi-value form that this
  source does not contain.

## Model

| member | source | states |
|---|---|---|
| Text.NatToDecimal | Sources/VaporSecurityHeaders/Configurations/StrictTransportSecurityConfiguration.swift:16 | the digits of a natural number are all decimal digits, non-empty, with no leading zero |
| Text.IntToDecimal | Sources/VaporSecurityHeaders/Configurations/StrictTransportSecurityConfiguration.swift:16 | Swift's rendering of an `Int`: a leading minus sign exactly for negative values, digits otherwise, never a semicolon |
| Text.NatToDecimalRoundTrip | Sources/VaporSecurityHeaders/Configurations/StrictTransportSecurityConfiguration.swift:16 | reading the digits of `n` back gives `n` |
| Text.IntToDecimalRoundTrip | Sources/VaporSecurityHeaders/Configurations/StrictTransportSecurityConfiguration.swift:16 | parsing the rendering of any integer gives that integer back |
| Text.IntToDecimalInjective | Sources/VaporSecurityHeaders/Configurations/StrictTransportSecurityConfiguration.swift:16 | distinct max-age values render differently |
| Text.ParseInt | Sources/VaporSecurityHeaders/Configurations/StrictTransportSecurityConfiguration.swift:16 | the inverse reader accepts only non-empty text, negatives only with a leading minus |
| HeaderKey.All | Sources/VaporSecurityHeaders/SecurityHeaders+HeaderKey.swift:3-27 | the eight header names written by the package are pairwise distinct |
| ContentTypeOptionsConfiguration.Value | Sources/VaporSecurityHeaders/Configurations/ContentTypeOptionsConfiguration.swift:16-23 | a value is written exactly for `nosniff`, and it is `"nosniff"` |
| ContentTypeOptionsConfiguration.SetHeader | Sources/VaporSecurityHeaders/Configurations/ContentTypeOptionsConfiguration.swift:16-23 | `nosniff` replaces X-Content-Type-Options and nothing else; `none` leaves the whole header map unchanged, including an existing value |
| FrameOptionsConfiguration.Value | Sources/VaporSecurityHeaders/Configurations/FrameOptionsConfiguration.swift:17-26 | the value starts with `ALLOW-FROM ` exactly for `allow`, whose origin follows verbatim (length 11 + origin) |
| FrameOptionsConfiguration.ParseValue | Sources/VaporSecurityHeaders/Configurations/FrameOptionsConfiguration.swift:18-25 | reads `DENY`, `SAMEORIGIN` or `ALLOW-FROM <origin>` back into an option |
| FrameOptionsConfiguration.ValueRoundTrip | Sources/VaporSecurityHeaders/Configurations/FrameOptionsConfiguration.swift:18-25 | parsing the value of any option gives that option back |
| FrameOptionsConfiguration.ValueInjective | Sources/VaporSecurityHeaders/Configurations/FrameOptionsConfiguration.swift:18-25 | distinct options give distinct values |
| FrameOptionsConfiguration.SetHeader | Sources/VaporSecurityHeaders/Configurations/FrameOptionsConfiguration.swift:17-26 | every option replaces X-Frame-Options with its value; no other header changes |
| XSSProtectionConfiguration.Value | Sources/VaporSecurityHeaders/Configurations/XSSProtectionConfiguration.swift:18-29 | the value is non-empty, starts with `0` exactly for `disable`, and for `report` is the prefix `1; report=` then the URI unaltered |
| XSSProtectionConfiguration.ParseValue | Sources/VaporSecurityHeaders/Configurations/XSSProtectionConfiguration.swift:19-28 | reads a value back into one of the four options |
| XSSProtectionConfiguration.ValueRoundTrip | Sources/VaporSecurityHeaders/Configurations/XSSProtectionConfiguration.swift:19-28 | parsing the value of any option gives that option back |
| XSSProtectionConfiguration.ValueInjective | Sources/VaporSecurityHeaders/Configurations/XSSProtectionConfiguration.swift:19-28 | the option-to-value mapping is injective |
| XSSProtectionConfiguration.SetHeader | Sources/VaporSecurityHeaders/Configurations/XSSProtectionConfiguration.swift:18-29 | every option writes X-XSS-Protection, replacing any earlier value; no other header changes |
| XssProtectionConfiguration.Widen | Sources/VaporSecurityHeaders/Configurations/XssProtectionConfiguration.swift:5-9 | each of the three options corresponds to a non-report option of the four-option kind |
| XssProtectionConfiguration.Value | Sources/VaporSecurityHeaders/Configurations/XssProtectionConfiguration.swift:17-26 | each option's value equals that of the same-named four-option case; only `disable` starts with `0` |
| XssProtectionConfiguration.ValueInjective | Sources/VaporSecurityHeaders/Configurations/XssProtectionConfiguration.swift:18-25 | distinct options give distinct values |
| XssProtectionConfiguration.SetHeader | Sources/VaporSecurityHeaders/Configurations/XssProtectionConfiguration.swift:17-26 | every option writes X-XSS-Protection, replacing any earlier value; no other header changes |
| ReferrerPolicyConfiguration.RawValue | Sources/VaporSecurityHeaders/Configurations/ReferrerPolicyConfiguration.swift:5-15 | the raw value is empty exactly for `empty` |
| ReferrerPolicyConfiguration.FromRawValue | Sources/VaporSecurityHeaders/Configurations/ReferrerPolicyConfiguration.swift:5-15 | whatever option the raw-value initializer finds has that raw value |
| ReferrerPolicyConfiguration.RawValueRoundTrip | Sources/VaporSecurityHeaders/Configurations/ReferrerPolicyConfiguration.swift:5-15 | every option is recovered from its raw value |
| ReferrerPolicyConfiguration.RawValueInjective | Sources/VaporSecurityHeaders/Configurations/ReferrerPolicyConfiguration.swift:5-15 | the nine raw values are pairwise distinct |
| ReferrerPolicyConfiguration.SetHeader | Sources/VaporSecurityHeaders/Configurations/ReferrerPolicyConfiguration.swift:23-25 | Referrer-Policy is set to the raw value and is present even for `empty`; no other header changes |
| ContentSecurityPolicyConfiguration.SetHeader | Sources/VaporSecurityHeaders/Configurations/ContentSecurityPolicyConfiguration.swift:11-13 | the stored string is written verbatim, replacing any earlier policy; no other header changes |
| ContentSecurityPolicyReportOnlyConfiguration.SetHeader | Sources/VaporSecurityHeaders/Configurations/ContentSecurityPolicyReportOnlyConfiguration.swift:11-13 | the string is written verbatim to the report-only header, replacing any earlier one; the enforcing policy header is untouched |
| ServerConfiguration.SetHeader | Sources/VaporSecurityHeaders/Configurations/ServerConfiguration.swift:10-12 | Server is set to exactly the configured string, replacing any earlier value; no other header changes |
| StrictTransportSecurityConfiguration.MaxAgeClause | Sources/VaporSecurityHeaders/Configurations/StrictTransportSecurityConfiguration.swift:16 | the first clause is `max-age=`, at least one character, then a semicolon |
| StrictTransportSecurityConfiguration.HeaderValue | Sources/VaporSecurityHeaders/Configurations/StrictTransportSecurityConfiguration.swift:15-25 | the value always begins with `max-age=<decimal>;` |
| StrictTransportSecurityConfiguration.HeaderValueShape | Sources/VaporSecurityHeaders/Configurations/StrictTransportSecurityConfiguration.swift:16-22 | ends with ` preload` exactly when preload is set, otherwise with `;`; with neither flag it is exactly `max-age=N;`; ` includeSubDomains;` comes straight after the max-age clause |
| StrictTransportSecurityConfiguration.ParseFlagsRoundTrip | Sources/VaporSecurityHeaders/Configurations/StrictTransportSecurityConfiguration.swift:17-22 | the clauses after max-age determine both flags |
| StrictTransportSecurityConfiguration.ParseHeaderValue | Sources/VaporSecurityHeaders/Configurations/StrictTransportSecurityConfiguration.swift:15-25 | the value grammar `max-age=<n>;[ includeSubDomains;][ preload]`, read back |
| StrictTransportSecurityConfiguration.HeaderValueRoundTrip | Sources/VaporSecurityHeaders/Configurations/StrictTransportSecurityConfiguration.swift:15-25 | parsing the value of any configuration, any 64-bit max-age included, gives it back |
| StrictTransportSecurityConfiguration.HeaderValueInjective | Sources/VaporSecurityHeaders/Configurations/StrictTransportSecurityConfiguration.swift:15-25 | distinct configurations give distinct values |
| StrictTransportSecurityConfiguration.ValueAtThirtyBothFlags | Sources/VaporSecurityHeaders/Configurations/StrictTransportSecurityConfiguration.swift:15-25 | max-age 30 with both flags gives `max-age=30; includeSubDomains; preload` |
| StrictTransportSecurityConfiguration.ValueAtThirtyPreloadOnly | Sources/VaporSecurityHeaders/Configurations/StrictTransportSecurityConfiguration.swift:15-25 | max-age 30 with preload only gives `max-age=30; preload` |
| StrictTransportSecurityConfiguration.ValueAtThirtySubdomainsOnly | Sources/VaporSecurityHeaders/Configurations/StrictTransportSecurityConfiguration.swift:15-25 | max-age 30 with subdomains only gives `max-age=30; includeSubDomains;` |
| StrictTransportSecurityConfiguration.ValueAtThirtyNoFlags | Sources/VaporSecurityHeaders/Configurations/StrictTransportSecurityConfiguration.swift:15-25 | max-age 30 with neither flag gives `max-age=30;` |
| StrictTransportSecurityConfiguration.HeaderValueSplit | Sources/VaporSecurityHeaders/Configurations/StrictTransportSecurityConfiguration.swift:16-22 | the value is `max-age=`, the rendered max-age, a semicolon, then the flag clauses |
| Text.NatToDecimalAppend | Sources/VaporSecurityHeaders/Configurations/StrictTransportSecurityConfiguration.swift:16 | appending a digit to a positive number appends its character to the rendering |
| StrictTransportSecurityConfiguration.DefaultValue | Sources/VaporSecurityHeaders/Configurations/StrictTransportSecurityConfiguration.swift:9-22 | the defaults give `max-age=31536000; includeSubDomains; preload` |
| StrictTransportSecurityConfiguration.SetHeader | Sources/VaporSecurityHeaders/Configurations/StrictTransportSecurityConfiguration.swift:15-25 | building the value clause by clause yields the specified value, which replaces Strict-Transport-Security; nothing else changes |
| SecurityHeaders.Rank | Sources/VaporSecurityHeaders/SecurityHeaders.swift:16-32 | each kind of entry has one of eight fixed positions |
| SecurityHeaders.Header | Sources/VaporSecurityHeaders/SecurityHeaders.swift:44 | the header an entry writes is the one named for its kind, so different kinds write different headers |
| SecurityHeaders.Value | Sources/VaporSecurityHeaders/SecurityHeaders.swift:44 | every entry writes a value except content-type `none` |
| SecurityHeaders.Apply | Sources/VaporSecurityHeaders/SecurityHeaders.swift:44 | one entry's `setHeader` sets its own header to its value and leaves every other header as it was |
| SecurityHeaders.ApplyIdempotent | Sources/VaporSecurityHeaders/SecurityHeaders.swift:44 | applying an entry twice equals applying it once |
| SecurityHeaders.SetHeader | Sources/VaporSecurityHeaders/SecurityHeaders.swift:44 | dispatching to the entry's configuration changes the headers exactly as `Apply` says |
| SecurityHeaders.ApplyAllUntouched | Sources/VaporSecurityHeaders/SecurityHeaders.swift:43-45 | a header no entry writes keeps the downstream responder's value, or stays absent |
| SecurityHeaders.ApplyAllLastWriter | Sources/VaporSecurityHeaders/SecurityHeaders.swift:43-45 | after the loop a header holds the value of the last entry that writes it; later entries that write nothing to it, such as content-type `none`, do not matter |
| SecurityHeaders.Optionals | Sources/VaporSecurityHeaders/SecurityHeaders.swift:18-32 | the optional part has one entry per present configuration |
| SecurityHeaders.Assemble | Sources/VaporSecurityHeaders/SecurityHeaders.swift:8-33 | the list has 4 plus the number of present optionals entries, and begins with content-type, policy, frame-options, XSS |
| SecurityHeaders.AssembleInOrder | Sources/VaporSecurityHeaders/SecurityHeaders.swift:16-32 | for any arguments, optional entries follow the baseline in the order HSTS, Server, report-only, Referrer, each kind at most once |
| SecurityHeaders.AssembleOptionalEntries | Sources/VaporSecurityHeaders/SecurityHeaders.swift:18-32 | an optional configuration has an entry exactly when it is given, and the entry carries it |
| SecurityHeaders.Init | Sources/VaporSecurityHeaders/SecurityHeaders.swift:8-33 | the conditional appends build exactly the specified list |
| SecurityHeaders.Respond | Sources/VaporSecurityHeaders/SecurityHeaders.swift:39-49 | the response headers become those of applying every entry once, in list order, to the downstream response |
| SecurityHeaders.RegistryEntryWins | Sources/VaporSecurityHeaders/SecurityHeaders.swift:43-45 | in a list built by the initializer, every entry that writes a header leaves its own value |
| SecurityHeaders.BaselineResponse | Sources/VaporSecurityHeaders/SecurityHeaders.swift:8-11 | with the defaults the response has nosniff, the policy, DENY and `1; mode=block`, and HSTS, Server, report-only and Referrer-Policy are as the responder left them |
| Factory.SecurityHeadersFactory.constructor | Sources/VaporSecurityHeaders/SecurityHeadersFactory.swift:4-14 | a fresh factory holds nosniff, `default-src 'self'`, DENY and block, and no HSTS, Server, Referrer or report-only policy |
| Factory.SecurityHeadersFactory.Api | Sources/VaporSecurityHeaders/SecurityHeadersFactory.swift:16-20 | `api()` is a fresh factory that differs from the default only in the policy `default-src 'none'` |
| Factory.SecurityHeadersFactory.WithContentTypeOptions | Sources/VaporSecurityHeaders/SecurityHeadersFactory.swift:22-25 | replaces only the content-type field and returns the same factory |
| Factory.SecurityHeadersFactory.WithContentSecurityPolicy | Sources/VaporSecurityHeaders/SecurityHeadersFactory.swift:27-30 | replaces only the policy field and returns the same factory |
| Factory.SecurityHeadersFactory.WithFrameOptions | Sources/VaporSecurityHeaders/SecurityHeadersFactory.swift:32-35 | replaces only the frame-options field and returns the same factory |
| Factory.SecurityHeadersFactory.WithXSSProtection | Sources/VaporSecurityHeaders/SecurityHeadersFactory.swift:37-40 | replaces only the XSS field and returns the same factory |
| Factory.SecurityHeadersFactory.WithStrictTransportSecurity | Sources/VaporSecurityHeaders/SecurityHeadersFactory.swift:42-45 | sets only the HSTS field and returns the same factory |
| Factory.SecurityHeadersFactory.WithServer | Sources/VaporSecurityHeaders/SecurityHeadersFactory.swift:47-50 | sets only the Server field and returns the same factory |
| Factory.SecurityHeadersFactory.WithReferrerPolicy | Sources/VaporSecurityHeaders/SecurityHeadersFactory.swift:52-55 | sets only the Referrer-Policy field and returns the same factory |
| Factory.SecurityHeadersFactory.WithContentSecurityPolicyReportOnly | Sources/VaporSecurityHeaders/SecurityHeadersFactory.swift:57-60 | sets only the report-only field and returns the same factory |
| Factory.SecurityHeadersFactory.Build | Sources/VaporSecurityHeaders/SecurityHeadersFactory.swift:62-71 | every field goes to the matching initializer parameter |
| Factory.BuildDefault | Sources/VaporSecurityHeaders/SecurityHeadersFactory.swift:4-11 | a fresh factory builds exactly content-type nosniff, `default-src 'self'`, DENY, block |
| Factory.BuildApiWithStrictTransportSecurity | Sources/VaporSecurityHeaders/SecurityHeadersFactory.swift:16-45 | `api().with(strictTransportSecurity:)` keeps `default-src 'none'` and adds HSTS after the baseline |
| Factory.BuildAfterRepeatedSetters | Sources/VaporSecurityHeaders/SecurityHeadersFactory.swift:47-55 | a setter called twice keeps only the last configuration; entries appear in the fixed order, not the call order |
| HttpsRedirect.StatusCode | Sources/VaporSecurityHeaders/Configurations/HTTPSRedirectMiddleware.swift:22-32 | only pass-through carries no status of its own (it reaches the downstream responder); rejection and redirect answer with a status |
| HttpsRedirect.Protocol | Sources/VaporSecurityHeaders/Configurations/HTTPSRedirectMiddleware.swift:16-18 | the protocol is X-Forwarded-Proto if present, else the URL scheme, else `http` |
| HttpsRedirect.HTTPSRedirectMiddleware.Respond | Sources/VaporSecurityHeaders/Configurations/HTTPSRedirectMiddleware.swift:11-35 | passes exactly in development or over https; 400 exactly when Host is missing or outside a given allow-list; otherwise a 301 to `https://` + host + URL |
| HttpsRedirect.RedirectIsHttps | Sources/VaporSecurityHeaders/Configurations/HTTPSRedirectMiddleware.swift:31-32 | every redirect location begins with `https://` |
| HttpsRedirect.RedirectTargetPasses | Sources/VaporSecurityHeaders/Configurations/HTTPSRedirectMiddleware.swift:20-32 | the redirected request, arriving over https, passes through |
| HttpsRedirect.AllowListOnlyRejects | Sources/VaporSecurityHeaders/Configurations/HTTPSRedirectMiddleware.swift:25-29 | an allow-list can only turn a redirect into a 400; with no list every host is allowed |
| HttpsRedirect.KnownDecisions | Sources/VaporSecurityHeaders/Configurations/HTTPSRedirectMiddleware.swift:11-35 | development, forwarded https, a missing host and a disallowed host decide as the code says |
| VaporSecurityHeaders.XssValue | Sources/VaporSecurityHeaders/VaporSecurityHeaders.swift:69-78 | each option's value equals that of the newer four-option configuration |
| VaporSecurityHeaders.FrameValue | Sources/VaporSecurityHeaders/VaporSecurityHeaders.swift:95-104 | each option's value equals that of the newer frame-options configuration |
| VaporSecurityHeaders.Written | Sources/VaporSecurityHeaders/VaporSecurityHeaders.swift:49-142 | each configuration of this version writes at most one header, and never Strict-Transport-Security |
| VaporSecurityHeaders.Apply | Sources/VaporSecurityHeaders/VaporSecurityHeaders.swift:49-142 | the in-file HSTS configuration and content-type `none` write nothing; nosniff writes `nosniff`; the new header set is the old one plus the written header, and every other header keeps its value |
| VaporSecurityHeaders.SetHeader | Sources/VaporSecurityHeaders/VaporSecurityHeaders.swift:49-142 | each in-file `setHeader` changes the headers exactly as `Apply` says |
| VaporSecurityHeaders.ApplyAllKeepsHsts | Sources/VaporSecurityHeaders/VaporSecurityHeaders.swift:41-43 | the configuration loop never adds, removes or changes Strict-Transport-Security |
| VaporSecurityHeaders.Make | Sources/VaporSecurityHeaders/VaporSecurityHeaders.swift:25-32 | the list is content-type, policy, frame, XSS, with the initializer's defaults; its effect on a response is stated by `MakeHeaders` |
| VaporSecurityHeaders.MakeHeaders | Sources/VaporSecurityHeaders/VaporSecurityHeaders.swift:25-46 | for any initializer arguments the response carries the given policy, the frame and XSS values of the given options, and `nosniff` when asked; with content-type `none` the responder's X-Content-Type-Options, present or absent, is kept |
| VaporSecurityHeaders.MakeProfile | Sources/VaporSecurityHeaders/VaporSecurityHeaders.swift:12-23 | `api: true` gives `default-src 'none'`, otherwise `default-src 'self'`, with nosniff, DENY and block, four entries |
| VaporSecurityHeaders.Respond | Sources/VaporSecurityHeaders/VaporSecurityHeaders.swift:34-46 | HSTS is written first when enabled, then every configuration in list order |
| VaporSecurityHeaders.RespondedHsts | Sources/VaporSecurityHeaders/VaporSecurityHeaders.swift:37-43 | with HSTS enabled the response carries the literal value; otherwise the responder's value is kept and an absent header stays absent |
| VaporSecurityHeaders.ProfileHeaders | Sources/VaporSecurityHeaders/VaporSecurityHeaders.swift:12-32 | a profile's response has nosniff, its policy, DENY and `1; mode=block` |

## Left out

- The policy builder (`ContentSecurityPolicy`, `CSPKeywords`, report-to JSON) is not part of this model. Policy values are opaque strings. The two defaults are the builder's renderings `default-src 'self'` and `default-src 'none'`.
- The per-request policy override is not part of this model. It relies on the framework's request storage. No configuration shown reads the request that `respond` passes to `setHeader`, so the request is dropped from every signature.
- `HSTSRedirectMiddleware` and the factory's `redirectMiddleware` field are not part of this model. Their source is not among the modelled files.
- Futures, middleware chaining and the `next` responder are left out. The downstream response is the parameter `response`, and a redirect decision's `PassThrough` stands for calling `next`. `Abort` and `redirect(...).encodeResponse` become the `BadRequest` and `PermanentRedirect` outcomes.
- Header names are compared exactly, as map keys. The framework compares them without regard to case, which is not modelled. Each configuration always writes the same key, so a header written twice is replaced, not duplicated.
- Requests carry only the first X-Forwarded-Proto and Host values, the URL scheme and the URL's text. Multi-valued headers are not modelled.
- The `SecurityHeaderConfiguration` protocol becomes a closed sum type of the package's own configurations. Third-party conformances are not modelled.
- HttpsRedirect.HTTPSRedirectMiddleware.Respond: the framework's `Environment` is reduced to its name. Two environments are treated as equal exactly when their names are. Any environment named `development` is exempt from the redirect. The framework's own `Environment` type is not part of this model.
- The multi-value Referrer-Policy form joined with `", "` is not modelled. The initializer accepts a single option.
- The older `VaporSecurityHeaders.swift` writes `includeSubdomains` with a lowercase `d`, while the newer configuration writes `includeSubDomains`. Both are kept as written. Directive names in this header are case-insensitive, so this is not listed as a defect.
