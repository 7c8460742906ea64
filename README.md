# Seeker security provider and cache factory — a Dafny model

This project models two pieces of the Cloud Foundry Java buildpack.

The **Seeker security provider** is a framework component. It applies when exactly one bound service matches the filter `seeker`. At compile time it reads that service's credentials and checks three mandatory keys in a fixed order: `enterprise_server_url`, `sensor_host`, `sensor_port`. It then resolves the agent path `/rest/ui/installers/agents/binaries/JAVA` against the enterprise server URL, downloads the agent archive from there into the droplet's sandbox, and copies the component's resources. At release time it adds `seeker-agent.jar` in the sandbox as a Java agent. It also sets `SEEKER_SENSOR_HOST` and `SEEKER_SENSOR_HTTP_PORT` from the credentials.

The **cache factory** holds one process-wide setting: the URL for which insecure HTTPS is allowed. `create` returns the application cache when it is available. Otherwise it returns a download cache rooted at the temporary directory. The setting is assigned to the new cache when the cache `is_a? DownloadCache`: always for the download cache, and for the application cache only if its class descends from `DownloadCache`. The factory's file does not settle that, so the model takes it as a parameter. `allowed_url` overwrites the setting.

Files:

- `wrappers.dfy` (`Wrappers`): `Option`, used for Ruby's `nil`, and `Result`, used for raised exceptions.
- `uri.dfy` (`Uri`): a URI held as Ruby's generic URI holds it (scheme, userinfo, host, port, path, query, fragment). It resolves an absolute-path reference against a base (section 5.2.2 of RFC 3986). Ruby stores the scheme in lower case; its string form leaves out a port equal to the scheme's default, and writes `//` for `file:` and `postgres:` even without a host.
- `seeker_security_provider.dfy` (`SeekerSecurityProvider`): credential values under Ruby truthiness, the validator, the agent link, `detect`, and a `Droplet` class. `Compile` and `Release` are methods over the droplet.
- `cache_factory.dfy` (`CacheFactory`): the `Cache` tagged union and the `CacheFactory` class, whose mutable field is the insecure-HTTPS setting.

Collaborators are passed in as values:

- the service library's answers: the one-service query as a function of the filter, and the found service as an optional hash;
- the URI parser that splits a string into components, as a function `string -> Option<Uri>`;
- whether the application cache is available, and whether its class is a `DownloadCache`;
- the temporary directory;
- the cached-resources directory.

The droplet records what it was asked to do: downloads and resource copies, Java agents, and environment variables.

The cache factory's setting starts **unset** (`None`, Ruby's `nil`). The class body assigns `'none'` at `cache_factory.rb:31`, but that line runs inside `class << self`. So it sets a variable of the singleton class, while `create` and `allowed_url` read and write a variable of `CacheFactory` itself. The model keeps this behaviour: before any `allowed_url` call, a download cache receives `None` and not `"none"`.

## Model

| member | source | states |
|---|---|---|
| `SeekerSecurityProvider.Detect` | lib/java_buildpack/framework/seeker_security_provider.rb:27-29 | detection holds exactly when the service library reports one service matching the filter `seeker` |
| `SeekerSecurityProvider.FetchCredentials` | lib/java_buildpack/framework/seeker_security_provider.rb:42-45 | a missing service raises (`NoService`); otherwise the result is the service's `credentials` entry unchanged, `nil` exactly when that entry is absent or `nil` |
| `SeekerSecurityProvider.FirstMissing` | lib/java_buildpack/framework/seeker_security_provider.rb:51-53 | the in-order scan stops at the first key whose credential is not truthy: every earlier key is truthy, and the key it stops at is not |
| `SeekerSecurityProvider.AssertConfigurationValid` | lib/java_buildpack/framework/seeker_security_provider.rb:48-54 | credentials that are not a hash fail; otherwise the result is the first failure of the cascade `enterprise_server_url`, then `sensor_host`, then `sensor_port`, and success when all three are truthy |
| `SeekerSecurityProvider.ValidIffAllMandatorySet` | lib/java_buildpack/framework/seeker_security_provider.rb:48-54 | validation succeeds if and only if the credentials are a hash and every mandatory key maps to a truthy value |
| `SeekerSecurityProvider.FailureNamesFirstMissing` | lib/java_buildpack/framework/seeker_security_provider.rb:49-52 | a failure names a mandatory key that is not set, and every mandatory key before it in the list is set |
| `SeekerSecurityProvider.AnyTruthyValuePasses` | lib/java_buildpack/framework/seeker_security_provider.rb:52 | any value other than `nil` and `false` passes, including the empty string, numbers and `true` |
| `SeekerSecurityProvider.FalseIsMissing` | lib/java_buildpack/framework/seeker_security_provider.rb:52 | `false` under a mandatory key gives the same result as removing that key |
| `SeekerSecurityProvider.AgentPathIsAbsolute` | lib/java_buildpack/framework/seeker_security_provider.rb:74 | the agent path begins with `/` and has no dot segment, so section 5.2.2 of RFC 3986 takes its absolute-path branch |
| `Uri.Generic` | lib/java_buildpack/framework/seeker_security_provider.rb:85 | the URI built from the parsed components has the same components except that the scheme is lower-cased |
| `Uri.ResolveAbsolutePath` | lib/java_buildpack/framework/seeker_security_provider.rb:85 | resolution fails exactly when the base has no scheme; otherwise the target has the base's scheme, userinfo, host and port, exactly the reference's path, and no query or fragment |
| `Uri.ResolveDependsOnlyOnSchemeAndAuthority` | lib/java_buildpack/framework/seeker_security_provider.rb:85 | two bases give the same target if and only if they agree on scheme, userinfo, host and port |
| `Uri.PortShownIffNotDefault` | lib/java_buildpack/framework/seeker_security_provider.rb:85 | the port appears in the string form if and only if it is present and differs from the scheme's default port |
| `SeekerSecurityProvider.AgentDirectLink` | lib/java_buildpack/framework/seeker_security_provider.rb:84-86 | a URL that is not a string fails as `BadUriArgument` (Ruby's `ArgumentError`), a string the parser rejects as `InvalidUri`, and a URI without a scheme as `BothUrisRelative` ("both URI are relative"); otherwise the link is the lower-cased scheme, `:`, `//` when Ruby writes it, the base's userinfo, host and non-default port, and the agent path; the base's path, query and fragment are dropped |
| `SeekerSecurityProvider.LinkIgnoresBasePathQueryFragment` | lib/java_buildpack/framework/seeker_security_provider.rb:84-86 | two enterprise URLs with the same scheme, userinfo, host and port give the same link |
| `SeekerSecurityProvider.DefaultPortDropped` | lib/java_buildpack/framework/seeker_security_provider.rb:84-86 | an `https` enterprise URL with port 443 gives `https://host` followed by the agent path, without the port |
| `SeekerSecurityProvider.SchemeLowerCased` | lib/java_buildpack/framework/seeker_security_provider.rb:84-86 | an enterprise URL with scheme `HTTP` gives a link that begins `http:` |
| `SeekerSecurityProvider.CompileLink` | lib/java_buildpack/framework/seeker_security_provider.rb:32-35 | no service gives `NoService`; invalid credentials give the validation error; valid credentials give exactly the agent link derived from them; a link is reached only through valid credentials |
| `SeekerSecurityProvider.ValidationPrecedesLink` | lib/java_buildpack/framework/seeker_security_provider.rb:33-37 | credentials that fail validation make compile fail with the validation error, whatever the URI parser would answer, so no download is asked for |
| `SeekerSecurityProvider.CompileWithoutEnterpriseServerUrl` | spec/java_buildpack/framework/seeker_security_agent_spec.rb:46-55 | with only `sensor_port` and `sensor_host` set, compile fails naming `enterprise_server_url` |
| `SeekerSecurityProvider.CompileWithoutSensorHost` | spec/java_buildpack/framework/seeker_security_agent_spec.rb:57-66 | with only `enterprise_server_url` and `sensor_port` set, compile fails naming `sensor_host` |
| `SeekerSecurityProvider.CompileWithoutSensorPort` | spec/java_buildpack/framework/seeker_security_agent_spec.rb:68-77 | with only `enterprise_server_url` and `sensor_host` set, compile fails naming `sensor_port` |
| `SeekerSecurityProvider.CompileWithAllCredentials` | lib/java_buildpack/framework/seeker_security_provider.rb:84-86 | with the three credentials of the test context and a parser that splits `http://10.120.9.45:8082` into scheme, host and port, compile downloads from `http://10.120.9.45:8082` followed by the agent path; the test itself stubs the link, so this is the model's prediction from the link code |
| `SeekerSecurityProvider.Compile` | lib/java_buildpack/framework/seeker_security_provider.rb:32-39 | on failure the droplet is unchanged and the error is the first one of fetch, validate, link; on success exactly a download of the link into the sandbox, then a resource copy, is appended; Java agents and environment variables are untouched |
| `SeekerSecurityProvider.Release` | lib/java_buildpack/framework/seeker_security_provider.rb:57-63 | with a service, the Java agent `sandbox/seeker-agent.jar` is appended; with hash credentials, `SEEKER_SENSOR_HOST` and `SEEKER_SENSOR_HTTP_PORT` are appended with exactly the `sensor_host` and `sensor_port` values, `nil` included, and no mandatory key is checked; non-hash credentials fail after the agent is added; nothing is staged |
| `CacheFactory.CacheFactory.constructor` | lib/java_buildpack/util/cache/cache_factory.rb:30-31 | the process starts with the setting unset (`nil`), not `'none'` |
| `CacheFactory.CacheFactory.Create` | lib/java_buildpack/util/cache/cache_factory.rb:36-46 | the result is the application cache if and only if it is available; otherwise it is a download cache rooted at the temporary directory with the cached-resources directory; the cache carries the most recently written setting when it `is_a? DownloadCache`, and stays unset otherwise; the setting is not changed |
| `CacheFactory.CacheFactory.AllowedUrl` | lib/java_buildpack/util/cache/cache_factory.rb:52-54 | the setting becomes the given URL and the write is recorded last in the history |
| `CacheFactory.LastWriterWins` | lib/java_buildpack/util/cache/cache_factory.rb:52-54 | after further writes, the value read is the last of those writes, whatever came before |
| `CacheFactory.CreateAllowCreate` | lib/java_buildpack/util/cache/cache_factory.rb:31-54 | a download cache created before any `allowed_url` call carries `nil`, not `"none"`, and keeps it; one created after `allowed_url(url)` carries `url` |

Helpers without rows: `MandatoryKeysDistinct`, `EnterpriseServerUrlMessage`, `SensorHostMessage`, `SensorPortMessage`, `ExampleLinkSpelled` and `DecimalExample` evaluate string constants for the lemmas above. `Uri.HierarchicalString` unfolds `Uri.ToString` for a URI without query or fragment. `Uri.Downcase` lower-cases ASCII.

## Left out

- Downloading and expanding the agent archive (`download_zip`), copying resources, and the `puts` log line. The droplet only records the requested steps, so a failing download is not modelled.
- The service-binding library (`one_service?`, `find_service`). Its answers are parameters. How a service matches the filter `/seeker/` is not part of this model.
- URI parsing (splitting a string into components, and Ruby's choice of URI class for a scheme beyond its default port) is a parameter. The model covers only the reference `URI.join` resolves here: an absolute path without dot segments. Relative paths, dot-segment removal, references with their own scheme or authority, and opaque (non-hierarchical) bases are not modelled.
- CacheFactory.CacheFactory.Create: whether `ApplicationCache` descends from `DownloadCache` is decided by cache classes that are not part of this model; it is a parameter, so the model does not say which way the application cache goes.
- SeekerSecurityProvider.AssertConfigurationValid: credentials that are a Ruby `String` fail as `CredentialsNotAHash`. Ruby's `String#[]` would instead do a substring lookup.
- SeekerSecurityProvider.Release: credentials that are a Ruby `String` fail as `CredentialsNotAHash`, for the same reason.
- Error messages other than the missing-credential one (`NoMethodError`, `ArgumentError`, `URI::InvalidURIError`, `URI::BadURIError`) are modelled only as error kinds.
- The formatting of JAVA_OPTS (`-javaagent:$PWD/...`) and of environment-variable entries belongs to droplet code that is not part of this model. The model keeps the agent path as segments (`sandbox` followed by `seeker-agent.jar`) and each variable as a name and a raw value.
- The internals of `ApplicationCache` and `DownloadCache`: conditional fetches, locking, TLS relaxation and cross-process leases. These are opaque variants, and `ApplicationCache.available?`, `Dir.tmpdir` and `CACHED_RESOURCES_DIRECTORY` are parameters.
- Concurrency: the factory's setting is modelled for one sequential process.
