/**
 * The Seeker security provider framework component: it detects a bound Seeker
 * service, checks that the service's credentials name the enterprise server
 * and the sensor, derives the agent's download link from the enterprise
 * server URL, and wires the agent into the droplet.
 *
 * The service-binding library, URI parsing and the droplet's download and
 * copy machinery are collaborators: their answers are parameters, and the
 * droplet records what was asked of it.
 */
module SeekerSecurityProvider {
  import opened Wrappers
  import Uri

  /** A value held in a service binding's credentials (parsed JSON). */
  datatype Value =
    | Null
    | Bool(b: bool)
    | Num(n: int)
    | Str(s: string)
    | Arr(items: seq<Value>)
    | Hash(entries: map<string, Value>)

  /** Ruby truthiness: everything except `nil` and `false`. */
  predicate Truthy(v: Value)
  {
    !v.Null? && v != Bool(false)
  }

  /** `hash[key]`: the value under `key`, `nil` when the key is absent. */
  function Get(h: map<string, Value>, key: string): Value
  {
    if key in h then h[key] else Null
  }

  const SensorHostKey := "sensor_host"
  const SensorPortKey := "sensor_port"
  const EnterpriseServerUrlKey := "enterprise_server_url"

  /** The credentials that must be set, in the order they are checked. */
  const MandatoryKeys := [EnterpriseServerUrlKey, SensorHostKey, SensorPortKey]

  /** The agent's absolute path on the enterprise server. */
  const AgentPath := "/rest/ui/installers/agents/binaries/JAVA"

  /** The pattern a bound service must match to be the Seeker service. */
  const ServiceFilter := "seeker"

  const AgentJar := "seeker-agent.jar"
  const SensorHostVariable := "SEEKER_SENSOR_HOST"
  const SensorPortVariable := "SEEKER_SENSOR_HTTP_PORT"

  /** What the component raises. */
  datatype Error =
    | NoService                       // `service['credentials']` on a `nil` service
    | CredentialsNotAHash             // `credentials[key]` on `nil` or on a non-hash value
    | MissingCredential(key: string)  // a mandatory credential is `nil`, `false` or absent
    | BadUriArgument                  // the enterprise server URL is not a string
    | InvalidUri                      // the enterprise server URL does not parse
    | BothUrisRelative                // the enterprise server URL has no scheme

  /** The message raised for a missing mandatory credential. */
  function MissingCredentialMessage(key: string): string
  {
    "'" + key + "' credential must be set"
  }

  /** `detect`: the component applies exactly when the service library reports
      one service matching the Seeker filter. */
  function Detect(oneService: string -> bool): (detected: bool)
    ensures detected <==> oneService(ServiceFilter)
  {
    oneService(ServiceFilter)
  }

  /** `fetch_credentials`: the `credentials` entry of the Seeker service. */
  function FetchCredentials(service: Option<map<string, Value>>): (r: Result<Value, Error>)
    ensures r.Failure? <==> service.None?
    ensures r.Failure? ==> r.error == NoService
    ensures r.Success? ==> r.value == Get(service.value, "credentials")
    ensures r.Success? ==>
      (r.value == Null <==> "credentials" !in service.value || service.value["credentials"] == Null)
  {
    match service
    case None => Failure(NoService)
    case Some(s) => Success(Get(s, "credentials"))
  }

  /**
   * The index of the first key of `keys[from..]` whose credential is not
   * truthy, or `|keys|` when all of them are.
   */
  function FirstMissing(credentials: map<string, Value>, keys: seq<string>, from: nat): (i: nat)
    requires from <= |keys|
    ensures from <= i <= |keys|
    ensures forall j :: from <= j < i ==> Truthy(Get(credentials, keys[j]))
    ensures i < |keys| ==> !Truthy(Get(credentials, keys[i]))
    decreases |keys| - from
  {
    if from == |keys| then from
    else if !Truthy(Get(credentials, keys[from])) then from
    else FirstMissing(credentials, keys, from + 1)
  }

  /**
   * `assert_configuration_valid`: scans the mandatory keys in order and fails
   * naming the first whose credential is not truthy.
   */
  function AssertConfigurationValid(credentials: Value): (r: Result<(), Error>)
    ensures !credentials.Hash? ==> r == Failure(CredentialsNotAHash)
    ensures credentials.Hash? ==>
      var h := credentials.entries;
      r == if !Truthy(Get(h, EnterpriseServerUrlKey)) then Failure(MissingCredential(EnterpriseServerUrlKey))
           else if !Truthy(Get(h, SensorHostKey)) then Failure(MissingCredential(SensorHostKey))
           else if !Truthy(Get(h, SensorPortKey)) then Failure(MissingCredential(SensorPortKey))
           else Success(())
  {
    match credentials
    case Hash(h) =>
      var i := FirstMissing(h, MandatoryKeys, 0);
      assert MandatoryKeys[0] == EnterpriseServerUrlKey && MandatoryKeys[1] == SensorHostKey
          && MandatoryKeys[2] == SensorPortKey;
      assert i > 0 ==> Truthy(Get(h, MandatoryKeys[0]));
      assert i > 1 ==> Truthy(Get(h, MandatoryKeys[1]));
      if i < |MandatoryKeys| then Failure(MissingCredential(MandatoryKeys[i])) else Success(())
    case _ => Failure(CredentialsNotAHash)
  }

  /** Validation succeeds exactly when the credentials are a hash in which every
      mandatory key maps to a truthy value. */
  lemma ValidIffAllMandatorySet(credentials: Value)
    ensures AssertConfigurationValid(credentials).Success?
        <==> credentials.Hash? &&
             forall k :: k in MandatoryKeys ==> Truthy(Get(credentials.entries, k))
  {
    if credentials.Hash? && AssertConfigurationValid(credentials).Success? {
      forall k | k in MandatoryKeys ensures Truthy(Get(credentials.entries, k)) {
        assert k == MandatoryKeys[0] || k == MandatoryKeys[1] || k == MandatoryKeys[2];
      }
    }
  }

  /** A failed validation names a mandatory key that is not set, and every key
      checked before it is set. */
  lemma FailureNamesFirstMissing(h: map<string, Value>)
    requires AssertConfigurationValid(Hash(h)).Failure?
    ensures exists i ::
      (0 <= i < |MandatoryKeys| &&
       AssertConfigurationValid(Hash(h)).error == MissingCredential(MandatoryKeys[i]) &&
       !Truthy(Get(h, MandatoryKeys[i])) &&
       forall j :: 0 <= j < i ==> Truthy(Get(h, MandatoryKeys[j])))
  {
    var i := FirstMissing(h, MandatoryKeys, 0);
    assert 0 <= i < |MandatoryKeys|;
  }

  /** An empty string, a number or `true` is a set credential: only `nil`,
      `false` and an absent key fail. */
  lemma AnyTruthyValuePasses(url: Value, host: Value, port: Value)
    requires url != Null && url != Bool(false)
    requires host != Null && host != Bool(false)
    requires port != Null && port != Bool(false)
    ensures AssertConfigurationValid(Hash(map[EnterpriseServerUrlKey := url,
                                             SensorHostKey := host,
                                             SensorPortKey := port])).Success?
  {
    var h := map[EnterpriseServerUrlKey := url, SensorHostKey := host, SensorPortKey := port];
    assert Get(h, EnterpriseServerUrlKey) == url;
    assert Get(h, SensorHostKey) == host;
    assert Get(h, SensorPortKey) == port;
  }

  /** `false` under a mandatory key fails exactly like an absent key. */
  lemma FalseIsMissing(h: map<string, Value>, key: string)
    requires key in MandatoryKeys
    ensures AssertConfigurationValid(Hash(h[key := Bool(false)]))
         == AssertConfigurationValid(Hash(h - {key}))
  {
    var f, a := h[key := Bool(false)], h - {key};
    forall k | k in MandatoryKeys ensures Truthy(Get(f, k)) == Truthy(Get(a, k)) { }
  }

  /** The agent path is an absolute-path reference with no dot segment. */
  lemma AgentPathIsAbsolute()
    ensures Uri.AbsolutePathWithoutDotSegments(AgentPath)
  {
    assert '.' !in AgentPath;
  }

  /**
   * `agent_direct_link`: the agent path resolved against the enterprise server
   * URL (section 5.2.2 of RFC 3986), in Ruby's string form. `parse` splits a
   * string into URI components; Ruby then stores the scheme in lower case.
   */
  function AgentDirectLink(credentials: map<string, Value>, parse: string -> Option<Uri.Uri>): (r: Result<string, Error>)
    ensures var url := Get(credentials, EnterpriseServerUrlKey);
      r.Success? <==> url.Str? && parse(url.s).Some? && parse(url.s).value.scheme.Some?
    ensures var url := Get(credentials, EnterpriseServerUrlKey);
      r.Success? ==>
        var base := Uri.Generic(parse(url.s).value);
        r.value == Uri.Downcase(parse(url.s).value.scheme.value) + ":" +
                   (if Uri.WritesSlashes(base) then "//" else "") + Uri.Authority(base) + AgentPath
    ensures var url := Get(credentials, EnterpriseServerUrlKey);
      (!url.Str? ==> r == Failure(BadUriArgument)) &&
      (url.Str? && parse(url.s).None? ==> r == Failure(InvalidUri)) &&
      (url.Str? && parse(url.s).Some? && parse(url.s).value.scheme.None? ==> r == Failure(BothUrisRelative))
  {
    AgentPathIsAbsolute();
    match Get(credentials, EnterpriseServerUrlKey)
    case Str(url) =>
      (match parse(url)
       case None => Failure(InvalidUri)
       case Some(components) =>
         match Uri.ResolveAbsolutePath(Uri.Generic(components), AgentPath)
         case Failure(_) => Failure(BothUrisRelative)
         case Success(t) => Uri.HierarchicalString(t); Success(Uri.ToString(t)))
    case _ => Failure(BadUriArgument)
  }

  /** The link does not depend on the enterprise URL's path, query or fragment:
      two URLs that agree on scheme, userinfo, host and port give the same link. */
  lemma LinkIgnoresBasePathQueryFragment(credentials: map<string, Value>, parse: string -> Option<Uri.Uri>,
                                         other: map<string, Value>)
    requires Get(credentials, EnterpriseServerUrlKey).Str? && Get(other, EnterpriseServerUrlKey).Str?
    requires var b1, b2 := parse(Get(credentials, EnterpriseServerUrlKey).s), parse(Get(other, EnterpriseServerUrlKey).s);
      b1.Some? && b2.Some? && b1.value.scheme == b2.value.scheme && b1.value.userinfo == b2.value.userinfo &&
      b1.value.host == b2.value.host && b1.value.port == b2.value.port
    ensures AgentDirectLink(credentials, parse) == AgentDirectLink(other, parse)
  {
  }

  /** An enterprise URL whose port is the scheme's default gives a link
      without a port: `https://host:443` gives `https://host` and the agent path. */
  lemma DefaultPortDropped(credentials: map<string, Value>, parse: string -> Option<Uri.Uri>, host: string)
    requires Get(credentials, EnterpriseServerUrlKey).Str?
    requires var c := parse(Get(credentials, EnterpriseServerUrlKey).s);
      c.Some? && c.value.scheme == Some("https") && c.value.userinfo.None? &&
      c.value.host == Some(host) && c.value.port == Some(443)
    ensures AgentDirectLink(credentials, parse) == Success("https" + ":" + "//" + host + AgentPath)
  {
    var c := parse(Get(credentials, EnterpriseServerUrlKey).s).value;
    assert Uri.Downcase("https") == "https";
    var base := Uri.Generic(c);
    assert base.scheme == Some("https");
    assert Uri.PortSuffix(base) == "";
    assert Uri.Authority(base) == host by {
      assert Uri.Authority(base) == "" + host + "";
    }
    assert Uri.WritesSlashes(base);
  }

  /** An upper-case scheme is written in lower case: `HTTP://...` gives a link
      beginning `http:`. */
  lemma SchemeLowerCased(credentials: map<string, Value>, parse: string -> Option<Uri.Uri>)
    requires Get(credentials, EnterpriseServerUrlKey).Str?
    requires var c := parse(Get(credentials, EnterpriseServerUrlKey).s);
      c.Some? && c.value.scheme == Some("HTTP")
    ensures AgentDirectLink(credentials, parse).Success?
    ensures AgentDirectLink(credentials, parse).value[..5] == "http:"
  {
    assert Uri.Downcase("HTTP") == "http";
  }

  /**
   * What `compile` asks to download, or what it raises: the credentials are
   * fetched, validated, and only then turned into the agent link.
   */
  function CompileLink(service: Option<map<string, Value>>, parse: string -> Option<Uri.Uri>): (r: Result<string, Error>)
    ensures service.None? ==> r == Failure(NoService)
    ensures service.Some? ==>
      var credentials := Get(service.value, "credentials");
      var valid := AssertConfigurationValid(credentials);
      (valid.Failure? ==> r == Failure(valid.error)) &&
      (valid.Success? ==> r == AgentDirectLink(credentials.entries, parse))
    ensures r.Success? ==> service.Some? && AssertConfigurationValid(FetchCredentials(service).value).Success?
  {
    match FetchCredentials(service)
    case Failure(e) => Failure(e)
    case Success(credentials) =>
      match AssertConfigurationValid(credentials)
      case Failure(e) => Failure(e)
      case Success(_) => AgentDirectLink(credentials.entries, parse)
  }

  /** Validation comes first: credentials that fail it fail `compile` with the
      validation error, whatever the enterprise URL would have resolved to. */
  lemma ValidationPrecedesLink(s: map<string, Value>, parse: string -> Option<Uri.Uri>)
    requires AssertConfigurationValid(Get(s, "credentials")).Failure?
    ensures CompileLink(Some(s), parse) == Failure(AssertConfigurationValid(Get(s, "credentials")).error)
  {
  }

  /** The service binding whose credentials are `credentials`. */
  function Binding(credentials: map<string, Value>): map<string, Value>
  {
    map["credentials" := Hash(credentials)]
  }

  /** The three mandatory keys are different strings. */
  lemma MandatoryKeysDistinct()
    ensures EnterpriseServerUrlKey != SensorHostKey && EnterpriseServerUrlKey != SensorPortKey
    ensures SensorHostKey != SensorPortKey
  {
    assert |EnterpriseServerUrlKey| != |SensorHostKey| && |EnterpriseServerUrlKey| != |SensorPortKey|;
    assert SensorHostKey[7] != SensorPortKey[7];
  }

  /** Without `enterprise_server_url`, `compile` raises
      "'enterprise_server_url' credential must be set". */
  lemma CompileWithoutEnterpriseServerUrl(parse: string -> Option<Uri.Uri>)
    ensures CompileLink(Some(Binding(map[SensorPortKey := Str("9911"), SensorHostKey := Str("localhost")])), parse)
         == Failure(MissingCredential(EnterpriseServerUrlKey))
  {
    MandatoryKeysDistinct();
    var h := map[SensorPortKey := Str("9911"), SensorHostKey := Str("localhost")];
    assert Get(Binding(h), "credentials") == Hash(h);
    assert Get(h, EnterpriseServerUrlKey) == Null;
  }

  /** Without `sensor_host`, `compile` raises "'sensor_host' credential must be set". */
  lemma CompileWithoutSensorHost(parse: string -> Option<Uri.Uri>)
    ensures CompileLink(Some(Binding(map[EnterpriseServerUrlKey := Str("http://10.120.9.45:8082"),
                                         SensorPortKey := Str("9911")])), parse)
         == Failure(MissingCredential(SensorHostKey))
  {
    MandatoryKeysDistinct();
    var h := map[EnterpriseServerUrlKey := Str("http://10.120.9.45:8082"), SensorPortKey := Str("9911")];
    assert Get(Binding(h), "credentials") == Hash(h);
    assert Truthy(Get(h, EnterpriseServerUrlKey));
    assert Get(h, SensorHostKey) == Null;
  }

  /** Without `sensor_port`, `compile` raises "'sensor_port' credential must be set". */
  lemma CompileWithoutSensorPort(parse: string -> Option<Uri.Uri>)
    ensures CompileLink(Some(Binding(map[EnterpriseServerUrlKey := Str("http://10.120.9.45:8082"),
                                         SensorHostKey := Str("localhost")])), parse)
         == Failure(MissingCredential(SensorPortKey))
  {
    MandatoryKeysDistinct();
    var h := map[EnterpriseServerUrlKey := Str("http://10.120.9.45:8082"), SensorHostKey := Str("localhost")];
    assert Get(Binding(h), "credentials") == Hash(h);
    assert Truthy(Get(h, EnterpriseServerUrlKey));
    assert Truthy(Get(h, SensorHostKey));
    assert Get(h, SensorPortKey) == Null;
  }

  /** The messages raised for the three mandatory keys. */
  lemma EnterpriseServerUrlMessage()
    ensures MissingCredentialMessage(EnterpriseServerUrlKey) == "'enterprise_server_url' credential must be set"
  {
    assert "'" + EnterpriseServerUrlKey == "'enterprise_server_url";
    assert "'enterprise_server_url" + "' credential must be set" == "'enterprise_server_url' credential must be set";
  }

  lemma SensorHostMessage()
    ensures MissingCredentialMessage(SensorHostKey) == "'sensor_host' credential must be set"
  {
    assert "'" + SensorHostKey == "'sensor_host";
    assert "'sensor_host" + "' credential must be set" == "'sensor_host' credential must be set";
  }

  lemma SensorPortMessage()
    ensures MissingCredentialMessage(SensorPortKey) == "'sensor_port' credential must be set"
  {
    assert "'" + SensorPortKey == "'sensor_port";
    assert "'sensor_port" + "' credential must be set" == "'sensor_port' credential must be set";
  }

  /** With all three credentials and a parser that splits the enterprise URL
      into scheme "http", host "10.120.9.45" and port 8082, `compile` downloads
      the agent from that server's agent path. */
  lemma CompileWithAllCredentials(parse: string -> Option<Uri.Uri>)
    requires parse("http://10.120.9.45:8082") == Some(Uri.Uri(Some("http"), None, Some("10.120.9.45"), Some(8082), "", None, None))
    ensures CompileLink(Some(Binding(map[EnterpriseServerUrlKey := Str("http://10.120.9.45:8082"),
                                         SensorHostKey := Str("localhost"),
                                         SensorPortKey := Str("9911")])), parse)
         == Success("http://10.120.9.45:8082" + AgentPath)
  {
    var h := map[EnterpriseServerUrlKey := Str("http://10.120.9.45:8082"),
                 SensorHostKey := Str("localhost"), SensorPortKey := Str("9911")];
    assert Get(Binding(h), "credentials") == Hash(h);
    assert Get(h, EnterpriseServerUrlKey) == Str("http://10.120.9.45:8082");
    assert Get(h, SensorHostKey) == Str("localhost");
    assert Get(h, SensorPortKey) == Str("9911");
    MandatoryKeysDistinct();
    ExampleLinkSpelled();
  }

  /** Scheme `http`, host `10.120.9.45` and port 8082 are written
      `http://10.120.9.45:8082`. */
  lemma ExampleLinkSpelled()
    ensures var base := Uri.Uri(Some("http"), None, Some("10.120.9.45"), Some(8082), "", None, None);
      Uri.Downcase("http") + ":" + "//" + Uri.Authority(base) == "http://10.120.9.45:8082"
  {
    var base := Uri.Uri(Some("http"), None, Some("10.120.9.45"), Some(8082), "", None, None);
    assert Uri.Downcase("http") == "http";
    DecimalExample();
    assert Uri.PortSuffix(base) == ":8082";
    assert Uri.Authority(base) == "10.120.9.45:8082" by {
      assert Uri.Authority(base) == "" + "10.120.9.45" + ":8082";
    }
    assert "http" + ":" == "http:";
    assert "http:" + "//" == "http://";
    assert "http://" + "10.120.9.45:8082" == "http://10.120.9.45:8082";
  }

  lemma DecimalExample()
    ensures ":" + Uri.Decimal(8082) == ":8082"
  {
    assert Uri.Decimal(8) == "8";
    assert Uri.Decimal(80) == "8" + "0";
    assert Uri.Decimal(808) == "80" + "8";
    assert Uri.Decimal(8082) == "808" + "2";
  }

  /** A file the droplet was asked to place in its sandbox. */
  datatype StagingStep =
    | DownloadZip(uri: string, target: seq<string>)  // download and expand an archive
    | CopyResources                                  // copy the component's resources

  /** An environment variable handed to the launched application. */
  datatype EnvironmentVariable = EnvironmentVariable(name: string, value: Value)

  /** The part of the droplet this component changes. Paths are sequences of segments. */
  class Droplet {
    const sandbox: seq<string>
    var staged: seq<StagingStep>
    var javaAgents: seq<seq<string>>
    var environmentVariables: seq<EnvironmentVariable>

    constructor (sandbox: seq<string>)
      ensures this.sandbox == sandbox
      ensures staged == [] && javaAgents == [] && environmentVariables == []
    {
      this.sandbox := sandbox;
      staged, javaAgents, environmentVariables := [], [], [];
    }
  }

  /**
   * `compile`: validates the credentials, derives the agent link, downloads
   * the agent into the sandbox and copies the component's resources. On
   * failure the droplet is left as it was.
   */
  method Compile(droplet: Droplet, service: Option<map<string, Value>>, parse: string -> Option<Uri.Uri>)
    returns (r: Result<(), Error>)
    modifies droplet
    ensures droplet.javaAgents == old(droplet.javaAgents)
    ensures droplet.environmentVariables == old(droplet.environmentVariables)
    ensures r.Success? <==> CompileLink(service, parse).Success?
    ensures r.Failure? ==> r.error == CompileLink(service, parse).error && droplet.staged == old(droplet.staged)
    ensures r.Success? ==>
      droplet.staged == old(droplet.staged) + [DownloadZip(CompileLink(service, parse).value, droplet.sandbox), CopyResources]
  {
    var credentials := FetchCredentials(service);
    if credentials.Failure? {
      return Failure(credentials.error);
    }
    var valid := AssertConfigurationValid(credentials.value);
    if valid.Failure? {
      return Failure(valid.error);
    }
    var link := AgentDirectLink(credentials.value.entries, parse);
    if link.Failure? {
      return Failure(link.error);
    }
    droplet.staged := droplet.staged + [DownloadZip(link.value, droplet.sandbox)];
    droplet.staged := droplet.staged + [CopyResources];
    r := Success(());
  }

  /**
   * `release`: adds the agent jar in the sandbox as a Java agent, then sets the
   * sensor host and port variables to whatever the credentials hold, `nil`
   * included; no mandatory-key check is made. The agent is added before the
   * credentials are read, so credentials that are not a hash fail after it.
   */
  method Release(droplet: Droplet, service: Option<map<string, Value>>) returns (r: Result<(), Error>)
    modifies droplet
    ensures droplet.staged == old(droplet.staged)
    ensures service.None? ==>
      r == Failure(NoService) &&
      droplet.javaAgents == old(droplet.javaAgents) &&
      droplet.environmentVariables == old(droplet.environmentVariables)
    ensures service.Some? ==> droplet.javaAgents == old(droplet.javaAgents) + [droplet.sandbox + [AgentJar]]
    ensures service.Some? && !Get(service.value, "credentials").Hash? ==>
      r == Failure(CredentialsNotAHash) && droplet.environmentVariables == old(droplet.environmentVariables)
    ensures service.Some? && Get(service.value, "credentials").Hash? ==>
      var h := Get(service.value, "credentials").entries;
      r.Success? &&
      droplet.environmentVariables == old(droplet.environmentVariables) +
        [EnvironmentVariable(SensorHostVariable, Get(h, SensorHostKey)),
         EnvironmentVariable(SensorPortVariable, Get(h, SensorPortKey))]
  {
    var credentials := FetchCredentials(service);
    if credentials.Failure? {
      return Failure(credentials.error);
    }
    droplet.javaAgents := droplet.javaAgents + [droplet.sandbox + [AgentJar]];
    if !credentials.value.Hash? {
      return Failure(CredentialsNotAHash);
    }
    var h := credentials.value.entries;
    droplet.environmentVariables := droplet.environmentVariables
      + [EnvironmentVariable(SensorHostVariable, Get(h, SensorHostKey))];
    droplet.environmentVariables := droplet.environmentVariables
      + [EnvironmentVariable(SensorPortVariable, Get(h, SensorPortKey))];
    r := Success(());
  }
}
