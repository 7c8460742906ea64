/**
 * The part of Ruby's `URI` library that the agent link needs: a URI held as
 * Ruby's generic URI holds it (scheme, userinfo, host, port, path, query,
 * fragment), the resolution of an absolute-path reference against a base
 * (section 5.2.2 of RFC 3986, the branch taken when the reference has neither
 * scheme nor authority and its path begins with "/"), and Ruby's string form.
 * Ruby stores the scheme in lower case; its string form leaves out a port
 * equal to the scheme's default.
 */
module Uri {
  import opened Wrappers

  /** A URI's components. The port is a number, as Ruby stores it. */
  datatype Uri = Uri(
    scheme: Option<string>,
    userinfo: Option<string>,
    host: Option<string>,
    port: Option<nat>,
    path: string,
    query: Option<string>,
    fragment: Option<string>)

  /** Why a reference could not be resolved. */
  datatype ResolveError =
    | BothRelative  // the base has no scheme, so there is nothing to resolve against

  /** ASCII lower-casing of one character. */
  function DowncaseChar(c: char): char
  {
    if 'A' <= c <= 'Z' then (c as int + 32) as char else c
  }

  /** ASCII lower-casing of a string. */
  function Downcase(s: string): (r: string)
    ensures |r| == |s|
    ensures forall i :: 0 <= i < |s| ==> r[i] == DowncaseChar(s[i])
  {
    if s == [] then [] else [DowncaseChar(s[0])] + Downcase(s[1..])
  }

  /** A URI as Ruby's parser builds it from the split components: the scheme
      is stored in lower case. */
  function Generic(components: Uri): (u: Uri)
    ensures u.scheme.Some? <==> components.scheme.Some?
    ensures u.scheme.Some? ==> u.scheme.value == Downcase(components.scheme.value)
    ensures u.(scheme := components.scheme) == components
  {
    match components.scheme
    case Some(s) => components.(scheme := Some(Downcase(s)))
    case None => components
  }

  /** The default port of the URI class Ruby registers for a (lower-case)
      scheme; schemes without one, and unknown schemes, have none. */
  function DefaultPort(scheme: Option<string>): Option<nat>
  {
    match scheme
    case Some("http") => Some(80)
    case Some("https") => Some(443)
    case Some("ftp") => Some(21)
    case Some("ldap") => Some(389)
    case Some("ldaps") => Some(636)
    case Some("ws") => Some(80)
    case Some("wss") => Some(443)
    case _ => None
  }

  /** The decimal digits of a number. */
  function Decimal(n: nat): (s: string)
    ensures |s| > 0
  {
    var digit := ['0' + (n % 10) as char];
    if n < 10 then digit else Decimal(n / 10) + digit
  }

  /** The port as the string form writes it: ":port" unless it is absent or
      equal to the scheme's default. */
  function PortSuffix(u: Uri): string
  {
    if u.port.Some? && Some(u.port.value) != DefaultPort(u.scheme) then ":" + Decimal(u.port.value) else ""
  }

  /** Userinfo, host and port as the string form writes them. */
  function Authority(u: Uri): string
  {
    (match u.userinfo case Some(i) => i + "@" case None => "") +
    (match u.host case Some(h) => h case None => "") +
    PortSuffix(u)
  }

  /** The string form writes "//" when there is a host, and for the `file`
      and `postgres` schemes also without one. */
  predicate WritesSlashes(u: Uri)
  {
    u.host.Some? || u.scheme == Some("file") || u.scheme == Some("postgres")
  }

  /** Ruby's string form of a hierarchical URI. */
  function ToString(u: Uri): string
  {
    (match u.scheme case Some(s) => s + ":" case None => "") +
    (if WritesSlashes(u) then "//" else "") +
    Authority(u) +
    u.path +
    (match u.query case Some(q) => "?" + q case None => "") +
    (match u.fragment case Some(f) => "#" + f case None => "")
  }

  /** Position `i` of `p` starts a "." or ".." segment, which section 5.2.4 of
      RFC 3986 would remove. */
  predicate DotSegmentAt(p: string, i: nat)
  {
    i < |p| && (i == 0 || p[i - 1] == '/') && p[i] == '.' &&
    (i + 1 == |p| || p[i + 1] == '/' || (p[i + 1] == '.' && (i + 2 == |p| || p[i + 2] == '/')))
  }

  /** An absolute path (one that begins with "/") with no dot segment to remove. */
  predicate AbsolutePathWithoutDotSegments(p: string)
  {
    |p| > 0 && p[0] == '/' && forall i :: 0 <= i < |p| ==> !DotSegmentAt(p, i)
  }

  /**
   * Resolves the reference whose only component is the absolute path `path`
   * against `base`. The target keeps the base's scheme, userinfo, host and
   * port, takes the reference's path as it is (it has no dot segment to
   * remove) and the reference's query and fragment, which are absent.
   */
  function ResolveAbsolutePath(base: Uri, path: string): (t: Result<Uri, ResolveError>)
    requires AbsolutePathWithoutDotSegments(path)
    ensures t.Failure? <==> base.scheme.None?
    ensures t.Success? ==>
      t.value.scheme == base.scheme && t.value.userinfo == base.userinfo &&
      t.value.host == base.host && t.value.port == base.port &&
      t.value.path == path && t.value.query.None? && t.value.fragment.None?
  {
    if base.scheme.None? then Failure(BothRelative)
    else Success(Uri(base.scheme, base.userinfo, base.host, base.port, path, None, None))
  }

  /** Two bases resolve an absolute path to the same target exactly when they
      agree on scheme, userinfo, host and port: the base's path, query and
      fragment play no part. */
  lemma ResolveDependsOnlyOnSchemeAndAuthority(b1: Uri, b2: Uri, path: string)
    requires AbsolutePathWithoutDotSegments(path)
    requires b1.scheme.Some? && b2.scheme.Some?
    ensures ResolveAbsolutePath(b1, path) == ResolveAbsolutePath(b2, path)
        <==> b1.scheme == b2.scheme && b1.userinfo == b2.userinfo &&
             b1.host == b2.host && b1.port == b2.port
  {
  }

  /** A URI with a scheme and without query or fragment is written
      "scheme:", then "//" when `WritesSlashes`, then its authority and path. */
  lemma HierarchicalString(t: Uri)
    requires t.scheme.Some? && t.query.None? && t.fragment.None?
    ensures ToString(t)
         == t.scheme.value + ":" + (if WritesSlashes(t) then "//" else "") + Authority(t) + t.path
  {
    var head := t.scheme.value + ":" + (if WritesSlashes(t) then "//" else "") + Authority(t);
    assert ToString(t) == head + t.path + "" + "";
    assert head + t.path + "" + "" == head + t.path;
  }

  /** The port appears in the string form exactly when it is present and
      differs from the scheme's default. */
  lemma PortShownIffNotDefault(u: Uri)
    ensures PortSuffix(u) != "" <==> u.port.Some? && Some(u.port.value) != DefaultPort(u.scheme)
  {
    if u.port.Some? && Some(u.port.value) != DefaultPort(u.scheme) {
      assert PortSuffix(u)[0] == ':';
    }
  }
}
