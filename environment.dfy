/** The server's configuration, read once from the process environment:
    required, boolean, numeric and comma-separated variables, the transport
    kind, the listening port with its default host allow-list, and the
    validation run before start-up. The environment is a finite map from
    variable names to values; an unset variable is a missing key. */
module Environment {
  import opened JsValue
  import opened Text

  type Env = map<string, string>

  datatype TransportKind = Stdio | Http

  datatype BusinessMapConfig = BusinessMapConfig(
    apiUrl: string,
    apiToken: string,
    defaultWorkspaceId: Option<int>,
    readOnlyMode: bool)

  datatype ServerConfig = ServerConfig(
    name: string,
    version: string,
    port: int,
    allowedOrigins: seq<string>,
    allowedHosts: seq<string>)

  datatype Config = Config(businessMap: BusinessMapConfig, server: ServerConfig, transport: TransportKind)

  /** `process.env[name]` read for truthiness: unset and "" are both falsy. */
  predicate IsSet(env: Env, name: string)
  {
    name in env && env[name] != ""
  }

  /** A required variable: unset or empty is an error, anything else is
      returned unchanged. */
  function GetRequiredEnvVar(env: Env, name: string): (r: Result<string>)
    ensures r.Throw? <==> !IsSet(env, name)
    ensures r.Ok? ==> r.value == env[name]
    ensures r.Throw? ==> r.error == Error("Required environment variable " + name + " is not set")
  {
    if !IsSet(env, name) then Throw(Error("Required environment variable " + name + " is not set"))
    else Ok(env[name])
  }

  /** A boolean variable: the default when unset, otherwise whether the
      value is "true" in any letter case (so "" is false, not the default). */
  function GetBooleanEnvVar(env: Env, name: string, default: bool): (r: bool)
    ensures name !in env ==> r == default
    ensures name in env ==> (r <==> Lower(env[name]) == "true")
  {
    if name !in env then default else Lower(env[name]) == "true"
  }

  /** Every spelling of "true" that differs only in letter case reads as true. */
  lemma BooleanIgnoresCase(env: Env, name: string, v: string, default: bool)
    requires Lower(v) == "true"
    ensures GetBooleanEnvVar(env[name := v], name, default)
  {
  }

  /** A numeric variable: the default when unset or "", otherwise the
      decimal integer `parseInt` reads from the value, or a TypeError when
      it reads none. */
  function GetNumberEnvVar(env: Env, name: string, default: Option<int>): (r: Result<Option<int>>)
    ensures !IsSet(env, name) ==> r == Ok(default)
    ensures IsSet(env, name) && ParseInt(env[name]).None? ==>
      r == Throw(Error("Environment variable " + name + " must be a valid number"))
    ensures IsSet(env, name) && ParseInt(env[name]).Some? ==> r == Ok(ParseInt(env[name]))
  {
    if !IsSet(env, name) then Ok(default)
    else
      match ParseInt(env[name])
      case None => Throw(Error("Environment variable " + name + " must be a valid number"))
      case Some(n) => Ok(Some(n))
  }

  /** A number written in decimal is read back as itself, whatever the default. */
  lemma NumberRoundTrip(env: Env, name: string, n: int, default: Option<int>)
    ensures GetNumberEnvVar(env[name := IntToString(n)], name, default) == Ok(Some(n))
  {
    ParseIntOfIntToString(n, "");
    assert IntToString(n) + "" == IntToString(n);
  }

  /** `.map((item) => item.trim())` */
  function TrimAll(xs: seq<string>): (r: seq<string>)
    ensures |r| == |xs| && forall i :: 0 <= i < |xs| ==> r[i] == Trim(xs[i])
  {
    seq(|xs|, i requires 0 <= i < |xs| => Trim(xs[i]))
  }

  /** `.filter((item) => item.length > 0)` */
  function DropEmpty(xs: seq<string>): (r: seq<string>)
    ensures forall i :: 0 <= i < |r| ==> r[i] != "" && r[i] in xs
    ensures forall x :: x in xs && x != "" ==> x in r
  {
    if xs == [] then []
    else if xs[0] == "" then DropEmpty(xs[1..])
    else [xs[0]] + DropEmpty(xs[1..])
  }

  /** Filtering a list made of two parts filters each part on its own and
      keeps the two results in order: with `DropEmptyOne`, this says the
      non-empty items are kept in their original order, none merged and
      none added. */
  lemma {:induction false} DropEmptyAppend(a: seq<string>, b: seq<string>)
    ensures DropEmpty(a + b) == DropEmpty(a) + DropEmpty(b)
  {
    if a == [] {
      assert a + b == b;
    } else {
      assert (a + b)[1..] == a[1..] + b;
      DropEmptyAppend(a[1..], b);
    }
  }

  /** A single item is kept exactly when it is not empty. */
  lemma DropEmptyOne(x: string)
    ensures DropEmpty([x]) == if x == "" then [] else [x]
  {
    assert [x][1..] == [];
  }

  /** The items of a comma-separated value. */
  function CsvItems(v: string): (r: seq<string>)
  {
    DropEmpty(TrimAll(Split(v, ',')))
  }

  /** A comma-separated variable: the default when unset or "", otherwise
      its items, each trimmed, empty ones dropped. */
  function GetCsvEnvVar(env: Env, name: string, default: seq<string>): (r: seq<string>)
    ensures !IsSet(env, name) ==> r == default
    ensures IsSet(env, name) ==> r == CsvItems(env[name])
  {
    if !IsSet(env, name) then default else CsvItems(env[name])
  }

  /** Every item read from a set comma-separated variable is non-empty,
      carries no surrounding whitespace and holds no comma. */
  lemma CsvItemsClean(v: string)
    ensures forall i :: 0 <= i < |CsvItems(v)| ==>
      CsvItems(v)[i] != "" && IsTrimmed(CsvItems(v)[i]) && ',' !in CsvItems(v)[i]
  {
    var pieces := Split(v, ',');
    var trimmed := TrimAll(pieces);
    var items := DropEmpty(trimmed);
    forall i | 0 <= i < |items| ensures items[i] != "" && IsTrimmed(items[i]) && ',' !in items[i] {
      var x := items[i];
      assert x in trimmed;
      var j :| 0 <= j < |trimmed| && trimmed[j] == x;
      assert x == Trim(pieces[j]);
      TrimIsTrimmed(pieces[j]);
      if ',' in x {
        TrimKeepsChars(pieces[j], ',');
        assert false;
      }
    }
  }

  /** Joining padded items with commas and reading them back gives the
      items in their order: surrounding whitespace is dropped, and so are
      pieces that are only whitespace. */
  lemma CsvOfJoin(ps: seq<string>)
    requires |ps| >= 1
    requires forall i :: 0 <= i < |ps| ==> ',' !in ps[i]
    ensures CsvItems(Join(ps, ',')) == DropEmpty(TrimAll(ps))
  {
    SplitJoin(ps, ',');
  }

  /** For items that are already clean, writing them comma-separated and
      reading them back is the identity. */
  lemma {:induction false} CsvRoundTrip(xs: seq<string>)
    requires |xs| >= 1
    requires forall i :: 0 <= i < |xs| ==> xs[i] != "" && IsTrimmed(xs[i]) && ',' !in xs[i]
    ensures CsvItems(Join(xs, ',')) == xs
  {
    CsvOfJoin(xs);
    CleanItemsUnchanged(xs);
  }

  lemma {:induction false} CleanItemsUnchanged(xs: seq<string>)
    requires forall i :: 0 <= i < |xs| ==> xs[i] != "" && IsTrimmed(xs[i])
    ensures DropEmpty(TrimAll(xs)) == xs
  {
    if xs != [] {
      TrimOfTrimmed(xs[0]);
      CleanItemsUnchanged(xs[1..]);
      assert TrimAll(xs) == [xs[0]] + TrimAll(xs[1..]);
    }
  }

  /** Two clean items written as in the configuration tests, a comma and
      a space between them, read back as those two items. */
  lemma CommaSpaceSeparated(a: string, b: string)
    requires a != "" && IsTrimmed(a) && ',' !in a
    requires b != "" && IsTrimmed(b) && ',' !in b
    ensures CsvItems(a + ", " + b) == [a, b]
  {
    var ps := [a, " " + b];
    assert Join(ps, ',') == a + [','] + (" " + b);
    assert a + [','] + (" " + b) == a + ", " + b;
    assert ',' !in " " + b;
    CsvOfJoin(ps);
    TrimOfTrimmed(a);
    TrimLeadingSpace(b);
    assert TrimAll(ps)[0] == a && TrimAll(ps)[1] == b;
    assert TrimAll(ps) == [a, b];
    assert DropEmpty([b]) == [b] by { assert [b][1..] == []; }
    assert DropEmpty([a, b]) == [a] + DropEmpty([b]) by { assert [a, b][1..] == [b]; }
    assert [a] + [b] == [a, b];
  }

  /** The transport kind: TRANSPORT in any letter case, "stdio" when unset
      or empty, with "sse" accepted as a deprecated name for "http". */
  function GetTransportType(env: Env): (r: Result<TransportKind>)
    ensures var t := Lower(if IsSet(env, "TRANSPORT") then env["TRANSPORT"] else "stdio");
      && (r == Ok(Stdio) <==> t == "stdio")
      && (r == Ok(Http) <==> t == "http" || t == "sse")
      && (r.Throw? ==> r.error == Error("TRANSPORT must be either \"stdio\" or \"http\" (received: \"" + t + "\")"))
  {
    var t := Lower(if IsSet(env, "TRANSPORT") then env["TRANSPORT"] else "stdio");
    if t == "stdio" then Ok(Stdio)
    else if t == "http" then Ok(Http)
    else if t == "sse" then Ok(Http)
    else Throw(Error("TRANSPORT must be either \"stdio\" or \"http\" (received: \"" + t + "\")"))
  }

  /** Letter case never changes the outcome, errors included. */
  lemma TransportIgnoresCase(env: Env, v: string)
    ensures GetTransportType(env["TRANSPORT" := v]) == GetTransportType(env["TRANSPORT" := Lower(v)])
  {
    LowerIdempotent(v);
  }

  /** An unset TRANSPORT selects stdio. */
  lemma TransportDefault(env: Env)
    requires "TRANSPORT" !in env
    ensures GetTransportType(env) == Ok(Stdio)
  {
    assert Lower("stdio") == "stdio";
  }

  /** `getNumberEnvVar('PORT') || 3000`: an unset, empty or zero PORT gives
      3000; an unreadable PORT is an error. */
  function Port(env: Env): (r: Result<int>)
    ensures r.Ok? ==> r.value != 0
    ensures !IsSet(env, "PORT") ==> r == Ok(3000)
    ensures IsSet(env, "PORT") ==>
      match ParseInt(env["PORT"])
      case None => r.Throw?
      case Some(n) => r == Ok(if n == 0 then 3000 else n)
  {
    match GetNumberEnvVar(env, "PORT", None)
    case Throw(e) => Throw(e)
    case Ok(o) => Ok(if o.None? || o.value == 0 then 3000 else o.value)
  }

  const LoopbackNames: seq<string> := ["localhost", "127.0.0.1", "[::1]"]

  /** The host allow-list used when ALLOWED_HOSTS is unset. */
  function DefaultAllowedHosts(port: int): (r: seq<string>)
    ensures |r| == 6
    ensures r[..3] == LoopbackNames
    ensures forall i :: 0 <= i < 3 ==> r[i + 3] == LoopbackNames[i] + ":" + IntToString(port)
  {
    var p := IntToString(port);
    LoopbackNames + [LoopbackNames[0] + ":" + p, LoopbackNames[1] + ":" + p, LoopbackNames[2] + ":" + p]
  }

  /** The default allow-list holds exactly the three loopback names, bare
      and followed by ":" and the port. */
  lemma DefaultAllowedHostsSpec(port: int, h: string)
    ensures h in DefaultAllowedHosts(port) <==>
      exists i :: 0 <= i < |LoopbackNames| && (h == LoopbackNames[i] || h == LoopbackNames[i] + ":" + IntToString(port))
  {
    var r := DefaultAllowedHosts(port);
    var p := IntToString(port);
    if h in r {
      var j :| 0 <= j < 6 && r[j] == h;
      if j < 3 { assert h == LoopbackNames[j]; } else { assert h == LoopbackNames[j - 3] + ":" + p; }
    }
    if exists i :: 0 <= i < |LoopbackNames| && (h == LoopbackNames[i] || h == LoopbackNames[i] + ":" + IntToString(port)) {
      var i :| 0 <= i < |LoopbackNames| && (h == LoopbackNames[i] || h == LoopbackNames[i] + ":" + IntToString(port));
      if h == LoopbackNames[i] { assert r[i] == h; } else { assert r[i + 3] == h; }
    }
  }

  /** `value || fallback` for a string variable. */
  function OrDefault(env: Env, name: string, fallback: string): (r: string)
    ensures IsSet(env, name) ==> r == env[name]
    ensures !IsSet(env, name) ==> r == fallback
  {
    if IsSet(env, name) then env[name] else fallback
  }

  /** The configuration object, built when the module is first loaded. The
      readers run in the order the source evaluates them, so the first
      failing one decides the error: PORT, the API URL, the token, the
      default workspace id, then TRANSPORT. */
  function LoadConfig(env: Env): (r: Result<Config>)
    ensures r.Ok? <==>
      Port(env).Ok? && IsSet(env, "BUSINESSMAP_API_URL") && IsSet(env, "BUSINESSMAP_API_TOKEN")
      && GetNumberEnvVar(env, "BUSINESSMAP_DEFAULT_WORKSPACE_ID", None).Ok? && GetTransportType(env).Ok?
    ensures Port(env).Throw? ==> r == Throw(Port(env).error)
    ensures Port(env).Ok? && !IsSet(env, "BUSINESSMAP_API_URL") ==> r == Throw(GetRequiredEnvVar(env, "BUSINESSMAP_API_URL").error)
    ensures r.Ok? ==>
      var c := r.value;
      && c.businessMap.apiUrl == env["BUSINESSMAP_API_URL"]
      && c.businessMap.apiToken == env["BUSINESSMAP_API_TOKEN"]
      && c.businessMap.defaultWorkspaceId == GetNumberEnvVar(env, "BUSINESSMAP_DEFAULT_WORKSPACE_ID", None).value
      && c.businessMap.readOnlyMode == GetBooleanEnvVar(env, "BUSINESSMAP_READ_ONLY_MODE", false)
      && c.server.port == Port(env).value
      && c.server.name == OrDefault(env, "MCP_SERVER_NAME", "businessmap-mcp")
      && c.server.version == OrDefault(env, "MCP_SERVER_VERSION", "1.0.0")
      && c.server.allowedOrigins == GetCsvEnvVar(env, "ALLOWED_ORIGINS", ["http://localhost"])
      && c.server.allowedHosts == GetCsvEnvVar(env, "ALLOWED_HOSTS", DefaultAllowedHosts(c.server.port))
      && c.transport == GetTransportType(env).value
  {
    match Port(env)
    case Throw(e) => Throw(e)
    case Ok(port) =>
      match GetRequiredEnvVar(env, "BUSINESSMAP_API_URL")
      case Throw(e) => Throw(e)
      case Ok(apiUrl) =>
        match GetRequiredEnvVar(env, "BUSINESSMAP_API_TOKEN")
        case Throw(e) => Throw(e)
        case Ok(apiToken) =>
          match GetNumberEnvVar(env, "BUSINESSMAP_DEFAULT_WORKSPACE_ID", None)
          case Throw(e) => Throw(e)
          case Ok(workspaceId) =>
            var businessMap := BusinessMapConfig(apiUrl, apiToken, workspaceId,
              GetBooleanEnvVar(env, "BUSINESSMAP_READ_ONLY_MODE", false));
            var server := ServerConfig(
              OrDefault(env, "MCP_SERVER_NAME", "businessmap-mcp"),
              OrDefault(env, "MCP_SERVER_VERSION", "1.0.0"),
              port,
              GetCsvEnvVar(env, "ALLOWED_ORIGINS", ["http://localhost"]),
              GetCsvEnvVar(env, "ALLOWED_HOSTS", DefaultAllowedHosts(port)));
            match GetTransportType(env)
            case Throw(e) => Throw(e)
            case Ok(transport) => Ok(Config(businessMap, server, transport))
  }

  /** With only the two required variables set, every other setting takes
      its default. */
  lemma LoadConfigDefaults(url: string, token: string)
    requires url != "" && token != ""
    ensures var r := LoadConfig(map["BUSINESSMAP_API_URL" := url, "BUSINESSMAP_API_TOKEN" := token]);
      && r.Ok?
      && r.value.server.port == 3000
      && r.value.server.allowedOrigins == ["http://localhost"]
      && r.value.server.allowedHosts == DefaultAllowedHosts(3000)
      && r.value.businessMap.defaultWorkspaceId == None
      && !r.value.businessMap.readOnlyMode
      && r.value.transport == Stdio
  {
    var env := map["BUSINESSMAP_API_URL" := url, "BUSINESSMAP_API_TOKEN" := token];
    OnlyRequiredSet(url, token);
    TransportDefault(env);
  }

  /** The environment holding only the two required variables leaves every
      optional one unset. */
  lemma OnlyRequiredSet(url: string, token: string)
    ensures var env := map["BUSINESSMAP_API_URL" := url, "BUSINESSMAP_API_TOKEN" := token];
      && "PORT" !in env && "TRANSPORT" !in env && "ALLOWED_ORIGINS" !in env && "ALLOWED_HOSTS" !in env
      && "BUSINESSMAP_DEFAULT_WORKSPACE_ID" !in env && "BUSINESSMAP_READ_ONLY_MODE" !in env
  {
    assert "BUSINESSMAP_DEFAULT_WORKSPACE_ID"[12] != "BUSINESSMAP_API_URL"[12];
    assert "BUSINESSMAP_DEFAULT_WORKSPACE_ID"[12] != "BUSINESSMAP_API_TOKEN"[12];
    assert "BUSINESSMAP_READ_ONLY_MODE"[12] != "BUSINESSMAP_API_URL"[12];
    assert "BUSINESSMAP_READ_ONLY_MODE"[12] != "BUSINESSMAP_API_TOKEN"[12];
  }

  /** `validateConfig`: the API URL must parse as a URL, then the token must
      hold something besides whitespace. `isValidUrl` stands for the
      platform's URL parser accepting the text. */
  function ValidateConfig(c: Config, isValidUrl: string -> bool): (r: Result<()>)
    ensures r.Ok? <==> isValidUrl(c.businessMap.apiUrl) && Trim(c.businessMap.apiToken) != ""
    ensures !isValidUrl(c.businessMap.apiUrl) ==> r == Throw(Error("BUSINESSMAP_API_URL must be a valid URL"))
    ensures isValidUrl(c.businessMap.apiUrl) && Trim(c.businessMap.apiToken) == "" ==>
      r == Throw(Error("BUSINESSMAP_API_TOKEN cannot be empty"))
  {
    if !isValidUrl(c.businessMap.apiUrl) then Throw(Error("BUSINESSMAP_API_URL must be a valid URL"))
    else if Trim(c.businessMap.apiToken) == "" then Throw(Error("BUSINESSMAP_API_TOKEN cannot be empty"))
    else Ok(())
  }

  /** A token made only of whitespace is rejected once the URL is valid. */
  lemma BlankTokenRejected(c: Config, isValidUrl: string -> bool)
    requires isValidUrl(c.businessMap.apiUrl)
    requires forall i :: 0 <= i < |c.businessMap.apiToken| ==> IsWhite(c.businessMap.apiToken[i])
    ensures ValidateConfig(c, isValidUrl) == Throw(Error("BUSINESSMAP_API_TOKEN cannot be empty"))
  {
    TrimSpec(c.businessMap.apiToken);
  }
}
