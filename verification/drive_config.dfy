/** Resolution of the proxy's drive and Graph application configuration from the
    plugin options and the environment. */
module DriveConfig {
  import opened Wrappers
  import opened Errors

  /** `DriveConfiguration`: drive-level read and write flags and the approved drives. */
  datatype DriveConfiguration = DriveConfiguration(read: bool, write: bool, drives: seq<string>)

  /** A caller-owned drives array, which `resolveDrives` extends in place. */
  class DriveList {
    var items: seq<string>

    constructor (items: seq<string>)
      ensures this.items == items
    {
      this.items := items;
    }
  }

  /** `Partial<DriveConfiguration>`. */
  datatype DriveOptions = DriveOptions(read: Option<bool>, write: Option<bool>, drives: Option<DriveList>)

  /** `configuration.x ?? process.env.X === 'true'`: an explicit option wins;
      otherwise only the exact text `true` turns the flag on. */
  function ResolveFlag(option: Option<bool>, env: Option<string>): (r: bool)
    ensures option.Some? ==> r == option.value
    ensures option.None? ==> (r <==> env == Some("true"))
  {
    match option
    case Some(b) => b
    case None => env == Some("true")
  }

  /** The drives after `resolveDrives` has run: the given ones (or none), then the
      `APPROVED_DRIVE` variable when it is set and non-empty. */
  function ResolvedDrives(given: seq<string>, env: Env): (r: seq<string>)
    ensures |given| <= |r| <= |given| + 1 && r[..|given|] == given
    ensures |r| > |given| <==> Truthy(EnvGet(env, "APPROVED_DRIVE"))
    ensures |r| > |given| ==> r[|given|] == env["APPROVED_DRIVE"]
  {
    var approved := EnvGet(env, "APPROVED_DRIVE");
    if Truthy(approved) then given + [approved.value] else given
  }

  /** `resolveDrives(configuration)`. The caller's drives array, when it passed
      one, grows in place; the result refers to the same drives. */
  method ResolveDrives(options: DriveOptions, env: Env) returns (r: Result<DriveConfiguration, Thrown>)
    modifies if options.drives.Some? then {options.drives.value} else {}
    ensures var given := if options.drives.Some? then old(options.drives.value.items) else [];
      && (options.drives.Some? ==> options.drives.value.items == ResolvedDrives(given, env))
      && (r.Err? <==> ResolvedDrives(given, env) == [])
      && (r.Err? ==> r.error == Generic("No drives configured"))
      && (r.Ok? ==> r.value == DriveConfiguration(
            ResolveFlag(options.read, EnvGet(env, "CAN_ACCESS_ROOT")),
            ResolveFlag(options.write, EnvGet(env, "CAN_WRITE_ROOT")),
            ResolvedDrives(given, env)))
  {
    var drives: DriveList;
    if options.drives.Some? {
      drives := options.drives.value;
    } else {
      drives := new DriveList([]);
    }
    var approved := EnvGet(env, "APPROVED_DRIVE");
    if Truthy(approved) {
      drives.items := drives.items + [approved.value];
    }
    if |drives.items| == 0 {
      return Err(Generic("No drives configured"));
    }
    var read := ResolveFlag(options.read, EnvGet(env, "CAN_ACCESS_ROOT"));
    var write := ResolveFlag(options.write, EnvGet(env, "CAN_WRITE_ROOT"));
    return Ok(DriveConfiguration(read, write, drives.items));
  }

  /** Configuration fails exactly when no drive is given and none is approved
      through the environment. */
  lemma NoDrivesIffNothingConfigured(given: seq<string>, env: Env)
    ensures ResolvedDrives(given, env) == [] <==> given == [] && !Truthy(EnvGet(env, "APPROVED_DRIVE"))
  {
  }

  /** `AuthenticationConfig`: the Graph application credentials. */
  datatype AuthenticationConfig = AuthenticationConfig(clientId: string, clientSecret: string, tenantId: string)

  /** `Partial<AuthenticationConfig>`. */
  datatype AuthOptions = AuthOptions(clientId: Option<string>, clientSecret: Option<string>, tenantId: Option<string>)

  /** The schema parse: every field must be a string (the empty string included). */
  function ParseAuthentication(o: AuthOptions): (r: Result<AuthenticationConfig, Thrown>)
    ensures r.Ok? <==> o.clientId.Some? && o.clientSecret.Some? && o.tenantId.Some?
    ensures r.Ok? ==> r.value == AuthenticationConfig(o.clientId.value, o.clientSecret.value, o.tenantId.value)
    ensures r.Err? ==> r.error == Validation
  {
    if o.clientId.Some? && o.clientSecret.Some? && o.tenantId.Some? then
      Ok(AuthenticationConfig(o.clientId.value, o.clientSecret.value, o.tenantId.value))
    else Err(Validation)
  }

  function EnvAuthOptions(env: Env): AuthOptions {
    AuthOptions(EnvGet(env, "GRAPH_APP_CLIENT_ID"), EnvGet(env, "GRAPH_APP_CLIENT_SECRET"), EnvGet(env, "GRAPH_APP_TENANT"))
  }

  /** `resolveAuthentication(config)`: the given configuration when it is
      complete, regardless of the environment; otherwise the environment's,
      which fails when one of the three variables is missing. */
  function ResolveAuthentication(config: Option<AuthOptions>, env: Env): (r: Result<AuthenticationConfig, Thrown>)
    ensures config.Some? && ParseAuthentication(config.value).Ok? ==>
              r == ParseAuthentication(config.value)
    ensures !(config.Some? && ParseAuthentication(config.value).Ok?) ==>
              (r.Ok? <==> "GRAPH_APP_CLIENT_ID" in env && "GRAPH_APP_CLIENT_SECRET" in env && "GRAPH_APP_TENANT" in env)
    ensures r.Ok? && (config.None? || ParseAuthentication(config.value).Err?) ==>
              r.value == AuthenticationConfig(env["GRAPH_APP_CLIENT_ID"], env["GRAPH_APP_CLIENT_SECRET"],
                                              env["GRAPH_APP_TENANT"])
    ensures r.Err? ==> r.error == Validation
  {
    if config.Some? && ParseAuthentication(config.value).Ok? then ParseAuthentication(config.value)
    else ParseAuthentication(EnvAuthOptions(env))
  }
}
