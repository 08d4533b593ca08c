/**
 * The SFTP delivery plugin: `validate`, which fills in the configuration
 * defaults and takes the identity, and `generate_keypaths`, which lists the
 * SSH key files to offer.  Its `connected?`, `disconnect` and `upload_files`
 * are those of `SFTPHelper` (module SftpHelper).  The environment and the
 * home directory of a user name are parameters.
 */
module SftpPlugin {
  import opened Wrappers
  import opened PluginConfig

  const SftpDefaults: seq<(string, Value)> :=
    [("overwrite", Bool(false)), ("default_permissions", Int(0x1A4)), ("identity", Bool(false))]

  const RequiredKeys := ["path", "username", "host"]

  /** `validate`: the defaults, then the required keys, then `@identity = identity || i`. */
  method Validate(config: Config) returns (identity: Result<Value, ValidationError>)
    modifies config
    ensures config.values == Defaulted(old(config.values), SftpDefaults)
    ensures identity.Failure? <==> FirstMissing(config.values, RequiredKeys).Some?
    ensures identity.Failure? ==> identity.error == MissingKey(FirstMissing(config.values, RequiredKeys).value)
    ensures identity.Success? ==> identity.value == Or(Get(config.values, "identity"), Get(config.values, "i"))
  {
    config.SetDefaults(SftpDefaults);
    var checked := config.ValidateFields(RequiredKeys);
    if checked.Fail? {
      return Failure(checked.error);
    }
    identity := Success(Or(Get(config.values, "identity"), Get(config.values, "i")));
  }

  /**
   * After `validate`, overwrite, default_permissions and identity hold the
   * configured value, or false, 0644 and false when none was given; any
   * other key is as configured; and the identity is the "i" key unless an
   * "identity" was given that is neither nil nor false.
   */
  lemma ValidatedConfig(values: map<string, Value>, key: string)
    ensures Get(Defaulted(values, SftpDefaults), "overwrite") ==
      if Get(values, "overwrite").Nil? then Bool(false) else Get(values, "overwrite")
    ensures Get(Defaulted(values, SftpDefaults), "default_permissions") ==
      if Get(values, "default_permissions").Nil? then Int(0x1A4) else Get(values, "default_permissions")
    ensures key != "overwrite" && key != "default_permissions" && key != "identity" ==>
      Get(Defaulted(values, SftpDefaults), key) == Get(values, key)
    ensures !Truthy(Get(values, "identity")) ==>
      Or(Get(Defaulted(values, SftpDefaults), "identity"), Get(Defaulted(values, SftpDefaults), "i")) == Get(values, "i")
    ensures Truthy(Get(values, "identity")) ==>
      Or(Get(Defaulted(values, SftpDefaults), "identity"), Get(Defaulted(values, SftpDefaults), "i")) == Get(values, "identity")
  {
    DefaultedMeaning(values, SftpDefaults, "overwrite");
    DefaultedMeaning(values, SftpDefaults, "default_permissions");
    DefaultedMeaning(values, SftpDefaults, "identity");
    DefaultedMeaning(values, SftpDefaults, "i");
    DefaultedMeaning(values, SftpDefaults, key);
  }

  /** The paths net-ssh already knows, listed first and left unexpanded. */
  const BakedPaths := ["~/.ssh/id_rsa", "~/.ssh/id_dsa", "~/.ssh2/id_rsa", "~/.ssh2/id_dsa"]

  /** The environment variables naming further users, in the order they are read. */
  const UserVariables := ["SUDO_USER", "LOGNAME"]

  /** `File.expand_path("~user/...")` raises when the user has no home directory. */
  datatype KeyPathError = NoSuchUser(user: string)

  /** The key files of a user with home directory `home`: each of .ssh and .ssh2 with id_rsa and then id_dsa. */
  function UserPaths(home: string): (r: seq<string>)
    ensures |r| == 4
    ensures forall d, k :: 0 <= d < 2 && 0 <= k < 2 ==> r[2 * d + k] == home + "/" + [".ssh", ".ssh2"][d] + "/" + ["id_rsa", "id_dsa"][k]
  {
    [home + "/.ssh/id_rsa", home + "/.ssh/id_dsa", home + "/.ssh2/id_rsa", home + "/.ssh2/id_dsa"]
  }

  /** The `inject` over the variables from `paths`: each variable that is set appends its user's key files. */
  function Appended(paths: seq<string>, vars: seq<string>, env: string -> Option<string>, homes: string -> Option<string>)
    : Result<seq<string>, KeyPathError>
    decreases |vars|
  {
    if vars == [] then Success(paths)
    else match env(vars[0])
      case None => Appended(paths, vars[1..], env, homes)
      case Some(user) =>
        match homes(user)
        case None => Failure(NoSuchUser(user))
        case Some(home) => Appended(paths + UserPaths(home), vars[1..], env, homes)
  }

  function KeyPaths(env: string -> Option<string>, homes: string -> Option<string>): Result<seq<string>, KeyPathError> {
    Appended(BakedPaths, UserVariables, env, homes)
  }

  /** `generate_keypaths`: appends to `paths` in place, one variable at a time. */
  method GenerateKeypaths(env: string -> Option<string>, homes: string -> Option<string>)
    returns (r: Result<seq<string>, KeyPathError>)
    ensures r == KeyPaths(env, homes)
  {
    var paths := BakedPaths;
    var i := 0;
    while i < |UserVariables|
      invariant 0 <= i <= |UserVariables|
      invariant KeyPaths(env, homes) == Appended(paths, UserVariables[i..], env, homes)
    {
      assert UserVariables[i..][1..] == UserVariables[i + 1..];
      var user := env(UserVariables[i]);
      if user.Some? {
        var home := homes(user.value);
        if home.None? {
          return Failure(NoSuchUser(user.value));
        }
        paths := paths + UserPaths(home.value);
      }
      i := i + 1;
    }
    return Success(paths);
  }

  /** The contribution of one variable: nothing when unset, its user's key files when that user has a home. */
  function Extra(v: string, env: string -> Option<string>, homes: string -> Option<string>): seq<string> {
    if env(v).Some? && homes(env(v).value).Some? then UserPaths(homes(env(v).value).value) else []
  }

  predicate Resolvable(v: string, env: string -> Option<string>, homes: string -> Option<string>) {
    env(v).None? || homes(env(v).value).Some?
  }

  /**
   * The list is the four baked paths, then SUDO_USER's four key files when it
   * is set, then LOGNAME's, so it holds 4, 8 or 12 paths; it fails, naming
   * the user, exactly when a set variable names a user with no home.
   */
  lemma KeyPathsShape(env: string -> Option<string>, homes: string -> Option<string>)
    ensures KeyPaths(env, homes).Success? <==>
      Resolvable("SUDO_USER", env, homes) && Resolvable("LOGNAME", env, homes)
    ensures KeyPaths(env, homes).Success? ==>
      KeyPaths(env, homes).value == BakedPaths + Extra("SUDO_USER", env, homes) + Extra("LOGNAME", env, homes)
    ensures KeyPaths(env, homes).Success? ==> |KeyPaths(env, homes).value| in {4, 8, 12}
    ensures KeyPaths(env, homes).Failure? ==>
      (!Resolvable("SUDO_USER", env, homes) && KeyPaths(env, homes).error == NoSuchUser(env("SUDO_USER").value))
      || (Resolvable("SUDO_USER", env, homes) && KeyPaths(env, homes).error == NoSuchUser(env("LOGNAME").value))
  {
    var vars := UserVariables;
    assert vars[1..] == ["LOGNAME"] && vars[1..][1..] == [];
    var afterSudo := BakedPaths + Extra("SUDO_USER", env, homes);
    assert BakedPaths + [] == BakedPaths;
    assert afterSudo + [] == afterSudo;
    if Resolvable("SUDO_USER", env, homes) {
      assert Appended(BakedPaths, vars, env, homes) == Appended(afterSudo, ["LOGNAME"], env, homes);
      if Resolvable("LOGNAME", env, homes) {
        assert Appended(afterSudo, ["LOGNAME"], env, homes) == Appended(afterSudo + Extra("LOGNAME", env, homes), [], env, homes);
      }
    }
  }
}
