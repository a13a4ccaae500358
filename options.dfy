/** The backend's option defaulting and its MongoDB connection string. */
module Options {
  import opened Values

  /** The keys of the backend's defaults table, in declaration order. */
  const OptionKeys: seq<string> :=
    ["host", "port", "name", "user", "pswd", "dbOpt",
     "pollInterval", "pollIntervalBusy", "errorRetryTime"]

  /** The keys as a set: exactly the keys a resolved options table has.
      Written out as a display (a comprehension over `OptionKeys` is far
      costlier to reason about); `ResolveOptions` proves the two agree. */
  const KeySet: set<string> :=
    {"host", "port", "name", "user", "pswd", "dbOpt",
     "pollInterval", "pollIntervalBusy", "errorRetryTime"}

  /** The default database name: `wrkr`, suffixed with `_` and the
      NODE_ENV environment variable when that is set and non-empty. */
  function DefaultName(nodeEnv: string): string {
    "wrkr" + (if nodeEnv != "" then "_" + nodeEnv else "")
  }

  /** The write concern `{w: 1}`, an opaque object here. */
  const WriteConcernOne: Value := Obj(1)

  /** The default for each known key; `Undefined` for any other key. */
  function DefaultFor(key: string, nodeEnv: string): (v: Value)
    ensures key in KeySet <==> v != Undefined
  {
    match key
    case "host" => Str("localhost")
    case "port" => Num(27017)
    case "name" => Str(DefaultName(nodeEnv))
    case "user" => Str("")
    case "pswd" => Str("")
    case "dbOpt" => WriteConcernOne
    case "pollInterval" => Num(500)
    case "pollIntervalBusy" => Num(5)
    case "errorRetryTime" => Num(5000)
    case _ => Undefined
  }

  /** The option a caller's table yields for one key: the caller's value
      unless it is undefined (missing or explicitly `undefined`). */
  function Pick(caller: map<string, Value>, key: string, nodeEnv: string): (v: Value)
    ensures v == Undefined <==> (key !in caller || caller[key] == Undefined) && key !in KeySet
    ensures key in caller && caller[key] != Undefined ==> v == caller[key]
  {
    if key in caller && caller[key] != Undefined then caller[key] else DefaultFor(key, nodeEnv)
  }

  /** The constructor's loop over the defaults' keys: every known key gets
      the caller's value or the default, unknown keys are dropped. */
  method ResolveOptions(caller: map<string, Value>, nodeEnv: string) returns (opt: map<string, Value>)
    ensures opt.Keys == KeySet
    ensures forall k :: k in opt ==> opt[k] == Pick(caller, k, nodeEnv)
  {
    opt := map[];
    var i := 0;
    while i < |OptionKeys|
      invariant 0 <= i <= |OptionKeys|
      invariant opt.Keys == set j | 0 <= j < i :: OptionKeys[j]
      invariant forall k :: k in opt ==> opt[k] == Pick(caller, k, nodeEnv)
    {
      var k := OptionKeys[i];
      opt := opt[k := Pick(caller, k, nodeEnv)];
      i := i + 1;
    }
    ghost var resolved := set j | 0 <= j < |OptionKeys| :: OptionKeys[j];
    assert OptionKeys[0] in resolved && OptionKeys[1] in resolved && OptionKeys[2] in resolved;
    assert OptionKeys[3] in resolved && OptionKeys[4] in resolved && OptionKeys[5] in resolved;
    assert OptionKeys[6] in resolved && OptionKeys[7] in resolved && OptionKeys[8] in resolved;
    assert resolved == KeySet;
  }

  /** The resolved options of one backend, one field per key of the
      defaults table. */
  datatype Settings = Settings(host: Value, port: Value, name: Value, user: Value, pswd: Value,
                               dbOpt: Value, pollInterval: Value, pollIntervalBusy: Value,
                               errorRetryTime: Value)

  /** Reads a resolved options table field by field. */
  function ToSettings(opt: map<string, Value>): (s: Settings)
    requires opt.Keys == KeySet
    ensures s.host == opt["host"] && s.port == opt["port"] && s.name == opt["name"]
    ensures s.user == opt["user"] && s.pswd == opt["pswd"] && s.dbOpt == opt["dbOpt"]
    ensures s.pollInterval == opt["pollInterval"] && s.pollIntervalBusy == opt["pollIntervalBusy"]
    ensures s.errorRetryTime == opt["errorRetryTime"]
  {
    Settings(opt["host"], opt["port"], opt["name"], opt["user"], opt["pswd"], opt["dbOpt"],
             opt["pollInterval"], opt["pollIntervalBusy"], opt["errorRetryTime"])
  }

  /** A non-negative millisecond count from a numeric option; any other
      value reads as zero. */
  function Millis(v: Value): nat {
    if v.Num? && v.n >= 0 then v.n else 0
  }

  const Scheme: string := "mongodb://"

  /** Credentials are written only when both user and password are truthy. */
  predicate HasCredentials(s: Settings) {
    Truthy(s.user) && Truthy(s.pswd)
  }

  function Address(s: Settings): string {
    ToText(s.host) + ":" + ToText(s.port) + "/" + ToText(s.name)
  }

  /** `mongodb://[user:pswd@]host:port/name`. */
  function ConnectionString(s: Settings): (r: string)
    ensures |r| >= |Scheme| && r[..|Scheme|] == Scheme
    ensures HasCredentials(s) <==> |r| > |Scheme| + |Address(s)|
  {
    var userPswd := if HasCredentials(s)
                    then ToText(s.user) + ":" + ToText(s.pswd) + "@"
                    else "";
    Scheme + userPswd + Address(s)
  }

  /** The string starts with the scheme; what follows is `user:pswd@` and
      the address when both credentials are truthy, the address alone
      otherwise. */
  lemma ConnectionStringShape(s: Settings)
    ensures var r := ConnectionString(s);
      && |r| >= |Scheme| && r[..|Scheme|] == Scheme
      && (HasCredentials(s) ==> r[|Scheme|..] == ToText(s.user) + ":" + ToText(s.pswd) + "@" + Address(s))
      && (!HasCredentials(s) ==> r[|Scheme|..] == Address(s))
  {
    var userPswd := if HasCredentials(s) then ToText(s.user) + ":" + ToText(s.pswd) + "@" else "";
    var rest := userPswd + Address(s);
    assert ConnectionString(s) == Scheme + rest;
    assert (Scheme + rest)[..|Scheme|] == Scheme;
    assert (Scheme + rest)[|Scheme|..] == rest;
  }

  /** With no caller options at all, the backend connects to the local
      default database. */
  lemma DefaultConnection(opt: map<string, Value>, nodeEnv: string)
    requires opt.Keys == KeySet
    requires forall k :: k in opt ==> opt[k] == Pick(map[], k, nodeEnv)
    ensures ConnectionString(ToSettings(opt)) == "mongodb://localhost:27017/" + DefaultName(nodeEnv)
  {
    var s := ToSettings(opt);
    assert s.port == Num(27017);
    assert DecimalText(27017) == "27017" by {
      assert DecimalText(2) == "2";
      assert DecimalText(27) == "27";
      assert DecimalText(270) == "270";
      assert DecimalText(2701) == "2701";
    }
    assert !HasCredentials(s);
  }
}
