/**
 * The configuration object built once from the environment: required
 * variables, `~/` expansion of the keypair path, defaults, the API port,
 * and the `validate` and `display` helpers.
 */
module Config {
  import opened Wrappers
  import opened Strings
  import opened Seqs

  /** `process.env`: only variables that are set appear, every value is a string. */
  type Env = map<string, string>

  const RpcUrlVar := "SOLANA_RPC_URL"
  const KeypairPathVar := "SOLANA_KEYPAIR_PATH"
  const RequiredVars: seq<string> := [RpcUrlVar, KeypairPathVar]

  const DefaultNetwork := "devnet"
  const DefaultGateway := "https://gateway.pinata.cloud"
  const DefaultPort := 3000
  const DefaultNodeEnv := "development"
  const DefaultMetadataFile := "assets/nft-metadata.json"
  const Commitment := "confirmed"
  const DeploymentIndexPath := "deployment-index.json"

  datatype Configuration = Configuration(
    rpcUrl: string,
    keypairPath: string,
    network: string,
    commitment: string,
    pinataJwt: Option<string>,
    gateway: string,
    port: int,
    nodeEnv: string,
    defaultMetadataFile: string,
    deploymentIndex: string)
  {
    /** `if (this.ipfs.pinataJwt)`: set and not empty. */
    predicate JwtConfigured() { pinataJwt.Some? && pinataJwt.value != "" }
  }

  /** `process.env[name]` is truthy. */
  predicate IsSet(env: Env, name: string)
  {
    name in env && env[name] != ""
  }

  function Lookup(env: Env, name: string): Option<string>
  {
    if name in env then Some(env[name]) else None
  }

  /** `process.env[name] || fallback`. */
  function OrDefault(env: Env, name: string, fallback: string): (r: string)
    ensures IsSet(env, name) ==> r == env[name]
    ensures !IsSet(env, name) ==> r == fallback
  {
    if IsSet(env, name) then env[name] else fallback
  }

  /** The required variables that are unset or empty, in declaration order. */
  function MissingVars(env: Env): (r: seq<string>)
    ensures forall i :: 0 <= i < |r| ==> r[i] in RequiredVars && !IsSet(env, r[i])
    ensures forall v :: v in RequiredVars && !IsSet(env, v) ==> v in r
    ensures IsSubsequence(r, RequiredVars)
  {
    Filter(RequiredVars, v => !IsSet(env, v))
  }

  /** Nothing is missing exactly when both required variables are set. */
  lemma MissingVarsEmpty(env: Env)
    ensures MissingVars(env) == [] <==> IsSet(env, RpcUrlVar) && IsSet(env, KeypairPathVar)
  {
    var r := MissingVars(env);
    if !IsSet(env, RpcUrlVar) { assert RpcUrlVar in RequiredVars; }
    if !IsSet(env, KeypairPathVar) { assert KeypairPathVar in RequiredVars; }
    if r != [] {
      assert r[0] in RequiredVars && !IsSet(env, r[0]);
      assert r[0] == RpcUrlVar || r[0] == KeypairPathVar;
    }
  }

  /** The TypeError `path.join` raises for an argument that is not a string. */
  const JoinUndefinedMessage := "The \"path\" argument must be of type string. Received undefined"

  /**
   * `expandPath`: a path starting with "~/" becomes `path.join(HOME, rest)`;
   * `path.join` rejects an undefined HOME with a TypeError. Every other
   * path is returned unchanged.
   */
  function ExpandPath(p: string, home: Option<string>, join: (string, string) -> string): (r: Result<string>)
    ensures !StartsWith(p, "~/") ==> r == Ok(p)
    ensures StartsWith(p, "~/") && home.Some? ==> r == Ok(join(home.value, p[2..]))
    ensures r.Err? <==> StartsWith(p, "~/") && home.None?
    ensures r.Err? ==> r.msg == JoinUndefinedMessage
  {
    if StartsWith(p, "~/") then
      if home.Some? then Ok(join(home.value, p[2..]))
      else Err(JoinUndefinedMessage)
    else Ok(p)
  }

  /** "~" alone, "~user/x" and relative or absolute paths are not expanded. */
  lemma ExpandPathOnlyTildeSlash(home: Option<string>, join: (string, string) -> string)
    ensures ExpandPath("~", home, join) == Ok("~")
    ensures ExpandPath("~user/x", home, join) == Ok("~user/x")
    ensures ExpandPath("/abs/~/x", home, join) == Ok("/abs/~/x")
  {
    assert "~user/x"[1] != '/';
    assert "/abs/~/x"[0] != '~';
  }

  /** `parseInt(process.env.PORT) || 3000`: NaN and zero fall back to 3000. */
  function Port(env: Env): (port: int)
    ensures port != 0
    ensures var n := ParseInt(Lookup(env, "PORT")); n.Some? && n.value != 0 ==> port == n.value
    ensures port == DefaultPort <==> (var n := ParseInt(Lookup(env, "PORT")); n.None? || n.value == 0 || n.value == DefaultPort)
  {
    match ParseInt(Lookup(env, "PORT"))
    case None => DefaultPort
    case Some(n) => if n == 0 then DefaultPort else n
  }

  /**
   * The configuration `config/index.js` exports, or the message printed
   * before `process.exit(1)` when a required variable is missing.
   */
  function Load(env: Env, join: (string, string) -> string): (r: Result<Configuration>)
    ensures r.Ok? ==> IsSet(env, RpcUrlVar) && IsSet(env, KeypairPathVar)
    ensures r.Ok? ==> r.value.rpcUrl == env[RpcUrlVar] && r.value.commitment == Commitment
    ensures (!IsSet(env, RpcUrlVar) || !IsSet(env, KeypairPathVar)) ==>
              r == Err("Missing required environment variables: " + Join(MissingVars(env), ", "))
    ensures r.Ok? <==> IsSet(env, RpcUrlVar) && IsSet(env, KeypairPathVar) &&
                       ExpandPath(env[KeypairPathVar], Lookup(env, "HOME"), join).Ok?
    ensures (IsSet(env, RpcUrlVar) && IsSet(env, KeypairPathVar) &&
             ExpandPath(env[KeypairPathVar], Lookup(env, "HOME"), join).Err?) ==> r == Err(JoinUndefinedMessage)
    ensures r.Ok? ==>
              && r.value.keypairPath == ExpandPath(env[KeypairPathVar], Lookup(env, "HOME"), join).value
              && r.value.network == OrDefault(env, "NETWORK", DefaultNetwork)
              && r.value.pinataJwt == Lookup(env, "PINATA_JWT")
              && r.value.gateway == OrDefault(env, "PINATA_GATEWAY", DefaultGateway)
              && r.value.port == Port(env)
              && r.value.nodeEnv == OrDefault(env, "NODE_ENV", DefaultNodeEnv)
              && r.value.defaultMetadataFile == OrDefault(env, "DEFAULT_METADATA_FILE", DefaultMetadataFile)
              && r.value.deploymentIndex == DeploymentIndexPath
  {
    var missing := MissingVars(env);
    MissingVarsEmpty(env);
    if missing != [] then Err("Missing required environment variables: " + Join(missing, ", "))
    else
      var keypairPath :- ExpandPath(env[KeypairPathVar], Lookup(env, "HOME"), join);
      Ok(Configuration(
        rpcUrl := env[RpcUrlVar],
        keypairPath := keypairPath,
        network := OrDefault(env, "NETWORK", DefaultNetwork),
        commitment := Commitment,
        pinataJwt := Lookup(env, "PINATA_JWT"),
        gateway := OrDefault(env, "PINATA_GATEWAY", DefaultGateway),
        port := Port(env),
        nodeEnv := OrDefault(env, "NODE_ENV", DefaultNodeEnv),
        defaultMetadataFile := OrDefault(env, "DEFAULT_METADATA_FILE", DefaultMetadataFile),
        deploymentIndex := DeploymentIndexPath))
  }

  /** With only the required variables set (and a plain keypair path), every default applies. */
  lemma LoadDefaults(env: Env, join: (string, string) -> string)
    requires env.Keys == {RpcUrlVar, KeypairPathVar}
    requires IsSet(env, RpcUrlVar) && IsSet(env, KeypairPathVar) && !StartsWith(env[KeypairPathVar], "~/")
    ensures Load(env, join) == Ok(Configuration(env[RpcUrlVar], env[KeypairPathVar], DefaultNetwork, Commitment,
              None, DefaultGateway, DefaultPort, DefaultNodeEnv, DefaultMetadataFile, DeploymentIndexPath))
  {
    MissingVarsEmpty(env);
  }

  /** `validate()`: true when the keypair file exists, otherwise an error naming the path. */
  function Validate(cfg: Configuration, keypairExists: bool): (r: Result<bool>)
    ensures r.Ok? <==> keypairExists
    ensures r.Ok? ==> r.value
    ensures r.Err? ==> r.msg == "Solana keypair not found at: " + cfg.keypairPath
  {
    if !keypairExists then Err("Solana keypair not found at: " + cfg.keypairPath) else Ok(true)
  }

  /** The lines `display()` prints; the JWT shows only as "Yes" or "No". */
  function Display(cfg: Configuration): (lines: seq<string>)
    ensures |lines| == 6
    ensures lines[5] == "   IPFS Configured: " + (if cfg.JwtConfigured() then "Yes" else "No")
  {
    ["\U{1F4CB} Configuration:",
     "   Network: " + cfg.network,
     "   RPC URL: " + cfg.rpcUrl,
     "   Keypair: " + cfg.keypairPath,
     "   API Port: " + ShowInt(cfg.port),
     "   IPFS Configured: " + (if cfg.JwtConfigured() then "Yes" else "No")]
  }

  /** The printed lines depend on the JWT only through whether it is configured. */
  lemma DisplayHidesJwt(cfg: Configuration, jwt: Option<string>)
    requires cfg.JwtConfigured() == cfg.(pinataJwt := jwt).JwtConfigured()
    ensures Display(cfg) == Display(cfg.(pinataJwt := jwt))
  {
  }

  // ---- parseInt ----

  /** The white space `parseInt` skips: ECMAScript's WhiteSpace and LineTerminator. */
  predicate IsJsSpace(c: char)
  {
    c in {'\t', '\n', '\U{B}', '\U{C}', '\r', ' ', '\U{A0}', '\U{1680}', '\U{2028}', '\U{2029}',
          '\U{202F}', '\U{205F}', '\U{3000}', '\U{FEFF}'}
    || '\U{2000}' <= c <= '\U{200A}'
  }

  /** The value of `c` as a digit in `radix` (10 or 16). */
  function DigitValue(c: char, radix: nat): (r: Option<nat>)
    ensures r.Some? ==> r.value < radix || radix < 10
  {
    if '0' <= c <= '9' then Some((c as int) - ('0' as int))
    else if radix == 16 && 'a' <= c <= 'f' then Some((c as int) - ('a' as int) + 10)
    else if radix == 16 && 'A' <= c <= 'F' then Some((c as int) - ('A' as int) + 10)
    else None
  }

  /** The values of the longest prefix of `s` made of digits. */
  function LeadingDigits(s: string, radix: nat): (ds: seq<nat>)
    ensures |ds| <= |s|
  {
    if s == [] then []
    else match DigitValue(s[0], radix)
      case None => []
      case Some(d) => [d] + LeadingDigits(s[1..], radix)
  }

  /** The number whose most significant digit comes first. */
  function DigitsValue(ds: seq<nat>, radix: nat): nat
  {
    if ds == [] then 0 else DigitsValue(ds[..|ds| - 1], radix) * radix + ds[|ds| - 1]
  }

  function TrimStart(s: string): (r: string)
    ensures |r| <= |s|
  {
    if s != [] && IsJsSpace(s[0]) then TrimStart(s[1..]) else s
  }

  /**
   * `parseInt(s)` with no radix: leading white space, an optional sign, a
   * "0x"/"0X" prefix for hexadecimal, then the longest run of digits;
   * `None` is NaN (and also stands for an undefined argument). A negative
   * zero is returned as 0, which is just as falsy.
   */
  function ParseInt(arg: Option<string>): (r: Option<int>)
  {
    match arg
    case None => None
    case Some(raw) =>
      var s := TrimStart(raw);
      var sign := if s != [] && s[0] == '-' then -1 else 1;
      var unsigned := if s != [] && (s[0] == '-' || s[0] == '+') then s[1..] else s;
      var hex := |unsigned| >= 2 && unsigned[0] == '0' && (unsigned[1] == 'x' || unsigned[1] == 'X');
      var radix := if hex then 16 else 10;
      var ds := LeadingDigits(if hex then unsigned[2..] else unsigned, radix);
      if ds == [] then None else Some(sign * DigitsValue(ds, radix))
  }

  /** The decimal digit values of `n`, most significant first. */
  function DigitsOf(n: nat): (ds: seq<nat>)
    ensures ds != []
  {
    if n < 10 then [n] else DigitsOf(n / 10) + [n % 10]
  }

  lemma {:induction false} LeadingDigitsAppend(digits: string, tail: string)
    requires forall k :: 0 <= k < |digits| ==> '0' <= digits[k] <= '9'
    ensures LeadingDigits(digits + tail, 10) == LeadingDigits(digits, 10) + LeadingDigits(tail, 10)
  {
    if digits != [] {
      assert (digits + tail)[0] == digits[0];
      assert (digits + tail)[1..] == digits[1..] + tail;
      LeadingDigitsAppend(digits[1..], tail);
    } else {
      assert digits + tail == tail;
    }
  }

  lemma {:induction false} LeadingDigitsOfShowNat(n: nat)
    ensures LeadingDigits(ShowNat(n), 10) == DigitsOf(n)
    ensures DigitsValue(DigitsOf(n), 10) == n
  {
    if n >= 10 {
      LeadingDigitsOfShowNat(n / 10);
      LeadingDigitsAppend(ShowNat(n / 10), [Digit(n % 10)]);
      assert [Digit(n % 10)][1..] == [];
      assert DigitsOf(n)[..|DigitsOf(n)| - 1] == DigitsOf(n / 10);
    }
  }

  /** `parseInt` reads back the decimal rendering of every natural number. */
  lemma ParseIntShowNat(n: nat)
    ensures ParseInt(Some(ShowNat(n))) == Some(n)
  {
    var s := ShowNat(n);
    assert !IsJsSpace(s[0]);
    assert TrimStart(s) == s;
    LeadingDigitsOfShowNat(n);
  }

  /** PORT set to the decimal rendering of a positive number selects that port. */
  lemma PortFromDecimal(env: Env, n: nat)
    requires n > 0 && "PORT" in env && env["PORT"] == ShowNat(n)
    ensures Port(env) == n
  {
    ParseIntShowNat(n);
  }

  /** `parseInt` skips leading white space and stops at the first character that is not a digit. */
  lemma ParseIntDecimalExamples()
    ensures ParseInt(Some(" 8080")) == Some(8080)
    ensures ParseInt(Some("8080x")) == Some(8080)
  {
    assert IsJsSpace(' ');
    assert " 8080"[1..] == "8080";
    assert TrimStart(" 8080") == "8080";
    assert LeadingDigits("8080", 10) == [8, 0, 8, 0];
    assert TrimStart("8080x") == "8080x";
    assert LeadingDigits("8080x", 10) == [8, 0, 8, 0];
    assert [8, 0, 8, 0][..3] == [8, 0, 8] && [8, 0, 8][..2] == [8, 0] && [8, 0][..1] == [8];
    assert DigitsValue([8, 0], 10) == 80;
    assert DigitsValue([8, 0, 8], 10) == 808;
  }

  /** `parseInt` reads a "0x" prefix as hexadecimal, in either case of the digits. */
  lemma ParseIntHexExample()
    ensures ParseInt(Some("0x1F90")) == Some(8080)
  {
    assert TrimStart("0x1F90") == "0x1F90";
    assert "0x1F90"[2..] == "1F90";
    assert DigitValue('F', 16) == Some(15);
    assert LeadingDigits("0", 16) == [0] by { assert "0"[1..] == []; }
    assert LeadingDigits("90", 16) == [9, 0] by { assert "90"[1..] == "0"; }
    assert LeadingDigits("F90", 16) == [15, 9, 0] by { assert "F90"[1..] == "90"; }
    assert LeadingDigits("1F90", 16) == [1, 15, 9, 0] by { assert "1F90"[1..] == "F90"; }
    assert DigitsValue([1], 16) == 1 by { assert [1][..0] == []; }
    assert DigitsValue([1, 15], 16) == 31 by { assert [1, 15][..1] == [1]; }
    assert DigitsValue([1, 15, 9], 16) == 505 by { assert [1, 15, 9][..2] == [1, 15]; }
    assert DigitsValue([1, 15, 9, 0], 16) == 8080 by { assert [1, 15, 9, 0][..3] == [1, 15, 9]; }
  }

  /** A PORT with no leading digits, or one that reads as 0, leaves the default port. */
  lemma PortFallbackExamples(env: Env)
    requires Lookup(env, "PORT") in {Some("abc"), Some("0"), None}
    ensures Port(env) == DefaultPort
  {
    assert TrimStart("abc") == "abc";
    assert LeadingDigits("abc", 10) == [];
    assert TrimStart("0") == "0";
    assert LeadingDigits("0", 10) == [0];
    assert DigitsValue([0], 10) == 0 by { assert [0][..0] == []; }
  }
}
