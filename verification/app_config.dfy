/**
 * The pure part of `configure_app`: from the already-parsed configuration
 * object to the application settings, or the error for the first required
 * key that is missing.
 */
module AppConfig {
  import opened Wrappers
  import opened Headers

  /** A value of the parsed configuration object (floats, arrays and objects are not modelled). */
  datatype JsonValue = JString(s: string) | JInt(i: int) | JBool(b: bool) | JNull

  function DigitChar(d: int): char
    requires 0 <= d < 10
  {
    "0123456789"[d]
  }

  function DigitValue(c: char): int {
    c as int - '0' as int
  }

  /** Python's `str()` of a non-negative int: its decimal digits, without leading zeros. */
  function Decimal(n: nat): (s: string)
    ensures |s| > 0
    ensures forall i :: 0 <= i < |s| ==> '0' <= s[i] <= '9'
    ensures |s| > 1 ==> s[0] != '0'
    decreases n
  {
    if n < 10 then [DigitChar(n)] else Decimal(n / 10) + [DigitChar(n % 10)]
  }

  /** The number a string of decimal digits denotes, read most significant digit first. */
  function DecimalValue(s: string): int
    decreases |s|
  {
    if |s| == 0 then 0 else DecimalValue(s[..|s| - 1]) * 10 + DigitValue(s[|s| - 1])
  }

  /** Reading the rendered digits back gives the number. */
  lemma {:induction false} DecimalRoundTrip(n: nat)
    ensures DecimalValue(Decimal(n)) == n
    decreases n
  {
    if n >= 10 {
      DecimalRoundTrip(n / 10);
      var s := Decimal(n);
      assert s[..|s| - 1] == Decimal(n / 10);
    }
  }

  /** Python's `str()`, as an f-string applies it to a configuration value. */
  function Str(v: JsonValue): (s: string)
    ensures v.JString? ==> s == v.s
    ensures v.JInt? && v.i >= 0 ==> DecimalValue(s) == v.i
    ensures v.JInt? && v.i < 0 ==> |s| > 1 && s[0] == '-' && DecimalValue(s[1..]) == -v.i
    ensures v.JInt? && v.i >= 0 ==> s == Decimal(v.i)
    ensures v.JInt? && v.i < 0 ==> s == "-" + Decimal(-v.i)
    ensures v.JBool? ==> s == if v.b then "True" else "False"
    ensures v.JNull? ==> s == "None"
  {
    match v
    case JString(t) => t
    case JInt(i) =>
      if i >= 0 then DecimalRoundTrip(i); Decimal(i)
      else DecimalRoundTrip(-i); "-" + Decimal(-i)
    case JBool(b) => if b then "True" else "False"
    case JNull => "None"
  }

  /** The settings `configure_app` stores in `app.config`. */
  datatype Config = Config(
    targetServer: JsonValue,
    proxyPort: JsonValue,
    authToken: JsonValue,
    headers: seq<Header>)

  /** The `KeyError` raised for a missing key, carrying that key. */
  datatype ConfigError = MissingKey(key: string)

  /** The keys `configure_app` reads, in the order it reads them. */
  const RequiredKeys: seq<string> := ["target_server", "port", "auth_token"]

  /**
   * `configure_app` after parsing: every required key present gives the
   * settings, the values unchanged and the headers the bearer token and the
   * JSON content type; otherwise the error names the first required key, in
   * reading order, that is absent.
   */
  function Configure(parsed: map<string, JsonValue>): (r: Result<Config, ConfigError>)
    ensures r.Ok? <==> forall k :: k in RequiredKeys ==> k in parsed
    ensures r.Err? ==> exists n :: 0 <= n < |RequiredKeys| && r.error == MissingKey(RequiredKeys[n])
                                   && RequiredKeys[n] !in parsed
                                   && forall m :: 0 <= m < n ==> RequiredKeys[m] in parsed
    ensures r.Ok? ==> r.value.targetServer == parsed["target_server"]
    ensures r.Ok? ==> r.value.proxyPort == parsed["port"]
    ensures r.Ok? ==> r.value.authToken == parsed["auth_token"]
    ensures r.Ok? ==> IsDict(r.value.headers) && |r.value.headers| == 2
    ensures r.Ok? ==> Get(r.value.headers, "Authorization") == Some("Bearer " + Str(parsed["auth_token"]))
    ensures r.Ok? ==> Get(r.value.headers, "Content-Type") == Some("application/json")
  {
    if "target_server" !in parsed then
      assert RequiredKeys[0] == "target_server";
      Err(MissingKey("target_server"))
    else if "port" !in parsed then
      assert RequiredKeys[1] == "port";
      Err(MissingKey("port"))
    else if "auth_token" !in parsed then
      assert RequiredKeys[2] == "auth_token";
      Err(MissingKey("auth_token"))
    else
      var headers := [
        ("Authorization", "Bearer " + Str(parsed["auth_token"])),
        ("Content-Type", "application/json")
      ];
      assert headers[..1] == [headers[0]];
      Ok(Config(parsed["target_server"], parsed["port"], parsed["auth_token"], headers))
  }

  /** Keys other than the three required ones play no part in the outcome. */
  lemma ConfigureIgnoresExtraKeys(parsed: map<string, JsonValue>, extra: string, v: JsonValue)
    requires extra !in RequiredKeys
    ensures Configure(parsed[extra := v]) == Configure(parsed)
  {
  }
}
