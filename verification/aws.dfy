/**
 * The AWS Secrets Manager provider (internal/provider/aws.go).
 *
 * The SDK is not modelled: its client is an opaque handle and the answer of
 * GetSecretValue is an input. The JSON library is a parameter (`JsonLib`):
 * decoding to an object, serialising a value, and formatting a float64 with
 * `%v` are left uninterpreted.
 */
module AwsSecretsManager {
  import opened Wrappers

  /** The identifier the provider registers under. */
  const ProviderName: string := "aws-secretsmanager"

  /** A decoded JSON value as the standard decoder produces it for `interface{}`. */
  datatype JsonValue =
    | JNull
    | JBool(b: bool)
    | JNumber(bits: bv64)          // a float64, kept as its IEEE-754 bit pattern
    | JString(s: string)
    | JArray(items: seq<JsonValue>)
    | JObject(fields: map<string, JsonValue>)

  /** The foreign JSON and formatting routines the provider calls. */
  datatype JsonLib = JsonLib(
    // json.Unmarshal into map[string]interface{}: None when it returns an error;
    // the text `null` is accepted and decodes to Some(map[])
    unmarshalObject: string -> Option<map<string, JsonValue>>,
    marshal: JsonValue -> string,                              // json.Marshal
    formatFloat: bv64 -> string)                               // fmt.Sprintf("%v", float64)

  /** An opaque stand-in for the SDK client built from the loaded configuration. */
  type ClientHandle = nat

  datatype AwsSecretsManagerProvider = AwsSecretsManagerProvider(client: ClientHandle)

  /** The provider's name does not depend on the client it holds. */
  function Name(p: AwsSecretsManagerProvider): (name: string)
    ensures name == "aws-secretsmanager"
  {
    ProviderName
  }

  /**
   * NewAWSSecretsManagerProvider: `config` is the outcome of loading the
   * default AWS configuration (a client handle or the loader's error).
   */
  function NewAwsSecretsManagerProvider(config: Result<ClientHandle, string>): (r: Result<AwsSecretsManagerProvider, string>)
    ensures r.Success? <==> config.Success?
    ensures r.Success? ==> r.value.client == config.value && Name(r.value) == "aws-secretsmanager"
  {
    match config
    case Failure(e) => Failure("failed to load AWS config: " + e)
    case Success(c) => Success(AwsSecretsManagerProvider(c))
  }

  /** The text one decoded value is stored as. */
  function Stringify(json: JsonLib, v: JsonValue): (s: string)
    ensures v.JString? ==> s == v.s
    ensures v == JBool(true) ==> s == "true"
    ensures v == JBool(false) ==> s == "false"
    ensures v.JNull? ==> s == ""
    ensures v.JNumber? ==> s == json.formatFloat(v.bits)
    ensures v.JArray? || v.JObject? ==> s == json.marshal(v)
  {
    match v
    case JString(str) => str
    case JNumber(bits) => json.formatFloat(bits)
    case JBool(b) => if b then "true" else "false"
    case JNull => ""
    case _ => json.marshal(v)
  }

  /**
   * The conversion loop of FetchSecret: every key of the decoded object is
   * kept, and its value is stringified. No key is dropped or added.
   */
  method StringifyValues(json: JsonLib, raw: map<string, JsonValue>) returns (data: map<string, string>)
    ensures data.Keys == raw.Keys
    ensures forall key :: key in raw ==> data[key] == Stringify(json, raw[key])
  {
    data := map[];
    var rest := raw.Keys;
    while rest != {}
      invariant rest <= raw.Keys
      invariant data.Keys == raw.Keys - rest
      invariant forall key :: key in data ==> data[key] == Stringify(json, raw[key])
      decreases rest
    {
      var key :| key in rest;
      data := data[key := Stringify(json, raw[key])];
      rest := rest - {key};
    }
  }

  /** The answer of GetSecretValue: SecretString may be absent (binary secrets). */
  datatype GetSecretValueOutput = GetSecretValueOutput(secretString: Option<string>)

  datatype FetchError =
    | SdkError(cause: string)            // GetSecretValue returned an error
    | NoStringValue(path: string)        // the secret holds no SecretString
    | InvalidJson                        // json.Unmarshal rejected the SecretString
  {
    /** The error text FetchSecret reports (the JSON decoder's own message is not modelled). */
    function Message(): string {
      match this
      case SdkError(cause) => "failed to fetch secret from AWS Secrets Manager: " + cause
      case NoStringValue(path) => "secret " + path + " does not contain a string value"
      case InvalidJson => "failed to parse secret JSON"
    }
  }

  /**
   * Distinct fetch errors are reported with distinct texts: the three kinds
   * differ in their fixed wording, and each text determines its cause or path.
   */
  lemma FetchMessagesDistinct(a: FetchError, b: FetchError)
    ensures a.Message() == b.Message() <==> a == b
  {
    if a.Message() == b.Message() {
      MessageHead(a);
      MessageHead(b);
      if a.SdkError? && b.SdkError? {
        PrefixCancels("failed to fetch secret from AWS Secrets Manager: ", a.cause, b.cause);
      } else if a.NoStringValue? && b.NoStringValue? {
        var suffix := " does not contain a string value";
        assert a.Message() == ("secret " + a.path) + suffix;
        assert b.Message() == ("secret " + b.path) + suffix;
        SuffixCancels("secret " + a.path, "secret " + b.path, suffix);
        PrefixCancels("secret ", a.path, b.path);
      }
    }
  }

  /** The characters that tell the three kinds of fetch error apart. */
  lemma MessageHead(e: FetchError)
    ensures |e.Message()| > 10
    ensures e.SdkError? ==> e.Message()[0] == 'f' && e.Message()[10] == 'f'
    ensures e.NoStringValue? ==> e.Message()[0] == 's'
    ensures e.InvalidJson? ==> e.Message()[0] == 'f' && e.Message()[10] == 'p'
  {
    match e
    case SdkError(cause) =>
      var prefix := "failed to fetch secret from AWS Secrets Manager: ";
      assert prefix == "failed to fetch " + "secret from AWS Secrets Manager: ";
      assert e.Message() == prefix + cause;
    case NoStringValue(path) =>
      assert e.Message() == "secret " + (path + " does not contain a string value");
    case InvalidJson =>
  }

  /** A common prefix can be dropped from both sides of an equation. */
  lemma PrefixCancels(prefix: string, x: string, y: string)
    requires prefix + x == prefix + y
    ensures x == y
  {
    assert x == (prefix + x)[|prefix|..];
    assert y == (prefix + y)[|prefix|..];
  }

  /** A common suffix can be dropped from both sides of an equation. */
  lemma SuffixCancels(x: string, y: string, suffix: string)
    requires x + suffix == y + suffix
    ensures x == y
  {
    assert x == (x + suffix)[..|x|];
    assert y == (y + suffix)[..|y|];
  }

  /**
   * FetchSecret after the SDK call: `response` is what GetSecretValue
   * returned for `path`.
   */
  method FetchSecret(json: JsonLib, path: string, response: Result<GetSecretValueOutput, string>)
    returns (r: Result<map<string, string>, FetchError>)
    ensures response.Failure? ==> r == Failure(SdkError(response.error))
    ensures response.Success? && response.value.secretString.None? ==> r == Failure(NoStringValue(path))
    ensures (response.Success? && response.value.secretString.Some?
             && json.unmarshalObject(response.value.secretString.value).None?) ==> r == Failure(InvalidJson)
    ensures r.Success? <==>
              response.Success? && response.value.secretString.Some?
              && json.unmarshalObject(response.value.secretString.value).Some?
    ensures r.Success? ==>
              var raw := json.unmarshalObject(response.value.secretString.value).value;
              && r.value.Keys == raw.Keys
              && forall key :: key in raw ==> r.value[key] == Stringify(json, raw[key])
  {
    if response.Failure? {
      return Failure(SdkError(response.error));
    }
    if response.value.secretString.None? {
      return Failure(NoStringValue(path));
    }
    var decoded := json.unmarshalObject(response.value.secretString.value);
    if decoded.None? {
      return Failure(InvalidJson);
    }
    var data := StringifyValues(json, decoded.value);
    return Success(data);
  }
}
