/** Client construction (cashramp.go): the environment tag selects one of two
    fixed GraphQL endpoints, the secret key is taken from the argument or the
    process environment. The two `os.Getenv` lookups are parameters:
    `cashrampEnv` is the value of CASHRAMP_ENV and `cashrampSecretKey` that of
    CASHRAMP_SECRET_KEY ("" when the variable is unset). */
module Config {
  import opened GoValues

  const Host := "api.useaccrue.com"
  const ApiPath := "/cashramp/api/graphql"
  /** The endpoints, as the source formats them around `Host`. */
  const StagingUrl := "https://staging." + Host + ApiPath
  const LiveUrl := "https://" + Host + ApiPath
  const MissingSecretMessage := "please provide your API secret key"

  /** The client's configuration. `apiUrl` is exported in the source and may be
      reassigned by callers (`c.(apiUrl := u)`); the HTTP transport handle is
      the `exchange` parameter of Transport.SendRequest. */
  datatype Client = Client(apiUrl: string, secretKey: string)

  /** The tag validateEnv switches on: the argument, or CASHRAMP_ENV when the
      argument is empty. */
  function SelectedEnvironment(env: string, cashrampEnv: string): string {
    if env == "" then cashrampEnv else env
  }

  /** The error text for a tag that is neither "test" nor "live". */
  function InvalidEnvMessage(environment: string): string {
    environment + " is not a valid env. Can either be \"test\" or \"live\""
  }

  /** validateEnv: the endpoint URL for the selected tag, or an empty URL and
      an error naming the tag. */
  function ValidateEnv(env: string, cashrampEnv: string): (r: Call<string>)
    ensures r.Returned?
    ensures var environment := SelectedEnvironment(env, cashrampEnv);
      && (r.err.None? <==> environment == "test" || environment == "live")
      && (environment == "test" ==> r.value == StagingUrl)
      && (environment == "live" ==> r.value == LiveUrl)
      && (r.err.Some? ==> r.value == "" && r.err.value.message == InvalidEnvMessage(environment))
  {
    var environment := SelectedEnvironment(env, cashrampEnv);
    if environment == "test" then Returned(StagingUrl, None)
    else if environment == "live" then Returned(LiveUrl, None)
    else Returned("", Some(Error(InvalidEnvMessage(environment))))
  }

  /** validateSecretKey: a non-empty argument wins, else CASHRAMP_SECRET_KEY,
      else an error. Any accepted secret is non-empty; its format is not checked. */
  function ValidateSecretKey(secretKey: string, cashrampSecretKey: string): (r: Call<string>)
    ensures r.Returned?
    ensures secretKey != "" ==> r == Returned(secretKey, None)
    ensures secretKey == "" && cashrampSecretKey != "" ==> r == Returned(cashrampSecretKey, None)
    ensures secretKey == "" && cashrampSecretKey == "" ==>
      r == Returned("", Some(Error("please provide your API secret key")))
    ensures r.err.None? <==> r.value != ""
  {
    if secretKey == "" then
      if cashrampSecretKey == "" then Returned("", Some(Error(MissingSecretMessage)))
      else Returned(cashrampSecretKey, None)
    else Returned(secretKey, None)
  }

  /** InitialiseClient: the environment is validated before the secret, so its
      error wins; a client is returned exactly when there is no error, and it
      holds the resolved URL and secret. */
  function InitialiseClient(environment: string, secretKey: string,
                            cashrampEnv: string, cashrampSecretKey: string): (r: Call<Option<Client>>)
    ensures r.Returned?
    ensures r.value.Some? <==> r.err.None?
    ensures var url := ValidateEnv(environment, cashrampEnv);
            var secret := ValidateSecretKey(secretKey, cashrampSecretKey);
      && (url.err.Some? ==> r.err == url.err)
      && (url.err.None? && secret.err.Some? ==> r.err == secret.err)
      && (r.value.Some? ==> r.value.value == Client(url.value, secret.value))
      && (url.err.None? && secret.err.None? ==> r.value.Some?)
    ensures r.value.Some? ==>
      && (r.value.value.apiUrl == StagingUrl || r.value.value.apiUrl == LiveUrl)
      && r.value.value.secretKey != ""
  {
    var url := ValidateEnv(environment, cashrampEnv);
    if url.err.Some? then Returned(None, url.err)
    else
      var secret := ValidateSecretKey(secretKey, cashrampSecretKey);
      if secret.err.Some? then Returned(None, secret.err)
      else Returned(Some(Client(url.value, secret.value)), None)
  }

  /** An unrecognised tag is rejected with an error whose text names it. */
  lemma {:induction false} InvalidEnvironmentIsNamed(env: string, secretKey: string,
                                                     cashrampEnv: string, cashrampSecretKey: string)
    requires SelectedEnvironment(env, cashrampEnv) != "test"
    requires SelectedEnvironment(env, cashrampEnv) != "live"
    ensures var r := InitialiseClient(env, secretKey, cashrampEnv, cashrampSecretKey);
      r.value.None? && r.err.Some? && Contains(r.err.value.message, SelectedEnvironment(env, cashrampEnv))
  {
    var environment := SelectedEnvironment(env, cashrampEnv);
    var message := InvalidEnvMessage(environment);
    assert environment <= message[0..];
  }

  /** Every client that construction yields talks to the API host, on the
      staging subdomain exactly when the selected tag is "test". */
  lemma {:induction false} ClientUrlNamesHost(environment: string, secretKey: string,
                                              cashrampEnv: string, cashrampSecretKey: string)
    requires InitialiseClient(environment, secretKey, cashrampEnv, cashrampSecretKey).value.Some?
    ensures var c := InitialiseClient(environment, secretKey, cashrampEnv, cashrampSecretKey).value.value;
      && Contains(c.apiUrl, Host)
      && (c.apiUrl == StagingUrl <==> SelectedEnvironment(environment, cashrampEnv) == "test")
  {
    var c := InitialiseClient(environment, secretKey, cashrampEnv, cashrampSecretKey).value.value;
    if c.apiUrl == StagingUrl {
      assert Host <= c.apiUrl[16..];
    } else {
      assert Host <= c.apiUrl[8..];
    }
  }
}
