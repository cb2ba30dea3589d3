/** The `TTVConfig` dataclass: the credentials used to obtain an API token. */
module Configuration {
  import opened Results

  datatype Config = Config(clientId: string, clientSecret: string)
  {
    /** Both credentials are present. */
    predicate Valid() {
      clientId != "" && clientSecret != ""
    }
  }

  /** The assertion in `__post_init__` that failed first. */
  datatype ConfigError = MissingClientId | MissingClientSecret

  /** Python truthiness of an optional string: `None` and `""` are false. */
  predicate Truthy(s: Option<string>) {
    s.Some? && s.value != ""
  }

  /** Construction of a `TTVConfig` from the values argparse hands over, which are
      `None` when neither a flag nor the environment variable supplies them. The
      client id is asserted first, so a missing id is reported even when the
      secret is missing too. */
  function MakeConfig(clientId: Option<string>, clientSecret: Option<string>): (r: Result<Config, ConfigError>)
    ensures r.Success? <==> Truthy(clientId) && Truthy(clientSecret)
    ensures r.Success? ==> r.value.Valid()
    ensures r.Success? ==> clientId == Some(r.value.clientId) && clientSecret == Some(r.value.clientSecret)
    ensures r == Failure(MissingClientId) <==> !Truthy(clientId)
    ensures r == Failure(MissingClientSecret) <==> Truthy(clientId) && !Truthy(clientSecret)
  {
    if !Truthy(clientId) then Failure(MissingClientId)
    else if !Truthy(clientSecret) then Failure(MissingClientSecret)
    else Success(Config(clientId.value, clientSecret.value))
  }

  /** Every configuration with both credentials can be built, and building
      returns exactly it: validity and successful construction coincide. */
  lemma ValidConfigsAreExactlyTheConstructible(c: Config)
    ensures c.Valid() <==> MakeConfig(Some(c.clientId), Some(c.clientSecret)) == Success(c)
  {
  }
}
