/**
 * The `settings` module: static configuration read once at start-up, plus the
 * two token fields that the OAuth grant writes at run time.
 */
module Settings {

  /** One entry of `webex_spaces`: a space title and the addresses its messages go to. */
  datatype Space = Space(name: string, recipients: seq<string>)

  /**
   * The static part of `settings`. `spaces` keeps the insertion order of the
   * `webex_spaces` dictionary.
   */
  datatype Config = Config(
    clientId: string,
    secretId: string,
    redirectUri: string,
    webhookUri: string,
    secret: string,
    spaces: seq<Space>,
    emailUsername: string)
  {
    /** Dictionary keys are distinct. */
    predicate DistinctSpaces()
    {
      forall i, j :: 0 <= i < j < |spaces| ==> spaces[i].name != spaces[j].name
    }
  }

  /** The live `settings` module object. */
  class Store {
    const config: Config
    var oauthToken: string
    var refreshToken: string

    /** Both token fields start out empty. */
    constructor (config: Config)
      ensures this.config == config && oauthToken == "" && refreshToken == ""
    {
      this.config := config;
      oauthToken := "";
      refreshToken := "";
    }
  }
}
