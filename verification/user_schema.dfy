/**
 * The authentication resolvers of the GraphQL user schema: the GitHub login
 * URL, the GitHub code exchange, local registration and local login.
 *
 * Every collaborator the resolvers call (the GitHub client, the user model,
 * the password comparison and the token signer) is a function field of
 * `Services`. A collaborator that throws returns `Failure(e)`; the resolvers
 * catch nothing, so `e` reaches the caller unchanged. Each resolver returns a
 * `Run`: its result together with the collaborator calls it made, in order.
 */
module UserSchema {
  import opened Wrappers

  /** An account as the user model returns it. */
  datatype User = User(
    id: string,
    username: Option<string>,
    emails: seq<string>,
    gitHubId: Option<string>,
    gitHubLogin: Option<string>,
    gitHubEmail: Option<string>,
    gitHubReposUrl: Option<string>,
    gitHubToken: Option<string>,
    password: Option<string>)

  /** A GitHub account profile: its JSON fields, by name. */
  type Profile = map<string, string>

  /** The payload handed to the token signer; None is a property left undefined. */
  type Claims = map<string, Option<string>>

  /** The arguments of `register` and of `login`. */
  datatype Credentials = Credentials(username: string, password: string)

  /** The process-wide configuration the resolvers read. */
  datatype Config = Config(githubCbUrl: Option<string>, githubClientId: Option<string>, jwtSecret: Option<string>)

  datatype AuthError =
    | UserInputError(message: string)   // thrown by the resolvers for bad input
    | PlainError(message: string)       // a plain `Error` thrown by the resolvers
    | Raised(message: string)           // whatever a collaborator throws

  datatype AuthResponse = AuthResponse(user: User, token: string)

  /** One call into a collaborator. */
  datatype Call =
    | RequestGithubToken(code: string)
    | RequestGithubUserAccount(accessToken: string)
    | FindOrCreateUserByGitHubUser(profile: Profile)
    | RegisterUser(input: Credentials)
    | FindUserByUsername(username: string)
    | Compare(password: string, hash: string)
    | Sign(claims: Claims, secret: Option<string>)

  /**
   * The collaborators. `requestGithubToken` answers the `access_token` field
   * of the exchange response; `requestGithubUserAccount` answers the profile
   * or `undefined`; the user model answers a user or nothing.
   */
  datatype Services = Services(
    requestGithubToken: string -> Result<Option<string>, AuthError>,
    requestGithubUserAccount: string -> Result<Option<Profile>, AuthError>,
    findOrCreateUserByGitHubUser: Profile -> Result<User, AuthError>,
    registerUser: Credentials -> Result<Option<User>, AuthError>,
    findUserByUsername: string -> Result<Option<User>, AuthError>,
    compare: (string, string) -> Result<bool, AuthError>,
    sign: (Claims, Option<string>) -> Result<string, AuthError>)

  datatype Run = Run(result: Result<AuthResponse, AuthError>, calls: seq<Call>)

  const AuthorizeEndpoint := "https://github.com/login/oauth/authorize"
  const ConfigNotSet := "GitHub cliend id or callback url not set"
  const CodeNotProvided := "GitHub code not provided"
  const InvalidCode := "Invalid or expired GitHub code"
  const CouldNotCreate := "Could not create a user with given username and password"
  const InvalidCredentials := "Invalid username or password"

  /** JavaScript truthiness of an optional string: present and non-empty. */
  predicate Truthy(s: Option<string>) {
    s.Some? && s.value != ""
  }

  /** The claims of a GitHub session: the account's GitHub id and the exchanged token. */
  function GitHubClaims(user: User, accessToken: string): (c: Claims)
    ensures c.Keys == {"gitHubId", "gitHubToken"}
    ensures c["gitHubId"] == user.gitHubId && c["gitHubToken"] == Some(accessToken)
  {
    map["gitHubId" := user.gitHubId, "gitHubToken" := Some(accessToken)]
  }

  /** The claims of a local session: the account's id and username. */
  function LocalClaims(user: User): (c: Claims)
    ensures c.Keys == {"id", "username"}
    ensures c["id"] == Some(user.id) && c["username"] == user.username
  {
    map["id" := Some(user.id), "username" := user.username]
  }

  /** The fetched profile (an absent one spreads as `{}`) with `access_token` set. */
  function WithAccessToken(account: Option<Profile>, accessToken: string): (p: Profile)
    ensures "access_token" in p && p["access_token"] == accessToken
    ensures forall k | k != "access_token" ::
      (k in p <==> account.Some? && k in account.value) &&
      (k in p ==> p[k] == account.value[k])
  {
    account.GetOr(map[])["access_token" := accessToken]
  }

  // ------------------------------------------------ the shape of every flow

  datatype CallKind = TokenExchange | ProfileFetch | UserUpsert | UserCreate | UserLookup | PasswordCheck | Signing

  function KindOf(c: Call): CallKind {
    match c
    case RequestGithubToken(_) => TokenExchange
    case RequestGithubUserAccount(_) => ProfileFetch
    case FindOrCreateUserByGitHubUser(_) => UserUpsert
    case RegisterUser(_) => UserCreate
    case FindUserByUsername(_) => UserLookup
    case Compare(_, _) => PasswordCheck
    case Sign(_, _) => Signing
  }

  /** The collaborator calls each flow makes when nothing fails, in order. */
  const GithubPlan := [TokenExchange, ProfileFetch, UserUpsert, Signing]
  const RegisterPlan := [UserCreate, Signing]
  const LoginPlan := [UserLookup, PasswordCheck, Signing]

  /** The calls made are a prefix of the plan. */
  predicate FollowsPlan(calls: seq<Call>, plan: seq<CallKind>) {
    |calls| <= |plan| && forall i | 0 <= i < |calls| :: KindOf(calls[i]) == plan[i]
  }

  /** Whether the collaborator's answer to `c` lets a flow go on to its next step. */
  predicate Proceeds(svc: Services, c: Call) {
    match c
    case RequestGithubToken(code) =>
      svc.requestGithubToken(code).Success? && Truthy(svc.requestGithubToken(code).value)
    case RequestGithubUserAccount(accessToken) => svc.requestGithubUserAccount(accessToken).Success?
    case FindOrCreateUserByGitHubUser(profile) => svc.findOrCreateUserByGitHubUser(profile).Success?
    case RegisterUser(input) => svc.registerUser(input).Success? && svc.registerUser(input).value.Some?
    case FindUserByUsername(username) =>
      svc.findUserByUsername(username).Success? && svc.findUserByUsername(username).value.Some?
    case Compare(password, hash) => svc.compare(password, hash) == Success(true)
    case Sign(claims, secret) => svc.sign(claims, secret).Success?
  }

  /** The error a flow fails with when the collaborator's answer to `c` stops it. */
  function Refusal(svc: Services, c: Call): AuthError
    requires !Proceeds(svc, c)
  {
    match c
    case RequestGithubToken(code) =>
      if svc.requestGithubToken(code).Failure? then svc.requestGithubToken(code).error
      else UserInputError(InvalidCode)
    case RequestGithubUserAccount(accessToken) => svc.requestGithubUserAccount(accessToken).error
    case FindOrCreateUserByGitHubUser(profile) => svc.findOrCreateUserByGitHubUser(profile).error
    case RegisterUser(input) =>
      if svc.registerUser(input).Failure? then svc.registerUser(input).error
      else UserInputError(CouldNotCreate)
    case FindUserByUsername(username) =>
      if svc.findUserByUsername(username).Failure? then svc.findUserByUsername(username).error
      else UserInputError(InvalidCredentials)
    case Compare(password, hash) =>
      if svc.compare(password, hash).Failure? then svc.compare(password, hash).error
      else UserInputError(InvalidCredentials)
    case Sign(claims, secret) => svc.sign(claims, secret).error
  }

  /**
   * A flow that exits on the first failure: every call but the last went
   * through; a response comes back exactly when the last call is a signing
   * that went through, and carries the signed token; otherwise the flow fails
   * with the error its last call was refused with.
   */
  predicate EarlyExit(svc: Services, run: Run) {
    && (forall i | 0 <= i < |run.calls| - 1 :: Proceeds(svc, run.calls[i]))
    && (run.result.Success? <==>
          |run.calls| > 0 && run.calls[|run.calls| - 1].Sign? && Proceeds(svc, run.calls[|run.calls| - 1]))
    && (run.result.Success? ==>
          var last := run.calls[|run.calls| - 1];
          run.result.value.token == svc.sign(last.claims, last.secret).value)
    && (run.result.Failure? && |run.calls| > 0 ==>
          !Proceeds(svc, run.calls[|run.calls| - 1])
          && run.result.error == Refusal(svc, run.calls[|run.calls| - 1]))
  }

  /** The GitHub access token a code is exchanged for, when the exchange yields one. */
  function ExchangedToken(svc: Services, code: Option<string>): (t: Option<string>)
    ensures t.Some? <==> Truthy(code) && Proceeds(svc, RequestGithubToken(code.value))
    ensures t.Some? ==> t.value != "" && svc.requestGithubToken(code.value) == Success(t)
  {
    if Truthy(code) && svc.requestGithubToken(code.value).Success? && Truthy(svc.requestGithubToken(code.value).value)
    then svc.requestGithubToken(code.value).value
    else None
  }

  // ------------------------------------------------------------- resolvers

  /** The GitHub authorization URL built from the callback URL and the client id. */
  function GithubLoginUrl(cfg: Config): (r: Result<string, AuthError>)
    ensures r.Failure? <==> !Truthy(cfg.githubCbUrl) || !Truthy(cfg.githubClientId)
    ensures r.Failure? ==> r.error == PlainError(ConfigNotSet)
    ensures r.Success? ==>
              r.value == AuthorizeEndpoint + "?response_type=code&redirect_uri=" + cfg.githubCbUrl.value
                         + "&client_id=" + cfg.githubClientId.value
  {
    var cbUrl := cfg.githubCbUrl.GetOr("");
    var clientId := cfg.githubClientId.GetOr("");
    if cbUrl == "" || clientId == "" then Failure(PlainError(ConfigNotSet))
    else Success(AuthorizeEndpoint + "?response_type=code&redirect_uri=" + cbUrl + "&client_id=" + clientId)
  }

  /** Log in with a GitHub authorization code. */
  function AuthorizeWithGithub(code: Option<string>, cfg: Config, svc: Services): (run: Run)
    // without a code nothing is called
    ensures !Truthy(code) <==> run.calls == []
    ensures !Truthy(code) ==> run.result == Failure(UserInputError(CodeNotProvided))
    ensures Truthy(code) ==> run.calls[0] == RequestGithubToken(code.value)
    // an exchange without a usable token fails before the profile fetch
    ensures Truthy(code) && svc.requestGithubToken(code.value).Success?
              && !Truthy(svc.requestGithubToken(code.value).value) ==>
              run == Run(Failure(UserInputError(InvalidCode)), [RequestGithubToken(code.value)])
    // the profile is fetched only with a token the exchange produced
    ensures |run.calls| >= 2 ==>
              ExchangedToken(svc, code).Some?
              && run.calls[1] == RequestGithubUserAccount(ExchangedToken(svc, code).value)
    // the profile handed to the user model carries that token
    ensures |run.calls| >= 3 ==>
              run.calls[2].FindOrCreateUserByGitHubUser?
              && "access_token" in run.calls[2].profile
              && Some(run.calls[2].profile["access_token"]) == ExchangedToken(svc, code)
    // and is otherwise the fetched profile
    ensures |run.calls| >= 3 ==>
              svc.requestGithubUserAccount(run.calls[1].accessToken).Success?
              && run.calls[2] == FindOrCreateUserByGitHubUser(
                   WithAccessToken(svc.requestGithubUserAccount(run.calls[1].accessToken).value,
                                   run.calls[1].accessToken))
    // the session signs exactly the user's GitHub id and the exchanged token
    ensures |run.calls| == 4 ==>
              run.calls[2].FindOrCreateUserByGitHubUser?
              && svc.findOrCreateUserByGitHubUser(run.calls[2].profile).Success?
              && run.calls[3] == Sign(GitHubClaims(svc.findOrCreateUserByGitHubUser(run.calls[2].profile).value,
                                                   run.calls[1].accessToken),
                                      cfg.jwtSecret)
    ensures run.result.Success? ==>
              |run.calls| == 4 && run.calls[2].FindOrCreateUserByGitHubUser?
              && svc.findOrCreateUserByGitHubUser(run.calls[2].profile) == Success(run.result.value.user)
  {
    if !Truthy(code) then Run(Failure(UserInputError(CodeNotProvided)), [])
    else
      var calls0 := [RequestGithubToken(code.value)];
      match svc.requestGithubToken(code.value)
      case Failure(e) => Run(Failure(e), calls0)
      case Success(accessToken) =>
        if !Truthy(accessToken) then Run(Failure(UserInputError(InvalidCode)), calls0)
        else
          var token := accessToken.value;
          var calls1 := calls0 + [RequestGithubUserAccount(token)];
          match svc.requestGithubUserAccount(token)
          case Failure(e) => Run(Failure(e), calls1)
          case Success(account) =>
            var gitHubUser := WithAccessToken(account, token);
            var calls2 := calls1 + [FindOrCreateUserByGitHubUser(gitHubUser)];
            match svc.findOrCreateUserByGitHubUser(gitHubUser)
            case Failure(e) => Run(Failure(e), calls2)
            case Success(user) =>
              var claims := GitHubClaims(user, token);
              var calls3 := calls2 + [Sign(claims, cfg.jwtSecret)];
              match svc.sign(claims, cfg.jwtSecret)
              case Failure(e) => Run(Failure(e), calls3)
              case Success(jwt) => Run(Success(AuthResponse(user, jwt)), calls3)
  }

  /** Register a local account. */
  function Register(args: Credentials, cfg: Config, svc: Services): (run: Run)
    ensures |run.calls| >= 1 && run.calls[0] == RegisterUser(args)
    // no user created: the generic input error, and nothing is signed
    ensures svc.registerUser(args) == Success(None) ==>
              run == Run(Failure(UserInputError(CouldNotCreate)), [RegisterUser(args)])
    // the session signs exactly the created user's id and username
    ensures |run.calls| == 2 ==>
              svc.registerUser(args).Success? && svc.registerUser(args).value.Some?
              && run.calls[1] == Sign(LocalClaims(svc.registerUser(args).value.value), cfg.jwtSecret)
    ensures run.result.Success? ==> |run.calls| == 2 && svc.registerUser(args) == Success(Some(run.result.value.user))
  {
    var calls0 := [RegisterUser(args)];
    match svc.registerUser(args)
    case Failure(e) => Run(Failure(e), calls0)
    case Success(created) =>
      if created.None? then Run(Failure(UserInputError(CouldNotCreate)), calls0)
      else
        var user := created.value;
        var claims := LocalClaims(user);
        var calls1 := calls0 + [Sign(claims, cfg.jwtSecret)];
        match svc.sign(claims, cfg.jwtSecret)
        case Failure(e) => Run(Failure(e), calls1)
        case Success(jwt) => Run(Success(AuthResponse(user, jwt)), calls1)
  }

  /** Log in to a local account. */
  function Login(args: Credentials, cfg: Config, svc: Services): (run: Run)
    ensures |run.calls| >= 1 && run.calls[0] == FindUserByUsername(args.username)
    // an unknown username: the credentials error, and no comparison is made
    ensures svc.findUserByUsername(args.username) == Success(None) ==>
              run == Run(Failure(UserInputError(InvalidCredentials)), [FindUserByUsername(args.username)])
    // a rejected password: the same credentials error, and nothing is signed
    ensures |run.calls| >= 2 && run.calls[1].Compare?
              && svc.compare(run.calls[1].password, run.calls[1].hash) == Success(false) ==>
              run.result == Failure(UserInputError(InvalidCredentials)) && |run.calls| == 2
    // the password is compared with the stored hash, or with "" when there is none
    ensures |run.calls| >= 2 ==>
              svc.findUserByUsername(args.username).Success? && svc.findUserByUsername(args.username).value.Some?
              && run.calls[1] == Compare(args.password, svc.findUserByUsername(args.username).value.value.password.GetOr(""))
    // the session signs exactly the user's id and username
    ensures |run.calls| == 3 ==>
              svc.findUserByUsername(args.username).Success? && svc.findUserByUsername(args.username).value.Some?
              && run.calls[2] == Sign(LocalClaims(svc.findUserByUsername(args.username).value.value), cfg.jwtSecret)
    ensures run.result.Success? ==>
              |run.calls| == 3 && svc.findUserByUsername(args.username) == Success(Some(run.result.value.user))
  {
    var calls0 := [FindUserByUsername(args.username)];
    match svc.findUserByUsername(args.username)
    case Failure(e) => Run(Failure(e), calls0)
    case Success(found) =>
      if found.None? then Run(Failure(UserInputError(InvalidCredentials)), calls0)
      else
        var user := found.value;
        var hash := user.password.GetOr("");
        var calls1 := calls0 + [Compare(args.password, hash)];
        match svc.compare(args.password, hash)
        case Failure(e) => Run(Failure(e), calls1)
        case Success(passwordMatch) =>
          if !passwordMatch then Run(Failure(UserInputError(InvalidCredentials)), calls1)
          else
            var claims := LocalClaims(user);
            var calls2 := calls1 + [Sign(claims, cfg.jwtSecret)];
            match svc.sign(claims, cfg.jwtSecret)
            case Failure(e) => Run(Failure(e), calls2)
            case Success(jwt) => Run(Success(AuthResponse(user, jwt)), calls2)
  }

  /** The per-request context the transport layer builds. */
  datatype AppContext = AppContext(currentUser: Option<User>)

  /** The `me` query: the user the transport layer attached to the request, if any. */
  function Me(context: AppContext): (u: Option<User>)
    ensures u == context.currentUser
  {
    context.currentUser
  }

  /** The `logout` mutation: a constant acknowledgement; no session state is touched. */
  function Logout(): (r: string)
    ensures r == "logout"
  {
    "logout"
  }
}
