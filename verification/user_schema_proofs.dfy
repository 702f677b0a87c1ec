/** Properties relating the resolvers to each other and to their partners. */
module UserSchemaProofs {
  import opened Wrappers
  import opened QueryString
  import opened UserSchema

  // ------------------------------------------------------------ login URL

  /** A parameter `k=v` whose key has no `=` and which holds no `&`. */
  predicate PlainParam(k: string, v: string) {
    '=' !in k && '&' !in k && '&' !in v
  }

  /** The query of `base?query` when `base` has no `?`. */
  lemma QueryAfterBase(base: string, query: string, key: string)
    requires '?' !in base
    ensures QueryParam(base + "?" + query, key) == Lookup(Split(query, '&'), key)
  {
    SplitFirstAfter(base, '?', query);
  }

  /** Looking a key up in a list led by a plain parameter. */
  lemma LookupPast(k: string, v: string, rest: seq<string>, key: string)
    requires '=' !in k
    ensures Lookup([k + "=" + v] + rest, key) == if k == key then Some(v) else Lookup(rest, key)
  {
    SplitFirstAfter(k, '=', v);
    assert ([k + "=" + v] + rest)[1..] == rest;
  }

  /** A single piece without `&` splits into itself. */
  lemma SplitSingle(p: string)
    requires '&' !in p
    ensures Split(p, '&') == [p]
  {
  }

  /** Three parameters after a `?`-free base: each is found under its own key. */
  lemma ThreeParams(base: string, k1: string, v1: string, k2: string, v2: string, k3: string, v3: string)
    requires '?' !in base
    requires PlainParam(k1, v1) && PlainParam(k2, v2) && PlainParam(k3, v3)
    requires k1 != k2 && k1 != k3 && k2 != k3
    ensures var url := base + "?" + (k1 + "=" + v1 + "&" + (k2 + "=" + v2 + "&" + (k3 + "=" + v3)));
            QueryParam(url, k1) == Some(v1) && QueryParam(url, k2) == Some(v2) && QueryParam(url, k3) == Some(v3)
  {
    var p1, p2, p3 := k1 + "=" + v1, k2 + "=" + v2, k3 + "=" + v3;
    var tail := p2 + "&" + p3;
    SplitSingle(p3);
    SplitAfter(p2, '&', p3);
    SplitAfter(p1, '&', tail);
    var params := Split(p1 + "&" + tail, '&');
    assert params == [p1] + ([p2] + [p3]);
    forall key | key in {k1, k2, k3}
      ensures QueryParam(base + "?" + (p1 + "&" + tail), key) == Lookup(params, key)
    {
      QueryAfterBase(base, p1 + "&" + tail, key);
    }
    LookupPast(k1, v1, [p2] + [p3], k1);
    LookupPast(k1, v1, [p2] + [p3], k2);
    LookupPast(k2, v2, [p3], k2);
    LookupPast(k1, v1, [p2] + [p3], k3);
    LookupPast(k2, v2, [p3], k3);
    LookupPast(k3, v3, [], k3);
    assert [p3] == [p3] + [];
  }

  /**
   * Four parameters after a `?`-free base, the last two with the same key:
   * the first two are read back as given, and of the repeated key the first
   * occurrence wins.
   */
  lemma FirstOfRepeatedKey(base: string, k1: string, v1: string, k2: string, v2: string,
                           k3: string, v3: string, v4: string)
    requires '?' !in base
    requires PlainParam(k1, v1) && PlainParam(k2, v2) && PlainParam(k3, v3) && PlainParam(k3, v4)
    requires k1 != k2 && k1 != k3 && k2 != k3
    ensures var url := base + "?" + (k1 + "=" + v1 + "&" + (k2 + "=" + v2 + "&" + (k3 + "=" + v3 + "&" + (k3 + "=" + v4))));
            QueryParam(url, k2) == Some(v2) && QueryParam(url, k3) == Some(v3)
  {
    var p1, p2, p3, p4 := k1 + "=" + v1, k2 + "=" + v2, k3 + "=" + v3, k3 + "=" + v4;
    var tail2 := p3 + "&" + p4;
    var tail1 := p2 + "&" + tail2;
    SplitAfter(p3, '&', p4);
    SplitAfter(p2, '&', tail2);
    SplitAfter(p1, '&', tail1);
    var rest := Split(p4, '&');
    assert Split(p1 + "&" + tail1, '&') == [p1] + ([p2] + ([p3] + rest));
    QueryAfterBase(base, p1 + "&" + tail1, k2);
    QueryAfterBase(base, p1 + "&" + tail1, k3);
    LookupPast(k1, v1, [p2] + ([p3] + rest), k2);
    LookupPast(k2, v2, [p3] + rest, k2);
    LookupPast(k1, v1, [p2] + ([p3] + rest), k3);
    LookupPast(k2, v2, [p3] + rest, k3);
    LookupPast(k3, v3, rest, k3);
  }

  /** The fixed pieces of the login URL hold none of the separators. */
  lemma LoginUrlPiecesArePlain()
    ensures '?' !in AuthorizeEndpoint
    ensures PlainParam("response_type", "code")
    ensures '=' !in "redirect_uri" && '&' !in "redirect_uri"
    ensures '=' !in "client_id" && '&' !in "client_id"
  {
  }

  // The literal middle parts of the login URL, split at their separators
  // one split at a time; LoginUrlLiterals chains the splits.
  lemma Literal1() ensures "?response_type=code&redirect_uri=" == "?response_type" + "=code&redirect_uri=" {}
  lemma Literal2() ensures "?response_type" == "?" + "response_type" {}
  lemma Literal3() ensures "=code&redirect_uri=" == "=code" + "&redirect_uri=" {}
  lemma Literal4() ensures "=code" == "=" + "code" {}
  lemma Literal5() ensures "&redirect_uri=" == "&" + "redirect_uri=" {}
  lemma Literal6() ensures "redirect_uri=" == "redirect_uri" + "=" {}
  lemma Literal7() ensures "&client_id=" == "&" + "client_id" + "=" {}

  /** Chaining the splits above, over arbitrary pieces. */
  lemma ChainSplits(h: string, h1: string, h2: string, q: string, rt: string, h3: string, h4: string,
                    eq: string, code: string, amp: string, h6: string, ru: string)
    requires h == h1 + h2 && h1 == q + rt && h2 == h3 + h4 && h3 == eq + code
    requires h4 == amp + h6 && h6 == ru + eq
    ensures h == q + rt + eq + code + amp + ru + eq
  {
  }

  /** The literal middle parts of the login URL, split at their separators. */
  lemma LoginUrlLiterals()
    ensures "?response_type=code&redirect_uri=" == "?" + "response_type" + "=" + "code" + "&" + "redirect_uri" + "="
    ensures "&client_id=" == "&" + "client_id" + "="
  {
    Literal1(); Literal2(); Literal3(); Literal4(); Literal5(); Literal6(); Literal7();
    ChainSplits("?response_type=code&redirect_uri=", "?response_type", "=code&redirect_uri=", "?", "response_type",
                "=code", "&redirect_uri=", "=", "code", "&", "redirect_uri=", "redirect_uri");
  }

  /** Regrouping the login URL's concatenation, over arbitrary pieces. */
  lemma Regroup(e: string, q: string, rt: string, eq: string, code: string, amp: string, ru: string,
                cb: string, cid: string, id: string)
    ensures e + (q + rt + eq + code + amp + ru + eq) + cb + (amp + cid + eq) + id
         == e + q + (rt + eq + code + amp + (ru + eq + cb + amp + (cid + eq + id)))
  {
  }

  /** The login URL, spelled as a base followed by `key=value` parameters. */
  lemma LoginUrlPieces(cb: string, id: string)
    ensures AuthorizeEndpoint + "?response_type=code&redirect_uri=" + cb + "&client_id=" + id
         == AuthorizeEndpoint + "?" + ("response_type" + "=" + "code" + "&"
              + ("redirect_uri" + "=" + cb + "&" + ("client_id" + "=" + id)))
  {
    LoginUrlLiterals();
    Regroup(AuthorizeEndpoint, "?", "response_type", "=", "code", "&", "redirect_uri", cb, "client_id", id);
  }

  /** The same for a callback URL that itself ends in a `client_id` parameter. */
  lemma ShadowedUrlPieces(base: string, other: string, id: string)
    ensures AuthorizeEndpoint + "?response_type=code&redirect_uri=" + (base + "&client_id=" + other) + "&client_id=" + id
         == AuthorizeEndpoint + "?" + ("response_type" + "=" + "code" + "&"
              + ("redirect_uri" + "=" + base + "&"
              + ("client_id" + "=" + other + "&" + ("client_id" + "=" + id))))
  {
    var cb := base + "&client_id=" + other;
    LoginUrlPieces(cb, id);
    assert "&client_id=" == "&" + "client_id" + "=";
    var last := "client_id" + "=" + id;
    assert cb == base + "&" + ("client_id" + "=" + other);
    assert "redirect_uri" + "=" + cb + "&" + last
        == "redirect_uri" + "=" + base + "&" + ("client_id" + "=" + other + "&" + last);
  }

  /**
   * A configuration value that an endpoint reads back verbatim from the
   * unencoded URL: no parameter separator, no fragment mark, and nothing
   * the endpoint's percent- and `+`-decoding would change.
   */
  predicate ReadsBackVerbatim(s: string) {
    '&' !in s && '#' !in s && '%' !in s && '+' !in s
  }

  /**
   * Read back by an authorization endpoint, the login URL asks for a code
   * and names exactly the configured callback URL and client id, provided
   * each is read back verbatim.
   */
  lemma LoginUrlCarriesConfig(cfg: Config)
    requires GithubLoginUrl(cfg).Success?
    requires ReadsBackVerbatim(cfg.githubCbUrl.value) && ReadsBackVerbatim(cfg.githubClientId.value)
    ensures QueryParam(GithubLoginUrl(cfg).value, "response_type") == Some("code")
    ensures QueryParam(GithubLoginUrl(cfg).value, "redirect_uri") == cfg.githubCbUrl
    ensures QueryParam(GithubLoginUrl(cfg).value, "client_id") == cfg.githubClientId
  {
    var cb, id := cfg.githubCbUrl.value, cfg.githubClientId.value;
    LoginUrlPiecesArePlain();
    LoginUrlPieces(cb, id);
    ThreeParams(AuthorizeEndpoint, "response_type", "code", "redirect_uri", cb, "client_id", id);
  }

  /**
   * The URL is not encoded: a callback URL whose own query holds a
   * `client_id` parameter is cut at its `&`, so the endpoint receives only
   * the part before it as `redirect_uri`; and where the first occurrence of
   * a repeated key wins, the URL names the callback's client instead.
   */
  lemma CallbackCanShadowClientId(cfg: Config, base: string, other: string)
    requires cfg.githubCbUrl == Some(base + "&client_id=" + other)
    requires Truthy(cfg.githubClientId)
    requires ReadsBackVerbatim(base) && ReadsBackVerbatim(other) && ReadsBackVerbatim(cfg.githubClientId.value)
    ensures GithubLoginUrl(cfg).Success?
    ensures QueryParam(GithubLoginUrl(cfg).value, "redirect_uri") == Some(base)
    ensures QueryParam(GithubLoginUrl(cfg).value, "client_id") == Some(other)
  {
    var id := cfg.githubClientId.value;
    LoginUrlPiecesArePlain();
    ShadowedUrlPieces(base, other, id);
    FirstOfRepeatedKey(AuthorizeEndpoint, "response_type", "code", "redirect_uri", base, "client_id", other, id);
  }

  // ---------------------------------------------------------- early exits

  /**
   * In a flow that exits early and follows a plan ending in its only
   * signing step, a response comes back exactly when every planned call was
   * made and went through.
   */
  lemma {:induction false} SuccessIffPlanCompletes(svc: Services, run: Run, plan: seq<CallKind>)
    requires EarlyExit(svc, run) && FollowsPlan(run.calls, plan)
    requires |plan| > 0 && plan[|plan| - 1] == Signing
    requires forall i | 0 <= i < |plan| - 1 :: plan[i] != Signing
    ensures run.result.Success? <==>
              |run.calls| == |plan| && forall i | 0 <= i < |run.calls| :: Proceeds(svc, run.calls[i])
  {
    var n := |run.calls|;
    if run.result.Success? {
      assert KindOf(run.calls[n - 1]) == Signing;
    }
  }

  /** The GitHub login makes its calls in plan order and stops at the first refusal. */
  lemma GithubExitsEarly(code: Option<string>, cfg: Config, svc: Services)
    ensures EarlyExit(svc, AuthorizeWithGithub(code, cfg, svc))
    ensures FollowsPlan(AuthorizeWithGithub(code, cfg, svc).calls, GithubPlan)
  {
    var run := AuthorizeWithGithub(code, cfg, svc);
    if |run.calls| == 4 {
      assert run.calls[3].Sign?;
    }
  }

  /** Registration makes its calls in plan order and stops at the first refusal. */
  lemma RegisterExitsEarly(args: Credentials, cfg: Config, svc: Services)
    ensures EarlyExit(svc, Register(args, cfg, svc))
    ensures FollowsPlan(Register(args, cfg, svc).calls, RegisterPlan)
  {
  }

  /** Local login makes its calls in plan order and stops at the first refusal. */
  lemma LoginExitsEarly(args: Credentials, cfg: Config, svc: Services)
    ensures EarlyExit(svc, Login(args, cfg, svc))
    ensures FollowsPlan(Login(args, cfg, svc).calls, LoginPlan)
  {
  }

  /** A GitHub login succeeds exactly when the exchange, the profile fetch, the user model and the signer all go through. */
  lemma GithubSuccessIffAllStepsProceed(code: Option<string>, cfg: Config, svc: Services)
    ensures var run := AuthorizeWithGithub(code, cfg, svc);
            run.result.Success? <==> |run.calls| == 4 && forall i | 0 <= i < 4 :: Proceeds(svc, run.calls[i])
  {
    GithubExitsEarly(code, cfg, svc);
    SuccessIffPlanCompletes(svc, AuthorizeWithGithub(code, cfg, svc), GithubPlan);
  }

  /** When the exchange yields no usable token, what the later collaborators would answer makes no difference. */
  lemma FailedExchangeIgnoresLaterSteps(code: Option<string>, cfg: Config, svc: Services, svc': Services)
    requires Truthy(code) && !Proceeds(svc, RequestGithubToken(code.value))
    requires svc'.requestGithubToken(code.value) == svc.requestGithubToken(code.value)
    ensures AuthorizeWithGithub(code, cfg, svc) == AuthorizeWithGithub(code, cfg, svc')
    ensures AuthorizeWithGithub(code, cfg, svc).calls == [RequestGithubToken(code.value)]
  {
  }

  /** A local login succeeds exactly when the user is found, the password matches and the signer goes through. */
  lemma LoginSuccessIffAllStepsProceed(args: Credentials, cfg: Config, svc: Services)
    ensures var run := Login(args, cfg, svc);
            run.result.Success? <==> |run.calls| == 3 && forall i | 0 <= i < 3 :: Proceeds(svc, run.calls[i])
  {
    LoginExitsEarly(args, cfg, svc);
    SuccessIffPlanCompletes(svc, Login(args, cfg, svc), LoginPlan);
  }

  // ----------------------------------------------------------- local flows

  /**
   * An unknown username and a wrong password are indistinguishable: both
   * fail with the same `UserInputError` and message.
   */
  lemma LoginFailuresIdentical(args: Credentials, cfg: Config, unknown: Services, wrong: Services, user: User)
    requires unknown.findUserByUsername(args.username) == Success(None)
    requires wrong.findUserByUsername(args.username) == Success(Some(user))
    requires wrong.compare(args.password, user.password.GetOr("")) == Success(false)
    ensures Login(args, cfg, unknown).result == Login(args, cfg, wrong).result
    ensures Login(args, cfg, unknown).result == Failure(UserInputError(InvalidCredentials))
  {
  }

  /** A user without a stored password can log in only if the comparison accepts the empty hash. */
  lemma PasswordlessUserComparesWithEmptyHash(args: Credentials, cfg: Config, svc: Services, user: User)
    requires svc.findUserByUsername(args.username) == Success(Some(user))
    requires user.password.None?
    requires svc.compare(args.password, "") != Success(true)
    ensures Login(args, cfg, svc).result.Failure?
    ensures Compare(args.password, "") in Login(args, cfg, svc).calls
  {
  }

  /**
   * Logging in as the user just registered signs the very claims the
   * registration signed: the user's id and username.
   */
  lemma RegisterThenLoginSignsSameClaims(args: Credentials, cfg: Config, svc: Services)
    requires Register(args, cfg, svc).result.Success?
    requires svc.findUserByUsername(args.username) == Success(Some(Register(args, cfg, svc).result.value.user))
    requires svc.compare(args.password, Register(args, cfg, svc).result.value.user.password.GetOr("")) == Success(true)
    ensures Login(args, cfg, svc).result.Success?
    ensures Login(args, cfg, svc).calls[2] == Register(args, cfg, svc).calls[1]
    ensures Login(args, cfg, svc).calls[2].claims.Keys == {"id", "username"}
  {
  }
}
