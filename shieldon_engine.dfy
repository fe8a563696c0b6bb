/** The external Shieldon engine as the guardian sees it: every call the
    guardian makes on it is recorded as a value, and the action logger is an
    append-only sequence of records. What the engine does with a call
    (rate limiting, sessions, CAPTCHA checks, storage) is not modelled. */
module ShieldonEngine {

  /** The frequency quotas per time unit: second, minute, hour, day. */
  datatype TimeUnitQuota = TimeUnitQuota(s: int, m: int, h: int, d: int)

  /** Values given to `setProperty`. */
  datatype PropertyValue =
    | LangCode(code: string)
    | Quotas(quota: TimeUnitQuota)

  /** The filter switches given to `setFilters`. */
  datatype FilterConfig = FilterConfig(session: bool, cookie: bool, referer: bool, frequency: bool)

  /** Where a PDO-backed driver connects. */
  datatype PdoSource =
    | SqliteFile(location: string)
    | MysqlDatabase

  /** The data drivers `setDriver` can receive. */
  datatype Driver =
    | RedisDriver
    | FileDriver(directory: string)
    | SqliteDriver(pdo: PdoSource)

  /** The components `setComponent` can receive; the last three carry
      whether `setStrict(true)` was called on them first. */
  datatype Component =
    | IpComponent
    | TrustedBotComponent
    | HeaderComponent(strict: bool)
    | UserAgentComponent(strict: bool)
    | RdnsComponent(strict: bool)

  /** The CAPTCHA instances `setCaptcha` can receive, with their configuration
      arrays; the reCAPTCHA field `verion` keeps the key's spelling. */
  datatype Captcha =
    | Recaptcha(key: string, secret: string, verion: string, lang: string)
    | ImageCaptcha(wordLength: string, pool: string)

  /** One call made on the engine or on its Ip component. */
  datatype Call =
    | SetProperty(name: string, value: PropertyValue)
    | SetIp(ip: string)
    | SetDriver(driver: Driver)
    | SetChannel(channel: string)
    | RebuildDriver
    | SetLogger(directory: string)
    | SetFilters(filters: FilterConfig)
    | SetComponent(component: Component)
    | SetAllowedList(allowed: seq<string>)
    | SetDeniedList(denied: seq<string>)
    | DenyAll
    | SetCaptcha(captcha: Captcha)
    | LimitSession(count: int, period: int)
    | Run
    | CaptchaResponse
    | Unban
    | Output(status: int)

  /** What `run()` answers: allowed, denied, or any other response code. */
  datatype Response = ResponseAllow | ResponseDeny | ResponseOther(code: int)

  /** The action codes the plugin writes to the action log. */
  datatype ActionCode = LogPageview | LogInBlacklist | LogInCaptcha

  /** One action-log record; the time field keeps the key's spelling `timesamp`. */
  datatype LogRecord = LogRecord(ip: string, sessionId: string, actionCode: ActionCode, reasonCode: int, timesamp: int)

  /** The components registered by a sequence of calls, in order. */
  function Registered(calls: seq<Call>): (cs: seq<Component>)
    ensures |cs| <= |calls|
  {
    if calls == [] then []
    else
      var rest := Registered(calls[1..]);
      if calls[0].SetComponent? then [calls[0].component] + rest else rest
  }

  /** Registration distributes over concatenated call sequences. */
  lemma {:induction false} RegisteredAppend(a: seq<Call>, b: seq<Call>)
    ensures Registered(a + b) == Registered(a) + Registered(b)
  {
    if a != [] {
      RegisteredAppend(a[1..], b);
      assert (a + b)[1..] == a[1..] + b;
      assert (a + b)[0] == a[0];
    } else {
      assert a + b == b;
    }
  }

  /** A component is registered exactly when some call registers it. */
  lemma {:induction false} RegisteredMembership(calls: seq<Call>, c: Component)
    ensures c in Registered(calls) <==> SetComponent(c) in calls
  {
    if calls != [] {
      RegisteredMembership(calls[1..], c);
      assert calls == [calls[0]] + calls[1..];
    }
  }
}
