/** The decisions `WPSO_Shieldon_Guardian` takes, as functions of the plugin
    options and the request: which calls each configuration step makes on
    the Shieldon engine, whether the URL is excluded, which IP zone applies,
    when the logs are reset, and what is done with the engine's verdict. */
module GuardianRules {
  import opened PhpBuiltins
  import opened ShieldonEngine

  // ---------------------------------------------------------------------
  // Inputs
  // ---------------------------------------------------------------------

  /** Plugin options by settings section, then by option name. */
  type Options = map<string, map<string, string>>

  /** `wpso_get_option(name, section)`; an option never saved reads as "". */
  function GetOption(o: Options, name: string, section: string): string {
    if section in o && name in o[section] then o[section][name] else ""
  }

  /** All options of one settings section. */
  function Section(o: Options, section: string): map<string, string> {
    if section in o then o[section] else map[]
  }

  /** The option holds exactly the string 'yes' (PHP `'yes' === ...`). */
  predicate IsYes(o: Options, name: string, section: string) {
    GetOption(o, name, section) == "yes"
  }

  /** An entry of `$_SERVER` or `$_GET`; an absent entry reads as "". */
  function Lookup(m: map<string, string>, name: string): string {
    if name in m then m[name] else ""
  }

  const DAEMON: string := "shieldon_daemon"
  const FILTER: string := "shieldon_filter"
  const COMPONENTS: string := "shieldon_components"
  const CAPTCHA: string := "shieldon_captcha"
  const EXCLUSION: string := "shieldon_exclusion"

  const LOGIN_PAGE: string := "wp-login.php"
  const SIGNUP_PAGE: string := "wp-signup.php"
  const XMLRPC_PAGE: string := "xmlrpc.php"

  /** What the engine and the request report after `run()`. */
  datatype Verdict = Verdict(response: Response, captchaSolved: bool, sessionId: string)

  /** What the surroundings supply to `init()`: the upload directory, the
      multisite channel id, `time()` and the timestamp of today's midnight. */
  datatype Environment = Environment(uploadDir: string, channel: string, now: int, midnight: int)

  // ---------------------------------------------------------------------
  // Constructor: current URL and client-IP source
  // ---------------------------------------------------------------------

  /** 'http://' followed by the host and the request URI. */
  function CurrentUrl(server: map<string, string>): string {
    "http://" + Lookup(server, "HTTP_HOST") + Lookup(server, "REQUEST_URI")
  }

  /** Whatever occurs in the request URI, its query string included, occurs
      in the current URL. */
  lemma RequestUriInCurrentUrl(server: map<string, string>, page: string)
    ensures Contains(Lookup(server, "REQUEST_URI"), page) ==> Contains(CurrentUrl(server), page)
  {
    if Contains(Lookup(server, "REQUEST_URI"), page) {
      ContainsAfterPrefix("http://" + Lookup(server, "HTTP_HOST"), Lookup(server, "REQUEST_URI"), page);
    }
  }

  /** A page name in the query string alone is enough: '/shop?wp-login.php'
      falls in the login zone, and is excluded when the login page is. */
  lemma LoginPageInQueryString(o: Options, server: map<string, string>, path: string, query: string)
    requires Lookup(server, "REQUEST_URI") == path + "?" + query
    requires Contains(query, LOGIN_PAGE)
    ensures ZoneOf(CurrentUrl(server)) == LoginZone
    ensures IsYes(o, "excluded_page_login", EXCLUSION) ==> Excluded(o, CurrentUrl(server))
  {
    ContainsAfterPrefix(path + "?", query, LOGIN_PAGE);
    RequestUriInCurrentUrl(server, LOGIN_PAGE);
  }

  /** The request header a CDN setting trusts for the client IP; keycdn and
      'others' read the forwarded HOST header. */
  function CdnIpHeader(cdn: string): (header: Option<string>)
    ensures header.None? <==> cdn !in {"cloudflare", "google", "aws", "keycdn", "others"}
    ensures header.Some? ==>
      header.value in {"HTTP_CF_CONNECTING_IP", "HTTP_X_FORWARDED_FOR", "HTTP_X_FORWARDED_HOST"}
  {
    if cdn == "cloudflare" then Some("HTTP_CF_CONNECTING_IP")
    else if cdn == "google" || cdn == "aws" then Some("HTTP_X_FORWARDED_FOR")
    else if cdn == "keycdn" || cdn == "others" then Some("HTTP_X_FORWARDED_HOST")
    else None
  }

  /** Which header each CDN setting selects. */
  lemma CdnHeaderPerSetting()
    ensures CdnIpHeader("cloudflare") == Some("HTTP_CF_CONNECTING_IP")
    ensures CdnIpHeader("google") == CdnIpHeader("aws") == Some("HTTP_X_FORWARDED_FOR")
    ensures CdnIpHeader("keycdn") == CdnIpHeader("others") == Some("HTTP_X_FORWARDED_HOST")
  {
  }

  /** The IP given to `setIp`, if any: the trusted header's value when it is not empty. */
  function IpOverride(cdn: string, server: map<string, string>): (r: Option<string>)
    ensures r.Some? <==> CdnIpHeader(cdn).Some? && !IsEmpty(Lookup(server, CdnIpHeader(cdn).value))
    ensures r.Some? ==> r.value == server[CdnIpHeader(cdn).value]
  {
    match CdnIpHeader(cdn)
    case None => None
    case Some(header) =>
      var value := Lookup(server, header);
      if IsEmpty(value) then None else Some(value)
  }

  /** The calls the constructor makes: the language, then possibly the IP. */
  function ConstructorCalls(lang: string, cdn: string, server: map<string, string>): seq<Call> {
    [SetProperty("lang", LangCode(lang))]
    + match IpOverride(cdn, server)
      case None => []
      case Some(ip) => [SetIp(ip)]
  }

  /** The override depends on the selected header and on nothing else in the request. */
  lemma IpOverrideReadsOnlySelectedHeader(cdn: string, s1: map<string, string>, s2: map<string, string>)
    requires CdnIpHeader(cdn).Some? ==> Lookup(s1, CdnIpHeader(cdn).value) == Lookup(s2, CdnIpHeader(cdn).value)
    ensures IpOverride(cdn, s1) == IpOverride(cdn, s2)
  {
  }

  /** Without a CDN ('no', or an unknown value) the engine keeps the IP it detected. */
  lemma NoCdnKeepsDetectedIp(cdn: string, server: map<string, string>)
    requires cdn != "cloudflare" && cdn != "google" && cdn != "aws" && cdn != "keycdn" && cdn != "others"
    ensures IpOverride(cdn, server) == None
    ensures forall lang, c :: c in ConstructorCalls(lang, cdn, server) ==> !c.SetIp?
  {
  }

  // ---------------------------------------------------------------------
  // set_driver (name to driver only) and set_logger
  // ---------------------------------------------------------------------

  /** The driver chosen by `data_driver_type`: 'reids' selects Redis, and
      'mysql' and every other value open a MySQL PDO inside the SQLite driver. */
  function DriverFor(driverType: string, uploadDir: string): (d: Driver)
    ensures d.FileDriver? <==> driverType == "file"
    ensures d.FileDriver? ==> d.directory == uploadDir
    ensures d.SqliteDriver? && d.pdo.SqliteFile? ==> d.pdo.location == uploadDir + "/shieldon.sqlite3"
    ensures d == SqliteDriver(MysqlDatabase) <==> driverType !in {"reids", "file", "sqlite"}
  {
    if driverType == "reids" then RedisDriver
    else if driverType == "file" then FileDriver(uploadDir)
    else if driverType == "sqlite" then SqliteDriver(SqliteFile(uploadDir + "/shieldon.sqlite3"))
    else SqliteDriver(MysqlDatabase)
  }

  function DriverCalls(o: Options, uploadDir: string, channel: string): seq<Call> {
    [SetDriver(DriverFor(GetOption(o, "data_driver_type", DAEMON), uploadDir)), SetChannel(channel)]
  }

  /** Only the misspelt 'reids' reaches Redis; 'redis' lands on the MySQL default. */
  lemma RedisOnlyThroughMisspelling(driverType: string, uploadDir: string)
    ensures DriverFor(driverType, uploadDir) == RedisDriver <==> driverType == "reids"
    ensures DriverFor("redis", uploadDir) == DriverFor("mysql", uploadDir) == SqliteDriver(MysqlDatabase)
  {
  }

  // ---------------------------------------------------------------------
  // Numeric options: set_frequency_check and set_session_limit
  // ---------------------------------------------------------------------

  /** `(is_numeric($v) && !empty($v)) ? (int) $v : <default>`: the value when usable. */
  function NumericOption(raw: string): (r: Option<int>)
    ensures r.Some? ==> PHP_INT_MIN <= r.value <= PHP_INT_MAX
  {
    if IsNumeric(raw) && !IsEmpty(raw) then Some(IntCast(raw)) else None
  }

  function OrDefault(v: Option<int>, fallback: int): int {
    match v
    case Some(x) => x
    case None => fallback
  }

  /** The four quotas, read from the option names that begin with '$'. */
  function FrequencyQuota(o: Options): (q: TimeUnitQuota)
    ensures PHP_INT_MIN <= q.s <= PHP_INT_MAX && PHP_INT_MIN <= q.m <= PHP_INT_MAX
    ensures PHP_INT_MIN <= q.h <= PHP_INT_MAX && PHP_INT_MIN <= q.d <= PHP_INT_MAX
  {
    TimeUnitQuota(
      OrDefault(NumericOption(GetOption(o, "$time_unit_quota_s", DAEMON)), 2),
      OrDefault(NumericOption(GetOption(o, "$time_unit_quota_m", DAEMON)), 10),
      OrDefault(NumericOption(GetOption(o, "$time_unit_quota_h", DAEMON)), 30),
      OrDefault(NumericOption(GetOption(o, "$time_unit_quota_d", DAEMON)), 60))
  }

  /** `set_frequency_check`: the quotas are set only when the frequency filter is 'yes'. */
  function FrequencyCalls(o: Options): seq<Call> {
    if IsYes(o, "enable_filter_frequency", DAEMON) then
      [SetProperty("time_unit_quota", Quotas(FrequencyQuota(o)))]
    else []
  }

  /** A digit string other than "0" is used as written, leading zeros and all
      ("00" gives 0, not the default), capped at PHP_INT_MAX. */
  lemma NumericOptionOfDigits(d: string)
    requires |d| >= 1 && AllDigits(d) && d != "0"
    ensures NumericOption(d) == Some(Saturate(DigitsValue(d)))
  {
    ParseDigits(d, false);
    IntCastOfNumeral(d, Numeral(false, d, "", 0));
    TruncatedWithoutExponent(false, d, "");
    assert d + "" == d;
  }

  /** A usable option is exactly an integer's decimal rendering other than "0";
      it is read back as that integer. */
  lemma NumericOptionOfInt(i: int)
    requires PHP_INT_MIN <= i <= PHP_INT_MAX && i != 0
    ensures NumericOption(IntToString(i)) == Some(i)
  {
    IntCastOfIntToString(i);
    if i > 0 {
      NatToStringIsNotEmpty(i);
    }
  }

  /** A decimal fraction is usable and truncated toward zero: "1.5" minutes is
      60 seconds, and "0.5" gives 0 rather than the default. */
  lemma FractionalOptionTruncates(whole: string, fraction: string)
    requires |whole| >= 1 && AllDigits(whole) && AllDigits(fraction)
    ensures NumericOption(whole + "." + fraction) == Some(Saturate(DigitsValue(whole)))
    ensures AlivePeriod(whole + "." + fraction) == Saturate(DigitsValue(whole)) * 60
  {
    IntCastTruncatesFraction(whole, fraction);
    assert |whole + "." + fraction| >= 2;
  }

  /** "", "0" and non-numeric text all fall back to the default. */
  lemma UnusableOptionFallsBack(raw: string, fallback: int)
    requires raw == "" || raw == "0" || !IsNumeric(raw)
    ensures OrDefault(NumericOption(raw), fallback) == fallback
  {
  }

  /** `raw` is the rendering of the usable integer `q` holds, or, for `None`,
      an unusable value. */
  predicate Renders(raw: string, q: Option<int>) {
    match q
    case Some(i) => PHP_INT_MIN <= i <= PHP_INT_MAX && i != 0 && raw == IntToString(i)
    case None => NumericOption(raw).None?
  }

  lemma RendersOption(raw: string, q: Option<int>)
    requires Renders(raw, q)
    ensures NumericOption(raw) == q
  {
    if q.Some? {
      NumericOptionOfInt(q.value);
    }
  }

  /** Each unit independently: its option's integer, or 2/10/30/60 when that
      option is unusable. */
  lemma FrequencyQuotaUnits(o: Options, qs: Option<int>, qm: Option<int>, qh: Option<int>, qd: Option<int>)
    requires Renders(GetOption(o, "$time_unit_quota_s", DAEMON), qs)
    requires Renders(GetOption(o, "$time_unit_quota_m", DAEMON), qm)
    requires Renders(GetOption(o, "$time_unit_quota_h", DAEMON), qh)
    requires Renders(GetOption(o, "$time_unit_quota_d", DAEMON), qd)
    ensures FrequencyQuota(o) == TimeUnitQuota(OrDefault(qs, 2), OrDefault(qm, 10), OrDefault(qh, 30), OrDefault(qd, 60))
  {
    RendersOption(GetOption(o, "$time_unit_quota_s", DAEMON), qs);
    RendersOption(GetOption(o, "$time_unit_quota_m", DAEMON), qm);
    RendersOption(GetOption(o, "$time_unit_quota_h", DAEMON), qh);
    RendersOption(GetOption(o, "$time_unit_quota_d", DAEMON), qd);
  }

  /** With no quota option saved, the quotas are the defaults 2/10/30/60; the
      names without '$' (the admin form's spelling) are never read. */
  lemma DefaultQuotas(o: Options)
    requires DAEMON !in o || (forall name :: name in o[DAEMON] ==> |name| == 0 || name[0] != '$')
    ensures FrequencyQuota(o) == TimeUnitQuota(2, 10, 30, 60)
  {
    if DAEMON in o {
      assert "$time_unit_quota_s"[0] == '$';
      assert "$time_unit_quota_m"[0] == '$';
      assert "$time_unit_quota_h"[0] == '$';
      assert "$time_unit_quota_d"[0] == '$';
    }
  }

  /** The session cap: the option's number, or 100. */
  function OnlineUsers(raw: string): (n: int)
    ensures PHP_INT_MIN <= n <= PHP_INT_MAX
  {
    OrDefault(NumericOption(raw), 100)
  }

  /** The alive period in seconds: the option's minutes times 60, or 300. */
  function AlivePeriod(raw: string): (seconds: int)
    ensures seconds % 60 == 0
    ensures PHP_INT_MIN * 60 <= seconds <= PHP_INT_MAX * 60
  {
    match NumericOption(raw)
    case Some(minutes) => MinutesInSeconds(minutes); minutes * 60
    case None => 300
  }

  lemma MinutesInSeconds(minutes: int)
    ensures (minutes * 60) % 60 == 0
  {
  }

  /** `set_session_limit`: `limitSession` is called only when the limit is 'yes'. */
  function SessionLimitCalls(o: Options): seq<Call> {
    if IsYes(o, "enable_online_session_limit", DAEMON) then
      [LimitSession(OnlineUsers(GetOption(o, "session_limit_count", DAEMON)),
                    AlivePeriod(GetOption(o, "session_limit_period", DAEMON)))]
    else []
  }

  /** A period of n minutes is n * 60 seconds; the cap of n users is n. */
  lemma SessionLimitOfNumbers(count: int, minutes: int)
    requires PHP_INT_MIN <= count <= PHP_INT_MAX && count != 0
    requires PHP_INT_MIN <= minutes <= PHP_INT_MAX && minutes != 0
    ensures OnlineUsers(IntToString(count)) == count
    ensures AlivePeriod(IntToString(minutes)) == minutes * 60
  {
    NumericOptionOfInt(count);
    NumericOptionOfInt(minutes);
  }

  /** Every unusable value ("", "0", non-numeric text) gives the defaults: a
      cap of 100 users, and 300 seconds, the period "5" minutes gives. */
  lemma UnusableSessionOptionsFallBack(raw: string)
    requires raw == "" || raw == "0" || !IsNumeric(raw)
    ensures AlivePeriod(raw) == 300 && OnlineUsers(raw) == 100
    ensures AlivePeriod("5") == 300
  {
    NumericOptionOfInt(5);
    assert IntToString(5) == "5";
  }

  // ---------------------------------------------------------------------
  // set_filters
  // ---------------------------------------------------------------------

  /** Each filter is on exactly when its option is 'yes'. */
  function FilterConfigOf(o: Options): FilterConfig {
    FilterConfig(
      IsYes(o, "enable_filter_session", FILTER),
      IsYes(o, "enable_filter_cookie", FILTER),
      IsYes(o, "enable_filter_referer", FILTER),
      IsYes(o, "enable_filter_frequency", DAEMON))
  }

  function FilterCalls(o: Options): seq<Call> {
    [SetFilters(FilterConfigOf(o))]
  }

  /** The frequency filter is on exactly when quotas are set. */
  lemma FrequencyFilterMatchesQuotas(o: Options)
    ensures FilterConfigOf(o).frequency <==> FrequencyCalls(o) != []
  {
  }

  // ---------------------------------------------------------------------
  // set_captcha
  // ---------------------------------------------------------------------

  const DIGITS: string := "0123456789"
  const LOWER_CASE: string := "abcdefghijklmnopqrstuvwxyz"
  const UPPER_CASE: string := "ABCDEFGHIJKLMNOPQRSTUVWXYZ"

  /** '0123456789' */
  const NUMERIC_POOL: string := DIGITS
  /** '0123456789abcdefghijklmnopqrstuvwxyz': 'alpha' keeps the digits. */
  const ALPHA_POOL: string := DIGITS + LOWER_CASE
  /** '0123456789abcdefghijklmnopqrstuvwxyzABCDEFGHIJKLMNOPQRSTUVWXYZ' */
  const ALNUM_POOL: string := DIGITS + LOWER_CASE + UPPER_CASE

  /** The image-CAPTCHA character pool for `image_captcha_type`. */
  function CaptchaPool(captchaType: string): (pool: string)
    ensures 'a' in pool <==> captchaType != "numeric"
    ensures 'A' in pool <==> captchaType != "numeric" && captchaType != "alpha"
  {
    PoolLetters();
    if captchaType == "numeric" then NUMERIC_POOL
    else if captchaType == "alpha" then ALPHA_POOL
    else ALNUM_POOL
  }

  /** Which pools hold lower-case and upper-case letters. */
  lemma PoolLetters()
    ensures 'a' !in NUMERIC_POOL && 'A' !in NUMERIC_POOL
    ensures 'a' in ALPHA_POOL && 'A' !in ALPHA_POOL
    ensures 'a' in ALNUM_POOL && 'A' in ALNUM_POOL
  {
    LettersAreNotDigits();
    UpperIsNotLower();
    assert LOWER_CASE[0] == 'a' && UPPER_CASE[0] == 'A';
    assert ALPHA_POOL == DIGITS + LOWER_CASE && ALNUM_POOL == ALPHA_POOL + UPPER_CASE;
  }

  lemma LettersAreNotDigits()
    ensures 'a' !in DIGITS && 'A' !in DIGITS
  {
    assert forall c :: c in DIGITS ==> '0' <= c <= '9';
  }

  lemma UpperIsNotLower()
    ensures 'A' !in LOWER_CASE
  {
    assert forall c :: c in LOWER_CASE ==> 'a' <= c <= 'z';
  }

  /** `set_captcha`: reCAPTCHA first, then the image CAPTCHA, each when 'yes'. */
  function CaptchaCalls(o: Options): seq<Call> {
    (if IsYes(o, "enable_captcha_google", CAPTCHA) then
       [SetCaptcha(Recaptcha(
          GetOption(o, "google_recaptcha_key", CAPTCHA),
          GetOption(o, "google_recaptcha_secret", CAPTCHA),
          GetOption(o, "google_recaptcha_version", CAPTCHA),
          GetOption(o, "google_recaptcha_version", CAPTCHA)))]
     else [])
    + (if IsYes(o, "enable_captcha_image", CAPTCHA) then
         [SetCaptcha(ImageCaptcha(GetOption(o, "image_captcha_length", CAPTCHA),
                                  CaptchaPool(GetOption(o, "image_captcha_type", CAPTCHA))))]
       else [])
  }

  /** The pools are nested: every pool begins with the digits and lies inside
      the alphanumeric pool, and 'alpha' still includes the digits. */
  lemma CaptchaPoolsNest(captchaType: string)
    ensures NUMERIC_POOL <= CaptchaPool(captchaType) <= ALNUM_POOL
    ensures |CaptchaPool(captchaType)| in {10, 36, 62}
    ensures captchaType != "numeric" && captchaType != "alpha" ==> CaptchaPool(captchaType) == ALNUM_POOL
  {
    assert DIGITS <= DIGITS + LOWER_CASE;
    assert DIGITS + LOWER_CASE <= DIGITS + LOWER_CASE + UPPER_CASE;
  }

  /** The reCAPTCHA language is read from the version option. */
  lemma RecaptchaLangIsVersion(o: Options)
    ensures forall c :: c in CaptchaCalls(o) && c.SetCaptcha? && c.captcha.Recaptcha? ==>
      c.captcha.lang == c.captcha.verion == GetOption(o, "google_recaptcha_version", CAPTCHA)
  {
  }

  // ---------------------------------------------------------------------
  // is_excluded_list
  // ---------------------------------------------------------------------

  /** The URL is excluded from protection: some line of a non-empty
      `excluded_urls` occurs in it, or an enabled page exclusion names it. */
  ghost predicate Excluded(o: Options, url: string)
    ensures (&& IsEmpty(GetOption(o, "excluded_urls", EXCLUSION))
             && !IsYes(o, "excluded_page_login", EXCLUSION)
             && !IsYes(o, "excluded_page_signup", EXCLUSION)
             && !IsYes(o, "excluded_page_xmlrpc", EXCLUSION))
            ==> !Excluded(o, url)
  {
    var list := GetOption(o, "excluded_urls", EXCLUSION);
    || (!IsEmpty(list) && exists entry :: entry in Explode(list) && Contains(url, entry))
    || (IsYes(o, "excluded_page_login", EXCLUSION) && Contains(url, LOGIN_PAGE))
    || (IsYes(o, "excluded_page_signup", EXCLUSION) && Contains(url, SIGNUP_PAGE))
    || (IsYes(o, "excluded_page_xmlrpc", EXCLUSION) && Contains(url, XMLRPC_PAGE))
  }

  /** A list written as separate lines excludes every URL containing one of them. */
  lemma ExcludedByListedLine(o: Options, url: string, lines: seq<string>, k: nat)
    requires |lines| >= 1 && k < |lines|
    requires forall i :: 0 <= i < |lines| ==> NoSeparator(lines[i])
    requires GetOption(o, "excluded_urls", EXCLUSION) == Implode(lines)
    requires !IsEmpty(Implode(lines))
    requires Contains(url, lines[k])
    ensures Excluded(o, url)
  {
    ExplodeImplode(lines);
    assert lines[k] in Explode(Implode(lines));
  }

  /** A list ending in a line break has an empty last line, and the empty
      string occurs in every URL: such a list excludes every request. */
  lemma TrailingLineBreakExcludesEverything(o: Options, url: string, s: string)
    requires GetOption(o, "excluded_urls", EXCLUSION) == s + [EOL]
    ensures Excluded(o, url)
  {
    var parts := Explode(s + [EOL]);
    ExplodeTrailingSeparator(s);
    assert parts[|parts| - 1] in parts;
    assert OccursAt(url, "", 0);
    assert (s + [EOL])[|s|] == EOL;
  }

  // ---------------------------------------------------------------------
  // ip_manager
  // ---------------------------------------------------------------------

  datatype Zone = LoginZone | SignupZone | XmlrpcZone | GlobalZone

  function ZoneName(z: Zone): string {
    match z
    case LoginZone => "login"
    case SignupZone => "signup"
    case XmlrpcZone => "xmlrpc"
    case GlobalZone => "global"
  }

  /** The settings section holding a zone's lists: 'shieldon_ip_' and the zone. */
  function ZoneSection(z: Zone): string {
    "shieldon_ip_" + ZoneName(z)
  }

  /** A zone option: 'ip_', the zone, then '_whitelist', '_blacklist' or '_deny_all'. */
  function ZoneOption(o: Options, z: Zone, suffix: string): string {
    GetOption(o, "ip_" + ZoneName(z) + suffix, ZoneSection(z))
  }

  /** The one zone a URL falls in: login, then signup, then xmlrpc, else global. */
  function ZoneOf(url: string): (z: Zone)
    ensures z == LoginZone <==> Contains(url, LOGIN_PAGE)
    ensures z == SignupZone <==> !Contains(url, LOGIN_PAGE) && Contains(url, SIGNUP_PAGE)
    ensures z == XmlrpcZone <==> !Contains(url, LOGIN_PAGE) && !Contains(url, SIGNUP_PAGE) && Contains(url, XMLRPC_PAGE)
    ensures z == GlobalZone <==> !Contains(url, LOGIN_PAGE) && !Contains(url, SIGNUP_PAGE) && !Contains(url, XMLRPC_PAGE)
  {
    if StrPos(url, LOGIN_PAGE).Some? then LoginZone
    else if StrPos(url, SIGNUP_PAGE).Some? then SignupZone
    else if StrPos(url, XMLRPC_PAGE).Some? then XmlrpcZone
    else GlobalZone
  }

  /** The deny-all passcode query parameter is present (`isset($_GET[$passcode])`). */
  predicate HasPasscode(o: Options, query: map<string, string>) {
    GetOption(o, "deny_all_passcode", ZoneSection(LoginZone)) in query
  }

  /** Whether `denyAll` is called: the zone's deny-all is 'yes', and in the
      login zone the passcode is absent. */
  predicate DeniesAll(o: Options, z: Zone, query: map<string, string>) {
    ZoneOption(o, z, "_deny_all") == "yes" && (z == LoginZone ==> !HasPasscode(o, query))
  }

  /** `ip_manager`: the allow list, the deny list and deny-all of the URL's zone. */
  function IpManagerCalls(o: Options, url: string, query: map<string, string>): (r: seq<Call>)
    ensures forall c :: c in r ==> c.SetAllowedList? || c.SetDeniedList? || c.DenyAll?
    ensures |r| <= 3
  {
    var z := ZoneOf(url);
    var allowed := ZoneOption(o, z, "_whitelist");
    var denied := ZoneOption(o, z, "_blacklist");
    (if !IsEmpty(allowed) then [SetAllowedList(Explode(allowed))] else [])
    + (if !IsEmpty(denied) then [SetDeniedList(Explode(denied))] else [])
    + (if DeniesAll(o, z, query) then [DenyAll] else [])
  }

  /** The lists applied are those of the URL's zone, split on line breaks, and
      only when the option is not empty; `denyAll` follows the zone's rule. */
  lemma IpManagerAppliesZone(o: Options, url: string, query: map<string, string>, entries: seq<string>)
    ensures var z := ZoneOf(url);
      && (SetAllowedList(entries) in IpManagerCalls(o, url, query) <==>
            !IsEmpty(ZoneOption(o, z, "_whitelist")) && entries == Explode(ZoneOption(o, z, "_whitelist")))
      && (SetDeniedList(entries) in IpManagerCalls(o, url, query) <==>
            !IsEmpty(ZoneOption(o, z, "_blacklist")) && entries == Explode(ZoneOption(o, z, "_blacklist")))
    ensures DenyAll in IpManagerCalls(o, url, query) <==>
      ZoneOption(o, ZoneOf(url), "_deny_all") == "yes" && (ZoneOf(url) == LoginZone ==> !HasPasscode(o, query))
  {
  }

  /** Outside the login zone the passcode has no effect. */
  lemma PasscodeOnlyInLoginZone(o: Options, url: string, q1: map<string, string>, q2: map<string, string>)
    requires ZoneOf(url) != LoginZone
    ensures IpManagerCalls(o, url, q1) == IpManagerCalls(o, url, q2)
  {
  }

  /** Exactly one zone is configured: the calls depend on the options of the
      URL's zone section and on no other section. */
  lemma IpManagerReadsOneZone(o1: Options, o2: Options, url: string, query: map<string, string>)
    requires Section(o1, ZoneSection(ZoneOf(url))) == Section(o2, ZoneSection(ZoneOf(url)))
    ensures IpManagerCalls(o1, url, query) == IpManagerCalls(o2, url, query)
  {
    var s := ZoneSection(ZoneOf(url));
    assert forall name :: GetOption(o1, name, s) == GetOption(o2, name, s) by {
      forall name ensures GetOption(o1, name, s) == GetOption(o2, name, s) {
        assert GetOption(o1, name, s) == Lookup(Section(o1, s), name);
        assert GetOption(o2, name, s) == Lookup(Section(o2, s), name);
      }
    }
    if ZoneOf(url) == LoginZone {
      assert HasPasscode(o1, query) == HasPasscode(o2, query);
    }
  }

  // ---------------------------------------------------------------------
  // set_component
  // ---------------------------------------------------------------------

  /** `set_component`: the Ip component and its zone lists, then each enabled
      component with its strict mode. */
  function ComponentCalls(o: Options, url: string, query: map<string, string>): seq<Call> {
    [SetComponent(IpComponent)] + IpManagerCalls(o, url, query) + OptionalComponentCalls(o)
  }

  /** The registrations after Ip: each component when enabled, strict when its strict mode is 'yes'. */
  function OptionalComponentCalls(o: Options): seq<Call> {
    OptionalCall(IsYes(o, "enable_component_trustedbot", COMPONENTS), TrustedBotComponent)
    + OptionalCall(IsYes(o, "enable_component_header", COMPONENTS),
                   HeaderComponent(IsYes(o, "header_strict_mode", COMPONENTS)))
    + OptionalCall(IsYes(o, "enable_component_agent", COMPONENTS),
                   UserAgentComponent(IsYes(o, "agent_strict_mode", COMPONENTS)))
    + OptionalCall(IsYes(o, "enable_component_rdns", COMPONENTS),
                   RdnsComponent(IsYes(o, "rdns_strict_mode", COMPONENTS)))
  }

  /** The position of a component in the registration order. */
  function Rank(c: Component): nat {
    match c
    case IpComponent => 0
    case TrustedBotComponent => 1
    case HeaderComponent(_) => 2
    case UserAgentComponent(_) => 3
    case RdnsComponent(_) => 4
  }

  /** Strictly increasing ranks, each above `floor`. */
  predicate Ascending(cs: seq<Component>, floor: int) {
    cs == [] || (floor < Rank(cs[0]) && Ascending(cs[1..], Rank(cs[0])))
  }

  /** Ascending ranks are pairwise ordered. */
  lemma {:induction false} AscendingIsSorted(cs: seq<Component>, floor: int)
    requires Ascending(cs, floor)
    ensures forall i :: 0 <= i < |cs| ==> floor < Rank(cs[i])
    ensures forall i, j :: 0 <= i < j < |cs| ==> Rank(cs[i]) < Rank(cs[j])
  {
    if cs != [] {
      AscendingIsSorted(cs[1..], Rank(cs[0]));
      assert forall i :: 0 < i < |cs| ==> cs[i] == cs[1..][i - 1];
    }
  }

  /** An optional component may be put in front of an ascending tail above it. */
  lemma PrependOptional(present: bool, c: Component, tail: seq<Component>, floor: int)
    requires floor < Rank(c) && Ascending(tail, Rank(c))
    ensures Ascending(Optional(present, c) + tail, floor)
  {
    if present {
      assert ([c] + tail)[1..] == tail;
    } else {
      assert [] + tail == tail;
      AscendingLowerFloor(tail, Rank(c), floor);
    }
  }

  lemma AscendingLowerFloor(cs: seq<Component>, floor: int, lower: int)
    requires Ascending(cs, floor) && lower <= floor
    ensures Ascending(cs, lower)
  {
  }

  /** The components registered after Ip, in the order `set_component` adds them. */
  function OptionalComponents(o: Options): seq<Component> {
    Registered(OptionalComponentCalls(o))
  }

  /** A present-or-absent registration call registers its component, or nothing. */
  function OptionalCall(present: bool, c: Component): seq<Call> {
    if present then [SetComponent(c)] else []
  }

  /** What a present-or-absent registration registers. */
  function Optional(present: bool, c: Component): seq<Component> {
    if present then [c] else []
  }

  /** The components the optional registrations register, with the option reads abstracted. */
  lemma RegisteredShape(tb: bool, hd: bool, ag: bool, rd: bool, h: Component, a: Component, r: Component)
    ensures Registered(OptionalCall(tb, TrustedBotComponent) + OptionalCall(hd, h) + OptionalCall(ag, a) + OptionalCall(rd, r))
         == Optional(tb, TrustedBotComponent) + Optional(hd, h) + Optional(ag, a) + Optional(rd, r)
  {
    var c1, c2, c3, c4 := OptionalCall(tb, TrustedBotComponent), OptionalCall(hd, h), OptionalCall(ag, a), OptionalCall(rd, r);
    RegisteredAppend(c1 + c2 + c3, c4);
    RegisteredAppend(c1 + c2, c3);
    RegisteredAppend(c1, c2);
    assert Registered(c1) == Optional(tb, TrustedBotComponent);
    assert Registered(c2) == Optional(hd, h);
    assert Registered(c3) == Optional(ag, a);
    assert Registered(c4) == Optional(rd, r);
  }

  /** The optional components, one present-or-absent piece per option. */
  lemma OptionalComponentsShape(o: Options)
    ensures OptionalComponents(o)
         == Optional(IsYes(o, "enable_component_trustedbot", COMPONENTS), TrustedBotComponent)
            + Optional(IsYes(o, "enable_component_header", COMPONENTS),
                       HeaderComponent(IsYes(o, "header_strict_mode", COMPONENTS)))
            + Optional(IsYes(o, "enable_component_agent", COMPONENTS),
                       UserAgentComponent(IsYes(o, "agent_strict_mode", COMPONENTS)))
            + Optional(IsYes(o, "enable_component_rdns", COMPONENTS),
                       RdnsComponent(IsYes(o, "rdns_strict_mode", COMPONENTS)))
  {
    RegisteredShape(
      IsYes(o, "enable_component_trustedbot", COMPONENTS),
      IsYes(o, "enable_component_header", COMPONENTS),
      IsYes(o, "enable_component_agent", COMPONENTS),
      IsYes(o, "enable_component_rdns", COMPONENTS),
      HeaderComponent(IsYes(o, "header_strict_mode", COMPONENTS)),
      UserAgentComponent(IsYes(o, "agent_strict_mode", COMPONENTS)),
      RdnsComponent(IsYes(o, "rdns_strict_mode", COMPONENTS)));
  }

  /** `ip_manager` registers no component. */
  lemma IpManagerRegistersNothing(o: Options, url: string, query: map<string, string>)
    ensures Registered(IpManagerCalls(o, url, query)) == []
  {
    NoComponentsRegistered(IpManagerCalls(o, url, query));
  }

  /** What `set_component` registers is Ip followed by the optional components. */
  lemma RegisteredComponentCalls(o: Options, url: string, query: map<string, string>)
    ensures Registered(ComponentCalls(o, url, query)) == [IpComponent] + OptionalComponents(o)
  {
    var head := [SetComponent(IpComponent)];
    IpManagerRegistersNothing(o, url, query);
    RegisteredAppend(head + IpManagerCalls(o, url, query), OptionalComponentCalls(o));
    RegisteredAppend(head, IpManagerCalls(o, url, query));
    assert Registered(head) == [IpComponent];
  }

  /** Optional components in registration order ascend in rank. */
  lemma AscendingShape(tb: bool, hd: bool, ag: bool, rd: bool, h: Component, a: Component, r: Component)
    requires h.HeaderComponent? && a.UserAgentComponent? && r.RdnsComponent?
    ensures Ascending(Optional(tb, TrustedBotComponent) + Optional(hd, h) + Optional(ag, a) + Optional(rd, r), 0)
  {
    var o1, o2, o3, o4 := Optional(tb, TrustedBotComponent), Optional(hd, h), Optional(ag, a), Optional(rd, r);
    assert Rank(r) == 4 && Rank(a) == 3 && Rank(h) == 2;
    PrependOptional(rd, r, [], 3);
    assert o4 + [] == o4;
    assert Ascending(o4, 3);
    PrependOptional(ag, a, o4, 2);
    assert Ascending(o3 + o4, 2);
    PrependOptional(hd, h, o3 + o4, 1);
    assert Ascending(o2 + (o3 + o4), 1);
    PrependOptional(tb, TrustedBotComponent, o2 + (o3 + o4), 0);
    assert Ascending(o1 + (o2 + (o3 + o4)), 0);
    assert o1 + o2 + o3 + o4 == o1 + (o2 + (o3 + o4));
  }

  /** The components are registered Ip first, then TrustedBot, Header,
      UserAgent and Rdns in that order, each only when enabled, and strict
      only when its strict-mode option is 'yes'. */
  lemma ComponentRegistrationOrder(o: Options, url: string, query: map<string, string>)
    ensures var cs := Registered(ComponentCalls(o, url, query));
      && |cs| >= 1 && cs[0] == IpComponent
      && (forall i, j :: 0 <= i < j < |cs| ==> Rank(cs[i]) < Rank(cs[j]))
      && (TrustedBotComponent in cs <==> IsYes(o, "enable_component_trustedbot", COMPONENTS))
      && (forall strict :: HeaderComponent(strict) in cs <==>
            IsYes(o, "enable_component_header", COMPONENTS) && strict == IsYes(o, "header_strict_mode", COMPONENTS))
      && (forall strict :: UserAgentComponent(strict) in cs <==>
            IsYes(o, "enable_component_agent", COMPONENTS) && strict == IsYes(o, "agent_strict_mode", COMPONENTS))
      && (forall strict :: RdnsComponent(strict) in cs <==>
            IsYes(o, "enable_component_rdns", COMPONENTS) && strict == IsYes(o, "rdns_strict_mode", COMPONENTS))
  {
    RegisteredComponentCalls(o, url, query);
    OptionalComponentsShape(o);
    RegistrationShape(
      IsYes(o, "enable_component_trustedbot", COMPONENTS),
      IsYes(o, "enable_component_header", COMPONENTS),
      IsYes(o, "enable_component_agent", COMPONENTS),
      IsYes(o, "enable_component_rdns", COMPONENTS),
      IsYes(o, "header_strict_mode", COMPONENTS),
      IsYes(o, "agent_strict_mode", COMPONENTS),
      IsYes(o, "rdns_strict_mode", COMPONENTS));
  }

  /** Ip followed by the optional components, with the option reads abstracted:
      Ip first, ranks increasing, and each component present as switched. */
  lemma RegistrationShape(tb: bool, hd: bool, ag: bool, rd: bool, hs: bool, us: bool, rs: bool)
    ensures var cs := [IpComponent] + (Optional(tb, TrustedBotComponent) + Optional(hd, HeaderComponent(hs))
                                       + Optional(ag, UserAgentComponent(us)) + Optional(rd, RdnsComponent(rs)));
      && |cs| >= 1 && cs[0] == IpComponent
      && (forall i, j :: 0 <= i < j < |cs| ==> Rank(cs[i]) < Rank(cs[j]))
      && (TrustedBotComponent in cs <==> tb)
      && (forall strict :: HeaderComponent(strict) in cs <==> hd && strict == hs)
      && (forall strict :: UserAgentComponent(strict) in cs <==> ag && strict == us)
      && (forall strict :: RdnsComponent(strict) in cs <==> rd && strict == rs)
  {
    var rest := Optional(tb, TrustedBotComponent) + Optional(hd, HeaderComponent(hs))
                + Optional(ag, UserAgentComponent(us)) + Optional(rd, RdnsComponent(rs));
    AscendingShape(tb, hd, ag, rd, HeaderComponent(hs), UserAgentComponent(us), RdnsComponent(rs));
    PrependOptional(true, IpComponent, rest, -1);
    AscendingIsSorted([IpComponent] + rest, -1);
    OptionalMembership(tb, hd, ag, rd, hs, us, rs);
  }

  /** Which components the optional registrations contain, with the option reads abstracted. */
  lemma OptionalMembership(tb: bool, hd: bool, ag: bool, rd: bool, hs: bool, us: bool, rs: bool)
    ensures var cs := [IpComponent] + (Optional(tb, TrustedBotComponent) + Optional(hd, HeaderComponent(hs))
                                       + Optional(ag, UserAgentComponent(us)) + Optional(rd, RdnsComponent(rs)));
      && (TrustedBotComponent in cs <==> tb)
      && (forall strict :: HeaderComponent(strict) in cs <==> hd && strict == hs)
      && (forall strict :: UserAgentComponent(strict) in cs <==> ag && strict == us)
      && (forall strict :: RdnsComponent(strict) in cs <==> rd && strict == rs)
  {
  }

  /** A call sequence with no `setComponent` registers nothing. */
  lemma {:induction false} NoComponentsRegistered(calls: seq<Call>)
    requires forall c :: c in calls ==> !c.SetComponent?
    ensures Registered(calls) == []
  {
    if calls != [] {
      assert calls[0] in calls;
      assert forall c :: c in calls[1..] ==> c in calls;
      NoComponentsRegistered(calls[1..]);
    }
  }

  // ---------------------------------------------------------------------
  // reset_logs
  // ---------------------------------------------------------------------

  const DAY_SECONDS: int := 86400

  /** The last reset time: the stored value, or today's midnight when the
      option is absent or empty (0). */
  function LastResetTime(stored: Option<int>, midnight: int): int {
    if stored.None? || stored.value == 0 then midnight else stored.value
  }

  /** Whether the driver is rebuilt, and the stored last-reset time afterwards. */
  datatype ResetPlan = ResetPlan(rebuild: bool, stored: Option<int>)

  /** `reset_logs`: rebuild when resetting is on and more than a day has
      passed since the last reset; the new reset time is today's midnight. */
  function PlanReset(enabled: bool, stored: Option<int>, now: int, midnight: int): (p: ResetPlan)
    ensures p.stored == stored || p.stored == Some(midnight)
    ensures !enabled ==> p == ResetPlan(false, stored)
  {
    if enabled && now - LastResetTime(stored, midnight) > DAY_SECONDS then ResetPlan(true, Some(midnight))
    else ResetPlan(false, stored)
  }

  /** After a rebuild, no later request of the same day rebuilds again. */
  lemma ResetAtMostOncePerDay(stored: Option<int>, now1: int, now2: int, midnight: int)
    requires midnight != 0 && now2 - midnight <= DAY_SECONDS
    ensures var p := PlanReset(true, stored, now1, midnight);
      p.rebuild ==> p.stored == Some(midnight) && !PlanReset(true, p.stored, now2, midnight).rebuild
  {
  }

  /** After a reset recorded at one midnight, the first request after the next
      midnight rebuilds again: the cycle is daily. */
  lemma ResetNextDay(previous: int, now: int)
    requires previous != 0
    ensures PlanReset(true, Some(previous), now, previous + DAY_SECONDS).rebuild <==> now > previous + DAY_SECONDS
  {
  }

  /** An absent (or 0) last-reset time stands for today's midnight: no request
      of the day rebuilds, and the option stays as it was. */
  lemma UnsetResetTimeNeverRebuilds(enabled: bool, stored: Option<int>, now: int, midnight: int)
    requires stored.None? || stored == Some(0)
    requires now - midnight <= DAY_SECONDS
    ensures PlanReset(enabled, stored, now, midnight) == ResetPlan(false, stored)
  {
  }

  /** The rebuild happens exactly when resetting is enabled and strictly more
      than a day has passed since the last reset, and then records today's
      midnight. */
  lemma ResetRule(enabled: bool, stored: Option<int>, now: int, midnight: int)
    ensures var p := PlanReset(enabled, stored, now, midnight);
      && (p.rebuild ==> enabled && now > LastResetTime(stored, midnight) + DAY_SECONDS && p.stored == Some(midnight))
      && (!p.rebuild ==> p.stored == stored)
      && (enabled && now - LastResetTime(stored, midnight) > DAY_SECONDS ==> p.rebuild)
      && (enabled && now == LastResetTime(stored, midnight) + DAY_SECONDS ==> !p.rebuild)
  {
  }

  // ---------------------------------------------------------------------
  // init: the dispatch after run()
  // ---------------------------------------------------------------------

  /** The engine calls and log records that follow `run()`. */
  datatype Dispatched = Dispatched(calls: seq<Call>, records: seq<LogRecord>)

  /** ALLOW logs a page view; otherwise a solved CAPTCHA unbans, and an
      unsolved one logs the block when there is a session, before output(200). */
  function Dispatch(v: Verdict, ip: string, now: int): (d: Dispatched)
    ensures Run !in d.calls && RebuildDriver !in d.calls
    ensures |d.records| <= 1
  {
    if v.response == ResponseAllow then
      Dispatched([], [LogRecord(ip, v.sessionId, LogPageview, 0, now)])
    else if v.captchaSolved then
      Dispatched([CaptchaResponse, Unban, Output(200)], [])
    else
      var action := if v.response == ResponseDeny then LogInBlacklist else LogInCaptcha;
      Dispatched([CaptchaResponse, Output(200)],
                 if IsEmpty(v.sessionId) then [] else [LogRecord(ip, v.sessionId, action, 999, now)])
  }

  /** The dispatch promises, outcome by outcome. */
  lemma DispatchOutcomes(v: Verdict, ip: string, now: int)
    ensures var d := Dispatch(v, ip, now);
      && |d.records| <= 1
      && (v.response == ResponseAllow ==>
            d.calls == [] && d.records == [LogRecord(ip, v.sessionId, LogPageview, 0, now)])
      && (v.response != ResponseAllow ==>
            |d.calls| >= 2 && d.calls[0] == CaptchaResponse && d.calls[|d.calls| - 1] == Output(200))
      && (v.response != ResponseAllow && v.captchaSolved ==> d.calls == [CaptchaResponse, Unban, Output(200)])
      && (v.response != ResponseAllow && !v.captchaSolved ==> d.calls == [CaptchaResponse, Output(200)])
      && (Unban in d.calls <==> v.response != ResponseAllow && v.captchaSolved)
      && (Unban in d.calls ==> d.records == [])
      && (v.response != ResponseAllow && !v.captchaSolved ==>
            (d.records != [] <==> !IsEmpty(v.sessionId)))
      && (v.response != ResponseAllow && !v.captchaSolved && !IsEmpty(v.sessionId) ==>
            d.records == [LogRecord(ip, v.sessionId,
                                    if v.response == ResponseDeny then LogInBlacklist else LogInCaptcha, 999, now)])
      && (forall r :: r in d.records && r.actionCode != LogPageview ==>
            r.reasonCode == 999 && (r.actionCode == LogInBlacklist <==> v.response == ResponseDeny))
      && (forall r :: r in d.records ==> r.ip == ip && r.sessionId == v.sessionId && r.timesamp == now)
  {
  }

  // ---------------------------------------------------------------------
  // init: the whole request
  // ---------------------------------------------------------------------

  /** The configuration calls `init` makes before the exclusion check, in order. */
  function SetupCalls(o: Options, url: string, query: map<string, string>, env: Environment, rebuild: bool): seq<Call> {
    DriverCalls(o, env.uploadDir, env.channel)
    + (if rebuild then [RebuildDriver] else [])
    + [SetLogger(env.uploadDir)]
    + FrequencyCalls(o)
    + FilterCalls(o)
    + ComponentCalls(o, url, query)
    + CaptchaCalls(o)
    + SessionLimitCalls(o)
  }

  /** Whether `init` resets the logs, from the stored last-reset time. */
  function InitReset(o: Options, stored: Option<int>, env: Environment): ResetPlan {
    PlanReset(IsYes(o, "data_reset_circle", DAEMON), stored, env.now, env.midnight)
  }

  /** Everything one `init` does: engine calls, action-log records, and the
      stored last-reset time afterwards. */
  datatype InitResult = InitResult(calls: seq<Call>, records: seq<LogRecord>, stored: Option<int>)

  ghost function InitEffect(o: Options, url: string, query: map<string, string>, ip: string,
                            stored: Option<int>, env: Environment, v: Verdict): InitResult
  {
    var plan := InitReset(o, stored, env);
    var setup := SetupCalls(o, url, query, env, plan.rebuild);
    if Excluded(o, url) then InitResult(setup, [], plan.stored)
    else
      var d := Dispatch(v, ip, env.now);
      InitResult(setup + [Run] + d.calls, d.records, plan.stored)
  }

  /** `set_component` only registers components and fills the Ip lists. */
  lemma ComponentCallsOnlyConfigure(o: Options, url: string, query: map<string, string>)
    ensures forall c :: c in ComponentCalls(o, url, query) ==>
      c.SetComponent? || c.SetAllowedList? || c.SetDeniedList? || c.DenyAll?
  {
  }

  /** Calls that neither run the engine nor rebuild the driver. */
  predicate ConfigurationOnly(calls: seq<Call>) {
    Run !in calls && RebuildDriver !in calls
  }

  /** The order of `init`'s configuration steps, with the steps abstracted. */
  lemma SetupShape(driver: seq<Call>, dir: string, frequency: seq<Call>, filters: seq<Call>,
                   components: seq<Call>, captcha: seq<Call>, session: seq<Call>, rebuild: bool)
    requires ConfigurationOnly(driver) && ConfigurationOnly(frequency) && ConfigurationOnly(filters)
    requires ConfigurationOnly(components) && ConfigurationOnly(captcha) && ConfigurationOnly(session)
    ensures var calls := driver + (if rebuild then [RebuildDriver] else []) + [SetLogger(dir)]
                         + frequency + filters + components + captcha + session;
      Run !in calls && (RebuildDriver in calls <==> rebuild)
  {
  }

  /** No configuration step runs the engine, and only the reset rebuilds the driver. */
  lemma SetupNeverRuns(o: Options, url: string, query: map<string, string>, env: Environment, rebuild: bool)
    ensures Run !in SetupCalls(o, url, query, env, rebuild)
    ensures RebuildDriver in SetupCalls(o, url, query, env, rebuild) <==> rebuild
  {
    ComponentCallsOnlyConfigure(o, url, query);
    assert ConfigurationOnly(ComponentCalls(o, url, query));
    assert ConfigurationOnly(CaptchaCalls(o));
    SetupShape(DriverCalls(o, env.uploadDir, env.channel), env.uploadDir, FrequencyCalls(o), FilterCalls(o),
               ComponentCalls(o, url, query), CaptchaCalls(o), SessionLimitCalls(o), rebuild);
  }

  /** An excluded URL is never run and adds nothing to the log, yet every
      configuration step, the log reset included, has already happened. */
  lemma ExcludedRequestIsNotRun(o: Options, url: string, query: map<string, string>, ip: string,
                                stored: Option<int>, env: Environment, v: Verdict)
    requires Excluded(o, url)
    ensures var r := InitEffect(o, url, query, ip, stored, env, v);
      && Run !in r.calls && r.records == []
      && (RebuildDriver in r.calls <==> InitReset(o, stored, env).rebuild)
      && r.stored == InitReset(o, stored, env).stored
  {
    SetupNeverRuns(o, url, query, env, InitReset(o, stored, env).rebuild);
  }

  /** A URL that is not excluded is run exactly once, right after the whole
      configuration, and leaves at most one log record. */
  lemma ProtectedRequestRunsOnce(o: Options, url: string, query: map<string, string>, ip: string,
                                 stored: Option<int>, env: Environment, v: Verdict)
    requires !Excluded(o, url)
    ensures var r := InitEffect(o, url, query, ip, stored, env, v);
      var n := |SetupCalls(o, url, query, env, InitReset(o, stored, env).rebuild)|;
      && n < |r.calls| && r.calls[n] == Run
      && (forall i :: 0 <= i < |r.calls| && i != n ==> r.calls[i] != Run)
      && |r.records| <= 1
  {
    var setup := SetupCalls(o, url, query, env, InitReset(o, stored, env).rebuild);
    SetupNeverRuns(o, url, query, env, InitReset(o, stored, env).rebuild);
    var d := Dispatch(v, ip, env.now);
    var calls := setup + [Run] + d.calls;
    forall i | 0 <= i < |calls| && i != |setup| ensures calls[i] != Run {
      if i < |setup| {
        assert calls[i] == setup[i] && setup[i] in setup;
      } else {
        assert calls[i] == d.calls[i - |setup| - 1] && d.calls[i - |setup| - 1] in d.calls;
      }
    }
  }
}
