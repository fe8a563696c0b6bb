# wp-shieldon guardian, modelled in Dafny

This project models `WPSO_Shieldon_Guardian`, the controller that the
wp-shieldon WordPress plugin runs on every request. The guardian reads the
plugin options and the request and configures the external Shieldon engine:

- the data driver and channel;
- the daily log reset;
- the action logger;
- frequency quotas and filters;
- the Ip, TrustedBot, Header, UserAgent and Rdns components, with the IP
  zone lists;
- the CAPTCHA instances;
- the online-session limit.

It then skips protection for excluded URLs. Otherwise it runs the engine and
acts on the verdict: it counts a page view, unbans after a solved CAPTCHA, or
logs the block and shows the result page.

The engine itself (rate limiting, sessions, CAPTCHA checks, storage) lives in
the Shieldon library, which is not part of this model. The model treats it as
a recorder of the calls made on it, plus an append-only action log.

Modules:

- `PhpBuiltins`: the PHP 8 behaviour the guardian relies on.
  - `empty()` on strings.
  - `strpos`.
  - `explode(PHP_EOL, …)` with `PHP_EOL` as `"\n"`, and its inverse `implode`.
  - `is_numeric` and the `(int)` cast: truncation toward zero, saturated to
    the 64-bit range.
  - The decimal rendering of an integer, the partner of `(int)`.
- `ShieldonEngine`: the values passed to the engine.
  - Drivers, components, CAPTCHA configurations and filter switches.
  - A datatype of recorded calls.
  - Action-log records. The time field keeps the source's spelling `timesamp`.
- `GuardianRules`: each step of the guardian as a function of the options and
  the request, with the lemmas about it:
  - the CDN client-IP header;
  - the driver chosen by name (the misspelt `'reids'` selects Redis);
  - the quota and session defaults;
  - the CAPTCHA pools;
  - the exclusion rule;
  - the IP zone router;
  - component registration order;
  - the reset decision;
  - the post-run dispatch;
  - the whole of `init`.
- `Guardian`: the class `ShieldonGuardian`.
  - It has the fields `calls`, `ip`, `log` and `lastResetTime`.
  - It has one method per private method of the source.
  - Each method is proved to append exactly what the matching `GuardianRules`
    function describes.
  - `IsExcludedList` is the source's `foreach` loop with an early return. It is
    proved equal to the existential rule `Excluded`.

Some of what the proofs show about the code as written:

- The option names for the quotas start with a literal `$`. If no such option
  is saved, the quotas are always 2/10/30/60.
- A decimal option such as `"1.5"` is truncated. `"0.5"` minutes gives a period
  of 0, not the default.
- The exclusion list is split on line breaks, so an empty line (a trailing line
  break, say) is an empty entry. `strpos` finds an empty entry in every URL, so
  such a list excludes every request.
- The page checks search the whole URL, query string included:
  `/shop?wp-login.php` falls in the login zone, and is excluded whenever the
  login page is.
- The deny-all passcode only matters in the login zone.
- `reset_logs` ("Remove all logs") calls `driver->rebuild()`. The driver is a
  different object from the action logger, so the model records the `rebuild`
  call and leaves `log` untouched.

## Model

| member | source | states |
|---|---|---|
| PhpBuiltins.IsEmpty | src/class-wpso-shieldon.php:159 | `empty()` holds of "" and "0" only; other numeric strings worth 0, such as "00" or "0.0", are not empty |
| PhpBuiltins.EmptyAmongZeroNumerals | src/class-wpso-shieldon.php:159 | of the numeric strings that cast to 0, only "0" is empty; "00" is numeric, casts to 0 and is kept |
| PhpBuiltins.ParseNumeral | src/class-wpso-shieldon.php:159 | a string `is_numeric` accepts has at least one digit, and its whole and fraction parts are digit strings |
| PhpBuiltins.Explode | src/class-wpso-shieldon.php:468 | `explode(PHP_EOL, …)` always gives at least one piece, an empty one for an empty string |
| PhpBuiltins.StrPos | src/class-wpso-shieldon.php:471 | `strpos` finds a needle exactly when it occurs, and answers the first position (an empty needle is found at 0) |
| PhpBuiltins.ImplodeExplode | src/class-wpso-shieldon.php:468 | joining the pieces of `explode(PHP_EOL, s)` with line breaks gives `s` back |
| PhpBuiltins.ExplodeImplode | src/class-wpso-shieldon.php:468 | splitting a join of line-free pieces gives the pieces back, so each listed line is an entry |
| PhpBuiltins.ExplodeSeparatorFree | src/class-wpso-shieldon.php:468 | no piece of `explode` contains a line break |
| PhpBuiltins.ExplodeTrailingSeparator | src/class-wpso-shieldon.php:468 | a string ending in a line break explodes to a last piece that is empty |
| PhpBuiltins.IntCast | src/class-wpso-shieldon.php:159 | `(int)` of a numeric string lies in the 64-bit range |
| PhpBuiltins.IntCastOfIntToString | src/class-wpso-shieldon.php:159 | every 64-bit integer's decimal rendering is numeric and `(int)` reads it back unchanged |
| PhpBuiltins.IntCastTruncatesFraction | src/class-wpso-shieldon.php:421 | `(int)` of `whole.fraction` is the whole part: the fraction is dropped |
| GuardianRules.RequestUriInCurrentUrl | src/class-wpso-shieldon.php:42 | whatever occurs in the request URI, the query string included, occurs in the current URL the page checks search |
| GuardianRules.LoginPageInQueryString | src/class-wpso-shieldon.php:477-482 | a URI such as `/shop?wp-login.php` is in the login zone, and is excluded whenever the login page is excluded |
| GuardianRules.CdnIpHeader | src/class-wpso-shieldon.php:46-68 | a header is selected exactly for cloudflare, google, aws, keycdn and others, and it is one of the three forwarding headers |
| GuardianRules.CdnHeaderPerSetting | src/class-wpso-shieldon.php:46-63 | cloudflare reads `HTTP_CF_CONNECTING_IP`; google and aws read `HTTP_X_FORWARDED_FOR`; keycdn and others read `HTTP_X_FORWARDED_HOST` |
| GuardianRules.IpOverride | src/class-wpso-shieldon.php:44-68 | `setIp` happens exactly when the CDN setting selects a header and that header is not empty, and it passes that header's value |
| GuardianRules.IpOverrideReadsOnlySelectedHeader | src/class-wpso-shieldon.php:44-68 | the IP override depends on the selected header and on nothing else in the request |
| GuardianRules.NoCdnKeepsDetectedIp | src/class-wpso-shieldon.php:66-67 | with `'no'` or an unknown CDN value the constructor never calls `setIp`, whatever the language |
| GuardianRules.DriverFor | src/class-wpso-shieldon.php:199-284 | the file driver exactly for 'file', in the upload directory; the SQLite file in the upload directory; MySQL for every name but 'reids', 'file' and 'sqlite' |
| GuardianRules.RedisOnlyThroughMisspelling | src/class-wpso-shieldon.php:199-284 | Redis is chosen exactly for `'reids'`; `'redis'` and `'mysql'` both get the MySQL PDO inside `SqliteDriver` |
| GuardianRules.NumericOption | src/class-wpso-shieldon.php:159-162 | a usable option value lies in the 64-bit range |
| GuardianRules.NumericOptionOfDigits | src/class-wpso-shieldon.php:159-162 | a digit string other than "0" is used as its value, leading zeros included, capped at PHP_INT_MAX |
| GuardianRules.NumericOptionOfInt | src/class-wpso-shieldon.php:159-162 | the rendering of any non-zero 64-bit integer is read back as that integer |
| GuardianRules.FractionalOptionTruncates | src/class-wpso-shieldon.php:420-421 | a decimal option is truncated, and its session period is the truncated minutes times 60 |
| GuardianRules.UnusableOptionFallsBack | src/class-wpso-shieldon.php:159-162 | "", "0" and non-numeric text give the default |
| GuardianRules.FrequencyQuota | src/class-wpso-shieldon.php:159-162 | every quota lies in the 64-bit range |
| GuardianRules.FrequencyQuotaUnits | src/class-wpso-shieldon.php:154-162 | each unit on its own is its option's integer, or 2/10/30/60 when that option is unusable, in any mix of the two |
| GuardianRules.DefaultQuotas | src/class-wpso-shieldon.php:154-157 | when no option name starts with `$`, all four quotas are 2/10/30/60 |
| GuardianRules.SessionLimitOfNumbers | src/class-wpso-shieldon.php:420-421 | a session count of n gives n users; a period of n minutes gives n * 60 seconds |
| GuardianRules.OnlineUsers | src/class-wpso-shieldon.php:420 | the session cap lies in the 64-bit range |
| GuardianRules.AlivePeriod | src/class-wpso-shieldon.php:421 | the alive period is a whole number of minutes, in seconds |
| GuardianRules.UnusableSessionOptionsFallBack | src/class-wpso-shieldon.php:420-421 | every unusable value ("", "0", non-numeric text) gives a cap of 100 and a period of 300 seconds, which is what "5" minutes gives |
| GuardianRules.FrequencyFilterMatchesQuotas | src/class-wpso-shieldon.php:175-179 | the frequency filter is on exactly when quotas are set |
| GuardianRules.CaptchaPool | src/class-wpso-shieldon.php:389-401 | every pool but 'numeric' has lower-case letters; only the default pool has upper-case ones |
| GuardianRules.CaptchaPoolsNest | src/class-wpso-shieldon.php:389-401 | every pool starts with the digits and lies inside the 62-character pool; pools have 10, 36 or 62 characters; any type other than numeric or alpha gets the full pool |
| GuardianRules.RecaptchaLangIsVersion | src/class-wpso-shieldon.php:373-376 | the reCAPTCHA `lang` and `verion` both hold the version option |
| GuardianRules.Excluded | src/class-wpso-shieldon.php:463-499 | with an empty list ("" or "0") and no page exclusion switched on, no URL is excluded |
| GuardianRules.ExcludedByListedLine | src/class-wpso-shieldon.php:465-474 | a list written as lines excludes every URL that contains one of the lines |
| GuardianRules.TrailingLineBreakExcludesEverything | src/class-wpso-shieldon.php:467-474 | an exclusion list ending in a line break excludes every URL |
| GuardianRules.ZoneOf | src/class-wpso-shieldon.php:506-572 | the zone is login iff the URL has `wp-login.php`; else signup iff it has `wp-signup.php`; else xmlrpc iff it has `xmlrpc.php`; else global |
| GuardianRules.IpManagerAppliesZone | src/class-wpso-shieldon.php:504-593 | the allow and deny lists set are those of the URL's zone, split on line breaks, and only when non-empty; `denyAll` iff the zone's deny-all is 'yes', and in the login zone only without the passcode |
| GuardianRules.PasscodeOnlyInLoginZone | src/class-wpso-shieldon.php:523-528 | outside the login zone the query string does not change `ip_manager` |
| GuardianRules.IpManagerReadsOneZone | src/class-wpso-shieldon.php:504-593 | `ip_manager` depends only on the options of the URL's zone section |
| GuardianRules.IpManagerCalls | src/class-wpso-shieldon.php:504-593 | `ip_manager` makes at most three calls, and only sets lists and deny-all on the Ip component |
| GuardianRules.RegisteredComponentCalls | src/class-wpso-shieldon.php:295-362 | the components registered are Ip, then the enabled optional components |
| GuardianRules.ComponentRegistrationOrder | src/class-wpso-shieldon.php:295-362 | Ip comes first; the order is Ip, TrustedBot, Header, UserAgent, Rdns; each optional one is present iff enabled; each is strict iff its strict-mode option is 'yes' |
| GuardianRules.ComponentCallsOnlyConfigure | src/class-wpso-shieldon.php:295-362 | `set_component` only registers components and fills the Ip lists |
| GuardianRules.PlanReset | src/class-wpso-shieldon.php:434-455 | the stored time is either kept or set to today's midnight; with resetting off nothing happens |
| GuardianRules.ResetRule | src/class-wpso-shieldon.php:432-456 | rebuild exactly when enabled and strictly more than 86400 s have passed since the last reset, and then store today's midnight; otherwise the stored time is unchanged; exactly 86400 s does not rebuild |
| GuardianRules.ResetAtMostOncePerDay | src/class-wpso-shieldon.php:446-450 | after a rebuild, no later request of the same day rebuilds again |
| GuardianRules.ResetNextDay | src/class-wpso-shieldon.php:446-450 | after a reset stored at one midnight, the driver is rebuilt again as soon as the next day has begun: by any request strictly after the next midnight |
| GuardianRules.UnsetResetTimeNeverRebuilds | src/class-wpso-shieldon.php:440-441 | a missing or zero last-reset time counts as today's midnight, so no request that day rebuilds |
| GuardianRules.Dispatch | src/class-wpso-shieldon.php:95-133 | the dispatch never runs the engine again nor rebuilds the driver, and writes at most one record |
| GuardianRules.DispatchOutcomes | src/class-wpso-shieldon.php:95-133 | ALLOW logs one page view with reason 0 and makes no call; a blocked request never logs a page view: a solved CAPTCHA unbans and logs nothing, an unsolved one logs exactly one record (reason 999, blacklist for DENY, captcha otherwise) iff the session id is not empty; a solved CAPTCHA calls exactly `captchaResponse`, `unban`, `output(200)`, an unsolved one exactly `captchaResponse`, `output(200)` |
| GuardianRules.SetupNeverRuns | src/class-wpso-shieldon.php:78-85 | no configuration step runs the engine, and the driver is rebuilt iff the reset decides so |
| GuardianRules.ExcludedRequestIsNotRun | src/class-wpso-shieldon.php:78-90 | an excluded URL is never run and adds no record, yet all configuration, the reset included, has happened |
| GuardianRules.ProtectedRequestRunsOnce | src/class-wpso-shieldon.php:88-93 | a URL that is not excluded is run exactly once, right after the configuration, and adds at most one record |
| ShieldonEngine.RegisteredMembership | src/class-wpso-shieldon.php:301 | a component is registered exactly when some `setComponent` call passed it |
| Guardian.ShieldonGuardian.constructor | src/class-wpso-shieldon.php:33-69 | the engine gets the language; then the CDN header's IP if there is one, else it keeps the detected IP; the log starts empty |
| Guardian.ShieldonGuardian.SetDriver | src/class-wpso-shieldon.php:195-288 | appends the driver chosen by name, then the channel |
| Guardian.ShieldonGuardian.ResetLogs | src/class-wpso-shieldon.php:432-456 | the stored reset time and the rebuild call follow the reset decision |
| Guardian.ShieldonGuardian.SetLogger | src/class-wpso-shieldon.php:600-605 | appends an action logger on the upload directory |
| Guardian.ShieldonGuardian.SetFrequencyCheck | src/class-wpso-shieldon.php:150-166 | appends the quotas, only when the frequency filter is 'yes' |
| Guardian.ShieldonGuardian.SetFilters | src/class-wpso-shieldon.php:173-182 | appends the four filter switches |
| Guardian.ShieldonGuardian.IpManager | src/class-wpso-shieldon.php:504-593 | appends the lists and deny-all of the URL's zone |
| Guardian.ShieldonGuardian.SetComponent | src/class-wpso-shieldon.php:295-362 | appends Ip, the zone lists, then the enabled components |
| Guardian.ShieldonGuardian.SetCaptcha | src/class-wpso-shieldon.php:369-406 | appends reCAPTCHA and then the image CAPTCHA, each when enabled |
| Guardian.ShieldonGuardian.SetSessionLimit | src/class-wpso-shieldon.php:413-425 | appends `limitSession`, only when enabled |
| Guardian.ShieldonGuardian.IsExcludedList | src/class-wpso-shieldon.php:463-499 | the loop answers true exactly when a line of a non-empty list occurs in the URL, or an enabled page exclusion's file name does |
| Guardian.ShieldonGuardian.Respond | src/class-wpso-shieldon.php:95-133 | appends the calls and records of the dispatch for the verdict |
| Guardian.ShieldonGuardian.Configure | src/class-wpso-shieldon.php:78-85 | appends the eight configuration steps in order, with the rebuild the reset decides, and stores the reset time it decides |
| Guardian.ShieldonGuardian.Init | src/class-wpso-shieldon.php:76-134 | returns whether the URL was protected; the calls, the log and the stored reset time are exactly those of one `init` |

## Left out

- The Shieldon library is not part of this model. That covers `run`,
  `captchaResponse`, `unban`, `output`, `getSessionId`, the components, the
  CAPTCHA classes, the drivers and `ActionLogger`.
  - The model records the calls made on the library.
  - The verdict of `run()`, the CAPTCHA answer and the session id are inputs
    (`Verdict`).
  - No rate limiting or session tracking is modelled.
- `set_driver` does not model connecting to Redis, SQLite or MySQL. Its exception handling, the `echo` of the error and the early `return false` that skips `setChannel` are also left out; only the driver chosen by name is recorded. The Redis branch catches `PDOException`, which a Redis connection does not throw. That is I/O behaviour and is outside the model too.
- `front_print_footer_scripts` and the `add_action` that `set_filters` registers for the cookie filter are left out: they are HTML output and hook wiring.
- The admin IP manager settings page is not part of this model: it is UI configuration. The plugin bootstrap, its constants and its activation work are not part of this model either.
- The numeric values of `WPSO_LOG_PAGEVIEW`, `WPSO_LOG_IN_BLACKLIST` and `WPSO_LOG_IN_CAPTCHA` are not defined in the core file. They appear as the three cases of `ActionCode`.
- Several inputs come from outside the model:
  - `time()` and `strtotime(date('Y-m-d 00:00:00'))` are passed in as `now` and `midnight`.
  - `wpso_get_lang()`, `wpso_get_upload_dir()` and `wpso_get_channel_id()` are passed in as parameters.
  - `wpso_get_option` is a map in which an option never saved reads as "".
  - `get_option('wpso_last_reset_time')` is an `Option<int>`. `None` and 0 are the empty values.
  - The IP the engine detects by itself is a constructor parameter.
- PHP 7 differences are left out: `strpos` with an empty needle, and `is_numeric` rejecting trailing white space. The model follows PHP 8.
- PhpBuiltins.IntCast: does not model float parsing. A numeral with a fraction or an exponent is truncated exactly, where PHP goes through a double that can round or become INF before the cast.
- GuardianRules.AlivePeriod: does not model the overflow of `(int) $v * 60` to a float when the minutes exceed PHP_INT_MAX / 60; the product is left unbounded.
- `PHP_EOL` is modelled as `"\n"`. On Windows it is `"\r\n"`.
- Guardian.ShieldonGuardian.ResetLogs: `set_option` (src/class-wpso-shieldon.php:450) is not a WordPress core function and is not defined in the files modelled. The model assumes it stores the option that `get_option` reads at line 438. Were it undefined, PHP would throw at line 450 and the `rebuild()` at line 453 would never run. `ResetAtMostOncePerDay` and `ResetNextDay` rest on this assumption.
