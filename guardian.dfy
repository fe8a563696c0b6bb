/** `WPSO_Shieldon_Guardian` as an object: it holds the options and the
    request it was built for, and every step of `init` appends to the calls
    made on the Shieldon engine, to the action log, or to the stored
    last-reset time. Each step is proved against the matching function of
    `GuardianRules`. */
module Guardian {
  import opened PhpBuiltins
  import opened ShieldonEngine
  import opened GuardianRules

  class ShieldonGuardian {
    /** The plugin options, as `wpso_get_option` reads them. */
    const options: Options
    /** The query parameters (`$_GET`). */
    const query: map<string, string>
    /** `current_url`: 'http://' with the host and the request URI. */
    const currentUrl: string

    /** The calls made so far on the engine and its components, in order. */
    var calls: seq<Call>
    /** The client IP the engine holds (`getIp()`). */
    var ip: string
    /** The records added to the engine's action logger. */
    var log: seq<LogRecord>
    /** The site option `wpso_last_reset_time`. */
    var lastResetTime: Option<int>

    /** Builds the engine, sets its language and, behind a CDN, the IP taken
        from the CDN's header; `detectedIp` is the IP the engine found itself. */
    constructor (options: Options, server: map<string, string>, query: map<string, string>,
                 lang: string, detectedIp: string, stored: Option<int>)
      ensures this.options == options && this.query == query
      ensures currentUrl == CurrentUrl(server)
      ensures calls == ConstructorCalls(lang, GetOption(options, "is_behind_cdn_service", DAEMON), server)
      ensures ip == match IpOverride(GetOption(options, "is_behind_cdn_service", DAEMON), server)
                    case Some(forwarded) => forwarded
                    case None => detectedIp
      ensures log == [] && lastResetTime == stored
    {
      this.options := options;
      this.query := query;
      currentUrl := "http://" + Lookup(server, "HTTP_HOST") + Lookup(server, "REQUEST_URI");
      calls := [SetProperty("lang", LangCode(lang))];
      ip := detectedIp;
      log := [];
      lastResetTime := stored;
      new;
      var cdn := GetOption(options, "is_behind_cdn_service", DAEMON);
      var header := "";
      if cdn == "cloudflare" {
        header := "HTTP_CF_CONNECTING_IP";
      } else if cdn == "google" || cdn == "aws" {
        header := "HTTP_X_FORWARDED_FOR";
      } else if cdn == "keycdn" || cdn == "others" {
        header := "HTTP_X_FORWARDED_HOST";
      }
      if header != "" && !IsEmpty(Lookup(server, header)) {
        calls := calls + [SetIp(server[header])];
        ip := server[header];
      }
    }

    /** `set_driver`: the driver named by `data_driver_type`, then the channel. */
    method SetDriver(uploadDir: string, channel: string)
      modifies this`calls
      ensures calls == old(calls) + DriverCalls(options, uploadDir, channel)
    {
      var driverType := GetOption(options, "data_driver_type", DAEMON);
      var driver: Driver;
      if driverType == "reids" {
        driver := RedisDriver;
      } else if driverType == "file" {
        driver := FileDriver(uploadDir);
      } else if driverType == "sqlite" {
        driver := SqliteDriver(SqliteFile(uploadDir + "/shieldon.sqlite3"));
      } else {
        driver := SqliteDriver(MysqlDatabase);
      }
      calls := calls + [Call.SetDriver(driver)];
      calls := calls + [SetChannel(channel)];
    }

    /** `reset_logs`: rebuilds the driver and records today's midnight when
        resetting is on and more than a day has passed since the last reset. */
    method ResetLogs(now: int, midnight: int)
      modifies this`calls, this`lastResetTime
      ensures var plan := PlanReset(IsYes(options, "data_reset_circle", DAEMON), old(lastResetTime), now, midnight);
        && lastResetTime == plan.stored
        && calls == old(calls) + (if plan.rebuild then [RebuildDriver] else [])
    {
      if IsYes(options, "data_reset_circle", DAEMON) {
        var last: int;
        if lastResetTime.None? || lastResetTime.value == 0 {
          last := midnight;
        } else {
          last := lastResetTime.value;
        }
        if now - last > DAY_SECONDS {
          last := midnight;
          lastResetTime := Some(last);
          calls := calls + [RebuildDriver];
        }
      }
    }

    /** `set_logger`: an action logger writing under the upload directory. */
    method SetLogger(uploadDir: string)
      modifies this`calls
      ensures calls == old(calls) + [Call.SetLogger(uploadDir)]
    {
      calls := calls + [Call.SetLogger(uploadDir)];
    }

    /** `set_frequency_check`: the four quotas, when the frequency filter is on. */
    method SetFrequencyCheck()
      modifies this`calls
      ensures calls == old(calls) + FrequencyCalls(options)
    {
      if IsYes(options, "enable_filter_frequency", DAEMON) {
        var s := GetOption(options, "$time_unit_quota_s", DAEMON);
        var m := GetOption(options, "$time_unit_quota_m", DAEMON);
        var h := GetOption(options, "$time_unit_quota_h", DAEMON);
        var d := GetOption(options, "$time_unit_quota_d", DAEMON);
        var quota := TimeUnitQuota(
          if IsNumeric(s) && !IsEmpty(s) then IntCast(s) else 2,
          if IsNumeric(m) && !IsEmpty(m) then IntCast(m) else 10,
          if IsNumeric(h) && !IsEmpty(h) then IntCast(h) else 30,
          if IsNumeric(d) && !IsEmpty(d) then IntCast(d) else 60);
        calls := calls + [SetProperty("time_unit_quota", Quotas(quota))];
      }
    }

    /** `set_filters`: each filter on exactly when its option is 'yes'. */
    method SetFilters()
      modifies this`calls
      ensures calls == old(calls) + FilterCalls(options)
    {
      var config := FilterConfig(
        IsYes(options, "enable_filter_session", FILTER),
        IsYes(options, "enable_filter_cookie", FILTER),
        IsYes(options, "enable_filter_referer", FILTER),
        IsYes(options, "enable_filter_frequency", DAEMON));
      calls := calls + [Call.SetFilters(config)];
    }

    /** The lists and deny-all switch of one zone, as each branch of `ip_manager` applies them. */
    method ApplyZone(z: Zone)
      requires z == ZoneOf(currentUrl)
      modifies this`calls
      ensures calls == old(calls) + IpManagerCalls(options, currentUrl, query)
    {
      var allowed := ZoneOption(options, z, "_whitelist");
      var denied := ZoneOption(options, z, "_blacklist");
      var denyAll := ZoneOption(options, z, "_deny_all");
      ghost var before := calls;
      if !IsEmpty(allowed) {
        calls := calls + [SetAllowedList(Explode(allowed))];
      }
      if !IsEmpty(denied) {
        calls := calls + [SetDeniedList(Explode(denied))];
      }
      var isPasscode := false;
      if z == LoginZone {
        var passcode := GetOption(options, "deny_all_passcode", ZoneSection(LoginZone));
        isPasscode := passcode in query;
      }
      if !isPasscode && denyAll == "yes" {
        calls := calls + [DenyAll];
      }
      assert calls == before + IpManagerCalls(options, currentUrl, query);
    }

    /** `ip_manager`: the zone of the first page name found in the URL (login,
        signup, xmlrpc), else the global zone. */
    method IpManager()
      modifies this`calls
      ensures calls == old(calls) + IpManagerCalls(options, currentUrl, query)
    {
      if StrPos(currentUrl, LOGIN_PAGE).Some? {
        ApplyZone(LoginZone);
      } else if StrPos(currentUrl, SIGNUP_PAGE).Some? {
        ApplyZone(SignupZone);
      } else if StrPos(currentUrl, XMLRPC_PAGE).Some? {
        ApplyZone(XmlrpcZone);
      } else {
        ApplyZone(GlobalZone);
      }
    }

    /** `set_component`: Ip and its zone lists, then the optional components. */
    method SetComponent()
      modifies this`calls
      ensures calls == old(calls) + ComponentCalls(options, currentUrl, query)
    {
      ghost var before := calls;
      calls := calls + [Call.SetComponent(IpComponent)];
      IpManager();
      Extend(before, [Call.SetComponent(IpComponent)], IpManagerCalls(options, currentUrl, query));
      SetOptionalComponents();
      Extend(before, [Call.SetComponent(IpComponent)] + IpManagerCalls(options, currentUrl, query),
             OptionalComponentCalls(options));
    }

    /** The TrustedBot, Header, UserAgent and Rdns registrations of
        `set_component`, each made strict when its strict-mode option is 'yes'. */
    method SetOptionalComponents()
      modifies this`calls
      ensures calls == old(calls) + OptionalComponentCalls(options)
    {
      ghost var before := calls;
      var trustedBot := IsYes(options, "enable_component_trustedbot", COMPONENTS);
      AddComponent(trustedBot, TrustedBotComponent);
      ghost var done := OptionalCall(trustedBot, TrustedBotComponent);

      var header := IsYes(options, "enable_component_header", COMPONENTS);
      var headerStrict := IsYes(options, "header_strict_mode", COMPONENTS);
      AddComponent(header, HeaderComponent(headerStrict));
      Extend(before, done, OptionalCall(header, HeaderComponent(headerStrict)));
      done := done + OptionalCall(header, HeaderComponent(headerStrict));

      var agent := IsYes(options, "enable_component_agent", COMPONENTS);
      var agentStrict := IsYes(options, "agent_strict_mode", COMPONENTS);
      AddComponent(agent, UserAgentComponent(agentStrict));
      Extend(before, done, OptionalCall(agent, UserAgentComponent(agentStrict)));
      done := done + OptionalCall(agent, UserAgentComponent(agentStrict));

      var rdns := IsYes(options, "enable_component_rdns", COMPONENTS);
      var rdnsStrict := IsYes(options, "rdns_strict_mode", COMPONENTS);
      AddComponent(rdns, RdnsComponent(rdnsStrict));
      Extend(before, done, OptionalCall(rdns, RdnsComponent(rdnsStrict)));
    }

    /** One `if ( 'yes' === ... )` block of `set_component`: registers `c` when enabled. */
    method AddComponent(enabled: bool, c: Component)
      modifies this`calls
      ensures calls == old(calls) + OptionalCall(enabled, c)
    {
      if enabled {
        calls := calls + [Call.SetComponent(c)];
      }
    }

    /** Appending `done` and then `more` appends `done + more`. */
    lemma Extend(before: seq<Call>, done: seq<Call>, more: seq<Call>)
      ensures before + done + more == before + (done + more)
    {
    }

    /** `set_captcha`: reCAPTCHA, then the image CAPTCHA with its pool. */
    method SetCaptcha()
      modifies this`calls
      ensures calls == old(calls) + CaptchaCalls(options)
    {
      ghost var before := calls;
      if IsYes(options, "enable_captcha_google", CAPTCHA) {
        var key := GetOption(options, "google_recaptcha_key", CAPTCHA);
        var secret := GetOption(options, "google_recaptcha_secret", CAPTCHA);
        var version := GetOption(options, "google_recaptcha_version", CAPTCHA);
        var lang := GetOption(options, "google_recaptcha_version", CAPTCHA);
        calls := calls + [Call.SetCaptcha(Recaptcha(key, secret, version, lang))];
      }
      if IsYes(options, "enable_captcha_image", CAPTCHA) {
        var wordLength := GetOption(options, "image_captcha_length", CAPTCHA);
        var captchaType := GetOption(options, "image_captcha_type", CAPTCHA);
        var pool: string;
        if captchaType == "numeric" {
          pool := NUMERIC_POOL;
        } else if captchaType == "alpha" {
          pool := ALPHA_POOL;
        } else {
          pool := ALNUM_POOL;
        }
        calls := calls + [Call.SetCaptcha(ImageCaptcha(wordLength, pool))];
      }
      assert calls == before + CaptchaCalls(options);
    }

    /** `set_session_limit`: the cap and the period in seconds, when enabled. */
    method SetSessionLimit()
      modifies this`calls
      ensures calls == old(calls) + SessionLimitCalls(options)
    {
      if IsYes(options, "enable_online_session_limit", DAEMON) {
        var onlineUsers := GetOption(options, "session_limit_count", DAEMON);
        var alivePeriod := GetOption(options, "session_limit_period", DAEMON);
        var count := if IsNumeric(onlineUsers) && !IsEmpty(onlineUsers) then IntCast(onlineUsers) else 100;
        var period := if IsNumeric(alivePeriod) && !IsEmpty(alivePeriod) then IntCast(alivePeriod) * 60 else 300;
        calls := calls + [LimitSession(count, period)];
      }
    }

    /** `is_excluded_list`: the lines of the exclusion list are tried in order,
        then the login, signup and xmlrpc page exclusions. */
    method IsExcludedList() returns (excluded: bool)
      ensures excluded == Excluded(options, currentUrl)
    {
      var list := GetOption(options, "excluded_urls", EXCLUSION);
      if !IsEmpty(list) {
        var urls := Explode(list);
        var i := 0;
        while i < |urls|
          invariant 0 <= i <= |urls|
          invariant forall k :: 0 <= k < i ==> !Contains(currentUrl, urls[k])
        {
          if StrPos(currentUrl, urls[i]).Some? {
            assert urls[i] in urls;
            return true;
          }
          i := i + 1;
        }
      }
      if IsYes(options, "excluded_page_login", EXCLUSION) {
        if StrPos(currentUrl, LOGIN_PAGE).Some? {
          return true;
        }
      }
      if IsYes(options, "excluded_page_signup", EXCLUSION) {
        if StrPos(currentUrl, SIGNUP_PAGE).Some? {
          return true;
        }
      }
      if IsYes(options, "excluded_page_xmlrpc", EXCLUSION) {
        if StrPos(currentUrl, XMLRPC_PAGE).Some? {
          return true;
        }
      }
      return false;
    }

    /** `init`: configure the engine, stop for an excluded URL, otherwise run
        it and act on its verdict. `ran` is false exactly when `init` returned early. */
    method Init(uploadDir: string, channel: string, now: int, midnight: int, v: Verdict) returns (ran: bool)
      modifies this`calls, this`log, this`lastResetTime
      ensures ran <==> !Excluded(options, currentUrl)
      ensures var r := InitEffect(options, currentUrl, query, ip, old(lastResetTime),
                                  Environment(uploadDir, channel, now, midnight), v);
        && calls == old(calls) + r.calls
        && log == old(log) + r.records
        && lastResetTime == r.stored
    {
      ghost var before := calls;
      Configure(uploadDir, channel, now, midnight);
      ghost var setup := SetupCalls(options, currentUrl, query, Environment(uploadDir, channel, now, midnight),
                                    InitReset(options, old(lastResetTime), Environment(uploadDir, channel, now, midnight)).rebuild);

      var excluded := IsExcludedList();
      if excluded {
        return false;
      }

      calls := calls + [Run];
      Extend(before, setup, [Run]);
      Respond(v, now);
      Extend(before, setup + [Run], Dispatch(v, ip, now).calls);
      return true;
    }

    /** The eight configuration steps `init` takes before the exclusion check. */
    method Configure(uploadDir: string, channel: string, now: int, midnight: int)
      modifies this`calls, this`lastResetTime
      ensures var env := Environment(uploadDir, channel, now, midnight);
        var plan := InitReset(options, old(lastResetTime), env);
        && calls == old(calls) + SetupCalls(options, currentUrl, query, env, plan.rebuild)
        && lastResetTime == plan.stored
    {
      ghost var env := Environment(uploadDir, channel, now, midnight);
      ghost var plan := InitReset(options, lastResetTime, env);
      ghost var before := calls;
      SetDriver(uploadDir, channel);
      ghost var done := DriverCalls(options, uploadDir, channel);
      ResetLogs(now, midnight);
      Extend(before, done, if plan.rebuild then [RebuildDriver] else []);
      done := done + (if plan.rebuild then [RebuildDriver] else []);
      SetLogger(uploadDir);
      Extend(before, done, [Call.SetLogger(uploadDir)]);
      done := done + [Call.SetLogger(uploadDir)];
      SetFrequencyCheck();
      Extend(before, done, FrequencyCalls(options));
      done := done + FrequencyCalls(options);
      SetFilters();
      Extend(before, done, FilterCalls(options));
      done := done + FilterCalls(options);
      SetComponent();
      Extend(before, done, ComponentCalls(options, currentUrl, query));
      done := done + ComponentCalls(options, currentUrl, query);
      SetCaptcha();
      Extend(before, done, CaptchaCalls(options));
      done := done + CaptchaCalls(options);
      SetSessionLimit();
      Extend(before, done, SessionLimitCalls(options));
    }

    /** What `init` does after `run()`: ALLOW counts a page view; any other
        result asks the CAPTCHA, unbans when it is solved or else logs the
        block for a session, and outputs the result page with status 200. */
    method Respond(v: Verdict, now: int)
      modifies this`calls, this`log
      ensures calls == old(calls) + Dispatch(v, ip, now).calls
      ensures log == old(log) + Dispatch(v, ip, now).records
    {
      if v.response != ResponseAllow {
        calls := calls + [CaptchaResponse];
        if v.captchaSolved {
          calls := calls + [Unban];
        } else {
          var sessionId := v.sessionId;
          var actionCode := LogInCaptcha;
          var reasonCode := 999;
          if v.response == ResponseDeny {
            actionCode := LogInBlacklist;
          }
          if !IsEmpty(sessionId) {
            log := log + [LogRecord(ip, sessionId, actionCode, reasonCode, now)];
          }
        }
        calls := calls + [Output(200)];
      } else {
        log := log + [LogRecord(ip, v.sessionId, LogPageview, 0, now)];
      }
    }
  }
}
