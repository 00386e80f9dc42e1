/** The alert dispatcher: which channels (Resend e-mail, Twilio SMS) a level
    reaches under a config, the checks each sender makes before calling its
    service, and the gating and levels of the three notification helpers.
    Senders are effects recorded as values: a call to a sender is a `Call`, a
    request to the external service a `Request`, and whether the service
    accepted it is a parameter. Messages are structured values; their text
    rendering (timestamps, HTML) is not modelled. */
module Notifications {
  import opened Common

  /** The `alerts.resend` section; each field is what `.get` yields, an
      absent section or key read as its default (disabled, "", None). */
  datatype ResendConfig = ResendConfig(
    enabled: bool, sendOn: Option<seq<string>>,
    apiKey: string, fromEmail: Option<string>, toEmail: Option<string>)

  /** The `alerts.twilio` section. */
  datatype TwilioConfig = TwilioConfig(
    enabled: bool, sendOn: Option<seq<string>>,
    accountSid: string, authToken: string, fromNumber: string, toNumber: string)

  /** The `alerts` section. */
  datatype AlertsConfig = AlertsConfig(
    resend: ResendConfig, twilio: TwilioConfig,
    knownArrivalNotify: Option<bool>,   // known_device_arrival_notify
    lingerNotify: Option<bool>)         // unknown_ssid_linger_notify

  /** A config argument: None when none was passed and the config file could
      not be loaded (every helper then returns without sending). */
  type Loaded = Option<AlertsConfig>

  /** `send_on` when the key is absent. */
  const DefaultSendOn: seq<string> := ["CRITICAL"]
  /** `from_email` when the key is absent. */
  const DefaultFromEmail: string := "sentinelwatch@yourdomain.com"

  /** The message of an alert. The helpers' messages keep the values they
      interpolate, with the source's substitutes for empty ones. */
  datatype Message =
    | Text(text: string)
    | Arrival(deviceLabel: string, mac: string, signal: Option<int>, stamp: string)
    | Lingering(ssid: string, mac: string, minutes: real, signal: Option<int>, stamp: string)
    | WatchlistHit(deviceLabel: string, mac: string, signal: Option<int>, notes: string, stamp: string)

  /** A call `dispatch_alert` makes: `send_resend_email(subject, message)` or
      `send_twilio_sms(prefix + message)`. */
  datatype Call = EmailCall(subject: string, body: Message) | SmsCall(prefix: string, body: Message)

  /** A request a sender makes to its external service. */
  datatype Request =
    | EmailRequest(from: string, to: string, subject: string, body: Message)
    | SmsRequest(from: string, to: string, prefix: string, body: Message)

  // ─────────────────────── dispatch ───────────────────────

  /** `level.upper() in [l.upper() for l in send_on]`, `send_on` defaulting
      to ["CRITICAL"]. */
  predicate Selected(level: string, sendOn: Option<seq<string>>) {
    Upper(level) in UpperAll(sendOn.GetOr(DefaultSendOn))
  }

  function Subject(level: string): string {
    "[" + level + "] SentinelWatch Alert"
  }

  function SmsPrefix(level: string): string {
    "[" + level + "] "
  }

  /** `dispatch_alert`: the e-mail call first, if any, then the SMS call. */
  function DispatchAlert(level: string, message: Message, config: Loaded): (r: seq<Call>)
    ensures |r| <= 2
    ensures forall c :: c in r ==> c == EmailCall(Subject(level), message) || c == SmsCall(SmsPrefix(level), message)
  {
    if config.None? then []
    else
      var cfg := config.value;
      var email := if cfg.resend.enabled && Selected(level, cfg.resend.sendOn) then [EmailCall(Subject(level), message)] else [];
      var sms := if cfg.twilio.enabled && Selected(level, cfg.twilio.sendOn) then [SmsCall(SmsPrefix(level), message)] else [];
      email + sms
  }

  predicate HasEmail(calls: seq<Call>) { exists c :: c in calls && c.EmailCall? }
  predicate HasSms(calls: seq<Call>) { exists c :: c in calls && c.SmsCall? }

  /** The e-mail sender is called exactly when resend is enabled and the level
      is in its `send_on` list, ignoring case; the SMS sender likewise with the
      twilio section; and the e-mail call comes first. */
  lemma DispatchChannels(level: string, message: Message, config: Loaded)
    ensures var r := DispatchAlert(level, message, config);
      && (HasEmail(r) <==> config.Some? && config.value.resend.enabled && Selected(level, config.value.resend.sendOn))
      && (HasSms(r) <==> config.Some? && config.value.twilio.enabled && Selected(level, config.value.twilio.sendOn))
      && (|r| == 2 ==> r[0].EmailCall? && r[1].SmsCall?)
  {
    var r := DispatchAlert(level, message, config);
    if config.Some? {
      var cfg := config.value;
      if cfg.resend.enabled && Selected(level, cfg.resend.sendOn) {
        assert r[0] in r;
      }
      if cfg.twilio.enabled && Selected(level, cfg.twilio.sendOn) {
        assert r[|r| - 1] in r;
      }
    }
  }

  /** Upper-casing is the same on two strings that differ only in letter case. */
  lemma {:induction false} UpperCaseless(a: string, b: string)
    requires |a| == |b| && forall i :: 0 <= i < |a| ==> UpperChar(a[i]) == UpperChar(b[i])
    ensures Upper(a) == Upper(b)
  {
    if a != [] {
      UpperCaseless(a[1..], b[1..]);
    }
  }

  /** Levels that differ only in letter case reach the same channels. */
  lemma LevelCaseInsensitive(a: string, b: string, message: Message, config: Loaded)
    requires |a| == |b| && forall i :: 0 <= i < |a| ==> UpperChar(a[i]) == UpperChar(b[i])
    ensures HasEmail(DispatchAlert(a, message, config)) == HasEmail(DispatchAlert(b, message, config))
    ensures HasSms(DispatchAlert(a, message, config)) == HasSms(DispatchAlert(b, message, config))
  {
    UpperCaseless(a, b);
    DispatchChannels(a, message, config);
    DispatchChannels(b, message, config);
  }

  /** With no `send_on` list a channel fires only for CRITICAL, in any case. */
  lemma DefaultIsCriticalOnly(level: string)
    ensures Selected(level, None) <==> Upper(level) == Upper("CRITICAL")
  {
    assert DefaultSendOn[1..] == [];
  }

  // ─────────────────────── senders ────────────────────────

  /** `send_resend_email`: no request when resend is disabled or has no API
      key; otherwise one request, and success exactly when the service
      accepted it (`delivered`). */
  function SendResendEmail(subject: string, body: Message, cfg: AlertsConfig, delivered: bool): (r: (bool, Option<Request>))
    ensures r.1.None? <==> !cfg.resend.enabled || cfg.resend.apiKey == ""
    ensures r.0 <==> r.1.Some? && delivered
    ensures r.1.Some? ==> r.1.value.EmailRequest? && r.1.value.subject == subject && r.1.value.body == body
  {
    var rc := cfg.resend;
    if !rc.enabled || rc.apiKey == "" then (false, None)
    else (delivered, Some(EmailRequest(rc.fromEmail.GetOr(DefaultFromEmail), rc.toEmail.GetOr(""), subject, body)))
  }

  /** `send_twilio_sms`: no request when twilio is disabled or any of the
      account SID, auth token, sender and recipient numbers is empty;
      otherwise one request from and to the configured numbers. */
  function SendTwilioSms(prefix: string, body: Message, cfg: AlertsConfig, delivered: bool): (r: (bool, Option<Request>))
    ensures r.1.None? <==> (!cfg.twilio.enabled
      || cfg.twilio.accountSid == "" || cfg.twilio.authToken == "" || cfg.twilio.fromNumber == "" || cfg.twilio.toNumber == "")
    ensures r.0 <==> r.1.Some? && delivered
    ensures r.1.Some? ==> r.1.value == SmsRequest(cfg.twilio.fromNumber, cfg.twilio.toNumber, prefix, body)
  {
    var tc := cfg.twilio;
    if !tc.enabled then (false, None)
    else if tc.accountSid == "" || tc.authToken == "" || tc.fromNumber == "" || tc.toNumber == "" then (false, None)
    else (delivered, Some(SmsRequest(tc.fromNumber, tc.toNumber, prefix, body)))
  }

  /** The request a call leads to, if its sender's checks pass. */
  function Delivered(call: Call, cfg: AlertsConfig): Option<Request> {
    match call
    case EmailCall(subject, body) => SendResendEmail(subject, body, cfg, true).1
    case SmsCall(prefix, body) => SendTwilioSms(prefix, body, cfg, true).1
  }

  /** An SMS call always reaches the service when twilio is fully configured,
      and an e-mail call when resend has a key: the enabled flag checked by
      the dispatcher is checked again by the sender. */
  lemma DispatchedCallsPassChecks(level: string, message: Message, cfg: AlertsConfig)
    ensures forall c :: c in DispatchAlert(level, message, Some(cfg)) && c.EmailCall? ==>
      (Delivered(c, cfg).Some? <==> cfg.resend.apiKey != "")
    ensures forall c :: c in DispatchAlert(level, message, Some(cfg)) && c.SmsCall? ==>
      (Delivered(c, cfg).Some? <==> cfg.twilio.accountSid != "" && cfg.twilio.authToken != "" && cfg.twilio.fromNumber != "" && cfg.twilio.toNumber != "")
  {
    DispatchChannels(level, message, Some(cfg));
  }

  // ─────────────────────── helpers ────────────────────────

  /** The arrival message, as `notify_known_arrival` builds it. */
  function ArrivalMessage(deviceLabel: string, mac: string, signal: Option<int>, stamp: string): Message {
    Arrival(deviceLabel, mac, signal, stamp)
  }

  /** The linger message: an empty SSID is reported as "(hidden)". */
  function LingerMessage(ssid: string, mac: string, minutes: real, signal: Option<int>, stamp: string): (m: Message)
    ensures m.Lingering? && m.mac == mac && m.minutes == minutes && m.signal == signal
    ensures m.ssid == if ssid != "" then ssid else "(hidden)"
  {
    Lingering(if ssid != "" then ssid else "(hidden)", mac, minutes, signal, stamp)
  }

  /** The watchlist message: an empty label is reported as "(unlabeled)" and
      empty notes as "None". */
  function WatchlistMessage(deviceLabel: string, mac: string, signal: Option<int>, notes: string, stamp: string): (m: Message)
    ensures m.WatchlistHit? && m.mac == mac && m.signal == signal
    ensures m.deviceLabel == if deviceLabel != "" then deviceLabel else "(unlabeled)"
    ensures m.notes == if notes != "" then notes else "None"
  {
    WatchlistHit(if deviceLabel != "" then deviceLabel else "(unlabeled)", mac, signal,
                 if notes != "" then notes else "None", stamp)
  }

  /** Every call carries `m`, as an e-mail or an SMS tagged with `level`. */
  predicate AllAt(r: seq<Call>, level: string, m: Message) {
    forall c :: c in r ==> c == EmailCall(Subject(level), m) || c == SmsCall(SmsPrefix(level), m)
  }

  /** `notify_known_arrival`: nothing without a config or when
      `known_device_arrival_notify` is false (default true); whatever is sent
      is the arrival message at INFO. */
  function NotifyKnownArrival(deviceLabel: string, mac: string, signal: Option<int>, config: Loaded, stamp: string): (r: seq<Call>)
    ensures config.None? || !config.value.knownArrivalNotify.GetOr(true) ==> r == []
    ensures AllAt(r, "INFO", ArrivalMessage(deviceLabel, mac, signal, stamp))
  {
    if config.None? || !config.value.knownArrivalNotify.GetOr(true) then []
    else DispatchAlert("INFO", ArrivalMessage(deviceLabel, mac, signal, stamp), config)
  }

  /** `notify_unknown_ssid_linger`: nothing without a config or when
      `unknown_ssid_linger_notify` is false (default true); whatever is sent
      is the linger message at WARNING. */
  function NotifyUnknownSsidLinger(ssid: string, mac: string, minutes: real, signal: Option<int>, config: Loaded, stamp: string): (r: seq<Call>)
    ensures config.None? || !config.value.lingerNotify.GetOr(true) ==> r == []
    ensures AllAt(r, "WARNING", LingerMessage(ssid, mac, minutes, signal, stamp))
  {
    if config.None? || !config.value.lingerNotify.GetOr(true) then []
    else DispatchAlert("WARNING", LingerMessage(ssid, mac, minutes, signal, stamp), config)
  }

  /** `notify_watchlist_hit`: no gate of its own; whatever is sent is the
      watchlist message at CRITICAL. */
  function NotifyWatchlistHit(deviceLabel: string, mac: string, signal: Option<int>, notes: string, config: Loaded, stamp: string): (r: seq<Call>)
    ensures config.None? ==> r == []
    ensures AllAt(r, "CRITICAL", WatchlistMessage(deviceLabel, mac, signal, notes, stamp))
  {
    DispatchAlert("CRITICAL", WatchlistMessage(deviceLabel, mac, signal, notes, stamp), config)
  }

  /** A known arrival reaches the e-mail channel exactly when the config
      loaded, its gate is open, resend is enabled and INFO is in resend's
      `send_on`; the SMS channel likewise with twilio. */
  lemma ArrivalLevel(deviceLabel: string, mac: string, signal: Option<int>, config: Loaded, stamp: string)
    ensures var r := NotifyKnownArrival(deviceLabel, mac, signal, config, stamp);
      var open := config.Some? && config.value.knownArrivalNotify.GetOr(true);
      && (HasEmail(r) <==> open && config.value.resend.enabled && Selected("INFO", config.value.resend.sendOn))
      && (HasSms(r) <==> open && config.value.twilio.enabled && Selected("INFO", config.value.twilio.sendOn))
  {
    DispatchChannels("INFO", ArrivalMessage(deviceLabel, mac, signal, stamp), config);
  }

  /** A lingering device reaches the e-mail channel exactly when the config
      loaded, its gate is open, resend is enabled and WARNING is in resend's
      `send_on`; the SMS channel likewise with twilio. */
  lemma LingerLevel(ssid: string, mac: string, minutes: real, signal: Option<int>, config: Loaded, stamp: string)
    ensures var r := NotifyUnknownSsidLinger(ssid, mac, minutes, signal, config, stamp);
      var open := config.Some? && config.value.lingerNotify.GetOr(true);
      && (HasEmail(r) <==> open && config.value.resend.enabled && Selected("WARNING", config.value.resend.sendOn))
      && (HasSms(r) <==> open && config.value.twilio.enabled && Selected("WARNING", config.value.twilio.sendOn))
  {
    DispatchChannels("WARNING", LingerMessage(ssid, mac, minutes, signal, stamp), config);
  }

  /** A watchlist hit reaches the e-mail channel exactly when the config
      loaded, resend is enabled and CRITICAL is in resend's `send_on`; the SMS
      channel likewise with twilio. No flag of the helper's own gates it. */
  lemma WatchlistHitLevel(deviceLabel: string, mac: string, signal: Option<int>, notes: string, config: Loaded, stamp: string)
    ensures var r := NotifyWatchlistHit(deviceLabel, mac, signal, notes, config, stamp);
      && (HasEmail(r) <==> config.Some? && config.value.resend.enabled && Selected("CRITICAL", config.value.resend.sendOn))
      && (HasSms(r) <==> config.Some? && config.value.twilio.enabled && Selected("CRITICAL", config.value.twilio.sendOn))
  {
    DispatchChannels("CRITICAL", WatchlistMessage(deviceLabel, mac, signal, notes, stamp), config);
  }

  /** With the default `send_on` list, a known arrival sends nothing. */
  lemma ArrivalSilentByDefault(deviceLabel: string, mac: string, signal: Option<int>, cfg: AlertsConfig, stamp: string)
    requires cfg.resend.sendOn.None? && cfg.twilio.sendOn.None?
    ensures NotifyKnownArrival(deviceLabel, mac, signal, Some(cfg), stamp) == []
  {
    DefaultIsCriticalOnly("INFO");
  }

  /** With the default `send_on` list, a lingering device sends nothing. */
  lemma LingerSilentByDefault(ssid: string, mac: string, minutes: real, signal: Option<int>, cfg: AlertsConfig, stamp: string)
    requires cfg.resend.sendOn.None? && cfg.twilio.sendOn.None?
    ensures NotifyUnknownSsidLinger(ssid, mac, minutes, signal, Some(cfg), stamp) == []
  {
    DefaultIsCriticalOnly("WARNING");
  }

  /** With the default `send_on` list, a watchlist hit reaches every enabled
      channel. */
  lemma WatchlistHitByDefault(deviceLabel: string, mac: string, signal: Option<int>, notes: string, cfg: AlertsConfig, stamp: string)
    requires cfg.resend.sendOn.None? && cfg.twilio.sendOn.None?
    ensures var r := NotifyWatchlistHit(deviceLabel, mac, signal, notes, Some(cfg), stamp);
      (HasEmail(r) <==> cfg.resend.enabled) && (HasSms(r) <==> cfg.twilio.enabled)
  {
    DefaultIsCriticalOnly("CRITICAL");
    WatchlistHitLevel(deviceLabel, mac, signal, notes, Some(cfg), stamp);
  }
}
