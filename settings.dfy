/**
 * `read_config`: reads the Kodi host, the GPIO receive pin, the RF alert
 * code, the notification text and the local command from an INI file, and
 * yields them all or nothing.
 *
 * The INI file arrives already parsed: a map from (section, option) to the
 * option's string value, as configparser's `get` returns it.
 */
module Settings {

  import opened Wrappers
  import opened Validators

  type Ini = map<(string, string), string>

  /** What the program finds at the configuration path. */
  datatype ConfigFile =
    | Missing          // os.path.exists is false
    | Unparsable       // configparser raises while reading the file
    | Parsed(entries: Ini)

  /** The values `read_config` stores in the module globals. */
  datatype Config = Config(
    hostname: string,   // _kodi_
    port: string,       // _kodi_port_, kept as text: it is only formatted into URLs
    username: string,   // _kodi_user_
    password: string,   // _kodi_passwd_
    rxdata: int,        // _gpio_rxdata_
    alertCode: int,     // _rf_alertcode_
    title: string,      // _notify_title_
    text: string,       // _notify_text_
    command: string     // _exec_local_
  )

  const Kodi := "KODI JSON-RPC"
  const Gpio := "GPIO"
  const RfAlert := "RF Alert"
  const Notification := "Alert Notification"
  const Local := "Local"

  const HostnameKey := (Kodi, "hostname")
  const PortKey := (Kodi, "port")
  const UsernameKey := (Kodi, "username")
  const PasswordKey := (Kodi, "password")
  const RxdataKey := (Gpio, "rxdata")
  const CodeKey := (RfAlert, "code")
  const TitleKey := (Notification, "title")
  const TextKey := (Notification, "text")
  const CommandKey := (Local, "command")

  /** Every option `read_config` asks configparser for. */
  const RequiredKeys: set<(string, string)> :=
    {HostnameKey, PortKey, UsernameKey, PasswordKey, RxdataKey, CodeKey, TitleKey, TextKey, CommandKey}

  /** The file holds every required option, and each passes its check. */
  predicate Acceptable(ini: Ini)
  {
    RequiredKeys <= ini.Keys &&
    IsHostname(ini[HostnameKey]) && IsInt(ini[PortKey]) &&
    IsInt(ini[RxdataKey]) && IsInt(ini[CodeKey])
  }

  /** `cfg` holds exactly the file's values, the pin and the code converted by `int()`. */
  predicate LoadedFrom(cfg: Config, ini: Ini)
  {
    RequiredKeys <= ini.Keys &&
    cfg.hostname == ini[HostnameKey] && cfg.port == ini[PortKey] &&
    cfg.username == ini[UsernameKey] && cfg.password == ini[PasswordKey] &&
    ParseInt(ini[RxdataKey]) == Some(cfg.rxdata) &&
    ParseInt(ini[CodeKey]) == Some(cfg.alertCode) &&
    cfg.title == ini[TitleKey] && cfg.text == ini[TextKey] &&
    cfg.command == ini[CommandKey]
  }

  /** What the rest of the program may rely on once loading succeeded. */
  predicate Valid(cfg: Config)
  {
    IsHostname(cfg.hostname) && IsInt(cfg.port)
  }

  /**
   * `read_config`, in the order the program reads and checks the options.
   * Each early `return None` is a `return False` of the source, whether it
   * comes from a failed check or from configparser raising on a missing
   * section or option.
   */
  method ReadConfig(file: ConfigFile) returns (cfg: Option<Config>)
    ensures cfg.Some? <==> file.Parsed? && Acceptable(file.entries)
    ensures cfg.Some? ==> LoadedFrom(cfg.value, file.entries) && Valid(cfg.value)
    ensures file.Parsed? && !(RequiredKeys <= file.entries.Keys) ==> cfg == None
  {
    if file.Missing? || file.Unparsable? {
      return None;
    }
    var ini := file.entries;

    if HostnameKey !in ini || PortKey !in ini || UsernameKey !in ini || PasswordKey !in ini {
      return None;
    }
    var kodi, port, user, passwd := ini[HostnameKey], ini[PortKey], ini[UsernameKey], ini[PasswordKey];
    if !IsHostname(kodi) || !IsInt(port) {
      return None;
    }

    if RxdataKey !in ini {
      return None;
    }
    var value := ini[RxdataKey];
    if !IsInt(value) {
      return None;
    }
    var rxdata := IntValue(value);

    if CodeKey !in ini {
      return None;
    }
    value := ini[CodeKey];
    if !IsInt(value) {
      return None;
    }
    var alertCode := IntValue(value);

    if TitleKey !in ini || TextKey !in ini || CommandKey !in ini {
      return None;
    }
    var title, text, command := ini[TitleKey], ini[TextKey], ini[CommandKey];

    cfg := Some(Config(kodi, port, user, passwd, rxdata, alertCode, title, text, command));
  }

  /** A configuration written back with `str()` for its integers loads to itself. */
  lemma {:induction false} LoadRoundTrip(cfg: Config)
    requires Valid(cfg)
    ensures Acceptable(Render(cfg)) && LoadedFrom(cfg, Render(cfg))
  {
    ParseFormat(cfg.rxdata);
    ParseFormat(cfg.alertCode);
  }

  /** The INI entries that describe `cfg`. */
  function Render(cfg: Config): (ini: Ini)
    ensures ini.Keys == RequiredKeys
  {
    map[HostnameKey := cfg.hostname, PortKey := cfg.port,
        UsernameKey := cfg.username, PasswordKey := cfg.password,
        RxdataKey := FormatInt(cfg.rxdata), CodeKey := FormatInt(cfg.alertCode),
        TitleKey := cfg.title, TextKey := cfg.text, CommandKey := cfg.command]
  }

}
