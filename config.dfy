/**
 * The persisted settings: the `AppConfig` record with its defaults, and the
 * `ConfigManager` singleton whose setters change one field and rewrite the
 * configuration file. The file is a ghost copy of the record; its TOML
 * encoding is abstracted away.
 */
module Config {
  import opened Wrappers

  datatype AppTheme = Light | Orange | Purple

  datatype AppConfig = AppConfig(
    resolution: string,
    logging: bool,
    theme: AppTheme,
    autoUpdate: bool,
    proxy: string,
    refer: string,
    api: string,
    authToken: string,
    userName: string)

  /** `AppConfig()`: every field at its declared default. */
  function DefaultConfig(): (c: AppConfig)
    ensures c.resolution == "FHD" && !c.logging && c.theme == Orange && !c.autoUpdate
    ensures c.proxy == "" && c.refer == "" && c.api == "" && c.authToken == "" && c.userName == ""
  {
    AppConfig("FHD", false, Orange, false, "", "", "", "", "")
  }

  /** `isValid()`: the API base, the proxy and the referer are all set; nothing else matters. */
  predicate IsValid(c: AppConfig) {
    c.api != "" && c.proxy != "" && c.refer != ""
  }

  /** The default settings are not usable: the three required fields are empty. */
  lemma DefaultIsInvalid()
    ensures !IsValid(DefaultConfig())
  {
  }

  /** Clearing any one of the three required fields makes a configuration unusable. */
  lemma ClearingRequiredInvalidates(c: AppConfig)
    ensures !IsValid(c.(api := "")) && !IsValid(c.(proxy := "")) && !IsValid(c.(refer := ""))
  {
  }

  /** The other fields never affect validity. */
  lemma ValidityIgnoresOtherFields(c: AppConfig, resolution: string, logging: bool, theme: AppTheme,
                                   autoUpdate: bool, token: string, user: string)
    ensures IsValid(c) == IsValid(c.(resolution := resolution, logging := logging, theme := theme,
                                     autoUpdate := autoUpdate, authToken := token, userName := user))
  {
  }

  /** `loadConfig()`: the stored settings when the file exists, the defaults otherwise. */
  function LoadConfig(file: Option<AppConfig>): (c: AppConfig)
    ensures file.None? ==> c == DefaultConfig()
    ensures file.Some? ==> c == file.value
  {
    file.GetOr(DefaultConfig())
  }

  class ConfigManager {
    var config: AppConfig
    /** The contents of `config.toml`, decoded; `None` while the file does not exist. */
    ghost var stored: Option<AppConfig>

    /** Startup: the in-memory settings are loaded from the file, if there is one. */
    constructor(file: Option<AppConfig>)
      ensures stored == file
      ensures config == LoadConfig(file)
    {
      stored := file;
      config := LoadConfig(file);
    }

    /** `isValid()` on the current settings. */
    predicate Ready()
      reads this
    {
      IsValid(config)
    }

    /** `saveConfig()`: the file is rewritten with the current settings, so loading it gives them back. */
    method SaveConfig()
      modifies this
      ensures config == old(config)
      ensures stored == Some(config)
      ensures LoadConfig(stored) == config
    {
      stored := Some(config);
    }

    method SetProxy(proxy: string)
      modifies this
      ensures config == old(config).(proxy := proxy) && stored == Some(config)
    {
      config := config.(proxy := proxy);
      SaveConfig();
    }

    method SetRefer(refer: string)
      modifies this
      ensures config == old(config).(refer := refer) && stored == Some(config)
    {
      config := config.(refer := refer);
      SaveConfig();
    }

    method SetAutoUpdate(autoUpdate: bool)
      modifies this
      ensures config == old(config).(autoUpdate := autoUpdate) && stored == Some(config)
    {
      config := config.(autoUpdate := autoUpdate);
      SaveConfig();
    }

    method SetApi(api: string)
      modifies this
      ensures config == old(config).(api := api) && stored == Some(config)
    {
      config := config.(api := api);
      SaveConfig();
    }

    method SetLogging(logging: bool)
      modifies this
      ensures config == old(config).(logging := logging) && stored == Some(config)
    {
      config := config.(logging := logging);
      SaveConfig();
    }

    method SetTheme(theme: AppTheme)
      modifies this
      ensures config == old(config).(theme := theme) && stored == Some(config)
    {
      config := config.(theme := theme);
      SaveConfig();
    }

    method SetResolution(resolution: string)
      modifies this
      ensures config == old(config).(resolution := resolution) && stored == Some(config)
    {
      config := config.(resolution := resolution);
      SaveConfig();
    }

    method SetToken(token: string)
      modifies this
      ensures config == old(config).(authToken := token) && stored == Some(config)
    {
      config := config.(authToken := token);
      SaveConfig();
    }

    method SetUser(name: string)
      modifies this
      ensures config == old(config).(userName := name) && stored == Some(config)
    {
      config := config.(userName := name);
      SaveConfig();
    }
  }

  /** A fresh start with no file yields the defaults, which are not ready for playback. */
  method FirstStart() returns (m: ConfigManager)
    ensures m.config == DefaultConfig() && m.stored.None? && !m.Ready()
  {
    m := new ConfigManager(None);
  }

  /** Setting the three required fields to non-empty values makes any configuration ready, and it is persisted. */
  method Configure(file: Option<AppConfig>, api: string, proxy: string, refer: string) returns (m: ConfigManager)
    requires api != "" && proxy != "" && refer != ""
    ensures m.Ready() && m.stored == Some(m.config)
    ensures m.config.api == api && m.config.proxy == proxy && m.config.refer == refer
  {
    m := new ConfigManager(file);
    m.SetApi(api);
    m.SetProxy(proxy);
    m.SetRefer(refer);
  }
}
