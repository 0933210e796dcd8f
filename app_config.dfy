/**
 Configuration loading (app/utils/config.py). The two environment reads
 become parameters: `None` is an unset variable, `Some(v)` a set one.
 */
module AppConfig {
  import opened Wrappers

  /** The two-field configuration dictionary `{supabase_url, supabase_key}`. */
  datatype Config = Config(supabaseUrl: string, supabaseKey: string)

  /** The placeholder pair used when configuration is missing; the service
      compares against exactly this pair to select demo mode. */
  const DemoUrl: string := "https://demo.supabase.co"
  const DemoKey: string := "demo-anon-key"
  const DemoConfig: Config := Config(DemoUrl, DemoKey)

  /** Python's `not v` on the result of `os.getenv`: unset or empty. */
  predicate Missing(v: Option<string>) {
    v.None? || v.value == ""
  }

  /** Falls back to the demo pair when either value is missing, so the
      result never carries an empty URL or key. */
  function LoadConfig(url: Option<string>, key: Option<string>): (c: Config)
    ensures Missing(url) || Missing(key) ==> c == DemoConfig
    ensures !Missing(url) && !Missing(key) ==>
              c.supabaseUrl == url.value && c.supabaseKey == key.value
    ensures c.supabaseUrl != "" && c.supabaseKey != ""
  {
    if Missing(url) || Missing(key) then DemoConfig
    else Config(url.value, key.value)
  }
}
