/**
 * The settings commands: default application settings, the stored
 * settings document, and the Anthropic API key's format check and mask.
 * The key-value settings table is a map; JSON encoding and decoding are
 * parameters.
 */
module Settings {
  import opened Wrappers
  import opened Text

  datatype AppSettings = AppSettings(
    theme: string,
    defaultTaxYear: int,
    defaultFilingStatus: string,
    defaultState: Option<string>,
    autoSave: bool,
    showTooltips: bool,
    currencyFormat: string,
    dateFormat: string)

  datatype ApiKeyStatus = ApiKeyStatus(configured: bool, maskedKey: Option<string>)

  /** The settings table: key to stored text. */
  type SettingStore = map<string, string>

  const SettingsKey: string := "app_settings"
  const ApiKeyKey: string := "anthropic_api_key"
  const AnthropicKeyPrefix: string := "sk-ant-"
  const InvalidKeyFormat: string := "Invalid API key format. Anthropic keys start with 'sk-ant-'"

  /** `AppSettings::default`. */
  function DefaultSettings(): (r: AppSettings)
    ensures r.theme == "dark" && r.defaultTaxYear == 2024 && r.defaultFilingStatus == "single"
    ensures r.defaultState == None && r.autoSave && r.showTooltips
    ensures r.currencyFormat == "USD" && r.dateFormat == "MM/DD/YYYY"
  {
    AppSettings("dark", 2024, "single", None, true, true, "USD", "MM/DD/YYYY")
  }

  /** `get_settings`: the defaults when nothing is stored, else the decoded document. */
  function GetSettings(store: SettingStore, decode: string -> Result<AppSettings, string>): (r: Result<AppSettings, string>)
    ensures SettingsKey !in store ==> r == Ok(DefaultSettings())
    ensures SettingsKey in store && decode(store[SettingsKey]).Ok? ==> r == decode(store[SettingsKey])
    ensures SettingsKey in store && decode(store[SettingsKey]).Err? ==>
      r == Err("Failed to parse settings: " + decode(store[SettingsKey]).error)
  {
    if SettingsKey in store then
      decode(store[SettingsKey]).MapErr(e => "Failed to parse settings: " + e)
    else
      Ok(DefaultSettings())
  }

  /** `update_settings`: the encoded document replaces whatever was stored. */
  function UpdateSettings(store: SettingStore, settings: AppSettings, encode: AppSettings -> string): (r: SettingStore)
    ensures SettingsKey in r && r[SettingsKey] == encode(settings)
    ensures forall k :: k in store && k != SettingsKey ==> k in r && r[k] == store[k]
    ensures r.Keys == store.Keys + {SettingsKey}
  {
    store[SettingsKey := encode(settings)]
  }

  /** Saved settings read back as saved, whenever decoding inverts encoding. */
  lemma SettingsRoundTrip(store: SettingStore, s: AppSettings,
                          encode: AppSettings -> string, decode: string -> Result<AppSettings, string>)
    requires decode(encode(s)) == Ok(s)
    ensures GetSettings(UpdateSettings(store, s, encode), decode) == Ok(s)
  {
  }

  /** A key is accepted when it is empty or carries the Anthropic prefix. */
  predicate WellFormedApiKey(key: string) {
    key == [] || StartsWith(key, AnthropicKeyPrefix)
  }

  /**
   * `set_api_key`: a malformed key is rejected before the store is touched;
   * the empty key deletes the stored key; any other key is stored verbatim.
   */
  function SetApiKey(store: SettingStore, key: string): (r: Result<SettingStore, string>)
    ensures r.Err? <==> !WellFormedApiKey(key)
    ensures r.Err? ==> r.error == InvalidKeyFormat
    ensures r.Ok? && key == [] ==> r.value == store - {ApiKeyKey}
    ensures r.Ok? && key != [] ==> r.value == store[ApiKeyKey := key]
  {
    if !StartsWith(key, AnthropicKeyPrefix) && key != [] then
      Err(InvalidKeyFormat)
    else if key == [] then
      Ok(store - {ApiKeyKey})
    else
      Ok(store[ApiKeyKey := key])
  }

  /** The mask shown for a stored key: its first and last four characters, or stars for a short key. */
  function MaskKey(key: string): (r: string)
    ensures |key| > 8 ==> |r| == 11 && r[..4] == key[..4] && r[4..7] == "..." && r[7..] == key[|key| - 4..]
    ensures |key| <= 8 ==> r == "****"
  {
    if |key| > 8 then key[..4] + "..." + key[|key| - 4..] else "****"
  }

  /** `get_api_key_status`. */
  function GetApiKeyStatus(store: SettingStore): (r: ApiKeyStatus)
    ensures r.configured <==> ApiKeyKey in store
    ensures r.maskedKey.Some? <==> r.configured
    ensures ApiKeyKey in store ==> r.maskedKey == Some(MaskKey(store[ApiKeyKey]))
  {
    if ApiKeyKey in store then ApiKeyStatus(true, Some(MaskKey(store[ApiKeyKey])))
    else ApiKeyStatus(false, None)
  }

  /** Setting a non-empty key and asking for the status shows that key's mask. */
  lemma SetThenStatus(store: SettingStore, key: string)
    requires SetApiKey(store, key).Ok? && key != []
    ensures GetApiKeyStatus(SetApiKey(store, key).value) == ApiKeyStatus(true, Some(MaskKey(key)))
  {
  }

  /** Clearing the key leaves nothing configured. */
  lemma ClearThenStatus(store: SettingStore)
    ensures SetApiKey(store, []).Ok?
    ensures GetApiKeyStatus(SetApiKey(store, []).value) == ApiKeyStatus(false, None)
  {
  }

  /** Every accepted key that is long enough to be masked shows the prefix's first four characters. */
  lemma AcceptedKeyMaskShowsPrefix(store: SettingStore, key: string)
    requires SetApiKey(store, key).Ok? && |key| > 8
    ensures GetApiKeyStatus(SetApiKey(store, key).value).maskedKey == Some("sk-a..." + key[|key| - 4..])
  {
    assert key[..7] == AnthropicKeyPrefix;
    assert key[..4] == key[..7][..4] == "sk-a";
    assert "sk-a" + "..." == "sk-a...";
    assert MaskKey(key) == "sk-a" + "..." + key[|key| - 4..];
  }

  /** The API key command touches no other setting, the stored settings document included. */
  lemma SetApiKeyKeepsOtherSettings(store: SettingStore, key: string, k: string)
    requires SetApiKey(store, key).Ok? && k != ApiKeyKey
    ensures k in SetApiKey(store, key).value <==> k in store
    ensures k in store ==> SetApiKey(store, key).value[k] == store[k]
  {
  }

  /** The prefix alone is accepted and, being short, is masked by stars. */
  lemma BarePrefixIsStarred(store: SettingStore)
    ensures SetApiKey(store, AnthropicKeyPrefix).Ok?
    ensures GetApiKeyStatus(SetApiKey(store, AnthropicKeyPrefix).value).maskedKey == Some("****")
  {
  }
}
