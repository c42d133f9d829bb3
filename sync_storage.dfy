// The entries of chrome.storage.sync that the background script, the options
// page and the sidebar read and write, as one snapshot value.

module SyncStorage {
  import opened JsValues

  /** A provider record as stored: field name to value (`apiKey`, `model`, `url`, ...). */
  type Fields = map<string, string>

  /** A snapshot of the sync storage area. An absent entry is `None`. */
  datatype SyncArea = SyncArea(
    provider: Option<string>,          // written by the options page
    currentProvider: Option<string>,   // written by the sidebar
    currentModel: Option<string>,      // written by the sidebar
    openai: Option<Fields>,
    gemini: Option<Fields>,
    deepseek: Option<Fields>,
    claude: Option<Fields>,
    ollama: Option<Fields>)

  /** `record?.key`: the value of `key` in an optional record, undefined when either is missing. */
  function FieldOf(stored: Option<Fields>, key: string): Option<string>
  {
    if stored.Some? && key in stored.value then Some(stored.value[key]) else None
  }
}
