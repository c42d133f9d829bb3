// The options page's settings logic (src/options/options.tsx): the model
// lists, the default settings, the merge of stored values on load, the two
// state updaters and the flattened save. Provider records are maps from field
// name to value because the updater writes a computed key.

module Options {
  import opened JsValues
  import opened SyncStorage

  datatype ProviderId = OpenAI | Gemini | DeepSeek | Claude | Ollama

  /** The models offered for each provider. */
  function ModelOptions(p: ProviderId): (models: seq<string>)
    ensures models != []
    ensures forall m :: m in models ==> m != ""
    ensures forall i, j :: 0 <= i < j < |models| ==> models[i] != models[j]
  {
    match p
    case OpenAI => ["gpt-4o", "gpt-4-turbo", "gpt-4", "gpt-3.5-turbo"]
    case Gemini => ["gemini-1.5-flash", "gemini-1.5-pro", "gemini-1.0-pro", "gemini-3-flash-preview",
                    "gemini-2.5-flash", "gemini-2.0-flash"]
    case DeepSeek => ["deepseek-chat", "deepseek-coder"]
    case Claude => ["claude-3-5-sonnet-20240620", "claude-3-opus-20240229", "claude-3-haiku-20240307"]
    case Ollama => ["llama3", "llama2", "mistral", "gemma", "phi3", "codellama"]
  }

  /** The five provider records. */
  datatype Providers = Providers(openai: Fields, gemini: Fields, deepseek: Fields,
                                 claude: Fields, ollama: Fields)
  {
    function Get(p: ProviderId): Fields
    {
      match p
      case OpenAI => openai
      case Gemini => gemini
      case DeepSeek => deepseek
      case Claude => claude
      case Ollama => ollama
    }

    /** `{...providers, [p]: f}`: record `p` replaced, the others kept. */
    function With(p: ProviderId, f: Fields): (r: Providers)
      ensures r.Get(p) == f
      ensures forall q :: q != p ==> r.Get(q) == Get(q)
    {
      match p
      case OpenAI => this.(openai := f)
      case Gemini => this.(gemini := f)
      case DeepSeek => this.(deepseek := f)
      case Claude => this.(claude := f)
      case Ollama => this.(ollama := f)
    }
  }

  datatype Settings = Settings(activeProvider: string, providers: Providers)

  /** The field names of a provider's record: a key and a model for the cloud
      providers, a server URL and a model for Ollama. */
  function FieldNames(p: ProviderId): set<string>
  {
    if p == Ollama then {"url", "model"} else {"apiKey", "model"}
  }

  /** Every provider record has exactly its own field names. */
  ghost predicate WellShaped(s: Settings)
  {
    forall p :: s.providers.Get(p).Keys == FieldNames(p)
  }

  /** The initial settings state. */
  function DefaultSettings(): (s: Settings)
    ensures s.activeProvider == "openai"
    ensures WellShaped(s)
    ensures forall p :: s.providers.Get(p)["model"] in ModelOptions(p)
    ensures forall p :: p != Ollama ==> s.providers.Get(p)["apiKey"] == ""
    ensures s.providers.Get(Ollama)["url"] == "http://localhost:11434"
  {
    Settings("openai", Providers(
      map["apiKey" := "", "model" := "gpt-4o"],
      map["apiKey" := "", "model" := "gemini-1.5-flash"],
      map["apiKey" := "", "model" := "deepseek-chat"],
      map["apiKey" := "", "model" := "claude-3-5-sonnet-20240620"],
      map["url" := "http://localhost:11434", "model" := "llama3"]))
  }

  /** The default model of every provider is the first entry of its list:
      "gpt-4o", "gemini-1.5-flash", "deepseek-chat",
      "claude-3-5-sonnet-20240620" and "llama3". */
  lemma DefaultModels()
    ensures forall p :: DefaultSettings().providers.Get(p)["model"] == ModelOptions(p)[0]
    ensures DefaultSettings().providers.Get(OpenAI)["model"] == "gpt-4o"
    ensures DefaultSettings().providers.Get(Gemini)["model"] == "gemini-1.5-flash"
    ensures DefaultSettings().providers.Get(DeepSeek)["model"] == "deepseek-chat"
    ensures DefaultSettings().providers.Get(Claude)["model"] == "claude-3-5-sonnet-20240620"
    ensures DefaultSettings().providers.Get(Ollama)["model"] == "llama3"
  {
    var d := DefaultSettings();
    forall p ensures d.providers.Get(p)["model"] == ModelOptions(p)[0] {
      match p
      case OpenAI => assert d.providers.Get(p) == map["apiKey" := "", "model" := "gpt-4o"];
      case Gemini => assert d.providers.Get(p) == map["apiKey" := "", "model" := "gemini-1.5-flash"];
      case DeepSeek => assert d.providers.Get(p) == map["apiKey" := "", "model" := "deepseek-chat"];
      case Claude => assert d.providers.Get(p) == map["apiKey" := "", "model" := "claude-3-5-sonnet-20240620"];
      case Ollama => assert d.providers.Get(p) == map["url" := "http://localhost:11434", "model" := "llama3"];
    }
  }

  /** The stored record of a provider. */
  function StoredRecord(stored: SyncArea, p: ProviderId): Option<Fields>
  {
    match p
    case OpenAI => stored.openai
    case Gemini => stored.gemini
    case DeepSeek => stored.deepseek
    case Claude => stored.claude
    case Ollama => stored.ollama
  }

  /** `prev[k]`, undefined when the record has no such field. */
  function Lookup(f: Fields, k: string): Option<string>
  {
    FieldOf(Some(f), k)
  }

  /** One rebuilt provider record on load: each of the provider's field names
      takes `stored?.name || prev.name`; a field that comes out undefined is
      left out. Fields of `prev` outside the provider's names are dropped. */
  function MergedRecord(p: ProviderId, stored: Option<Fields>, prev: Fields): (f: Fields)
    ensures f.Keys <= FieldNames(p)
    ensures forall k :: k in FieldNames(p) ==>
              Lookup(f, k) == (if Truthy(FieldOf(stored, k)) then FieldOf(stored, k) else Lookup(prev, k))
  {
    map k | k in FieldNames(p) && OrOpt(FieldOf(stored, k), Lookup(prev, k)).Some? ::
      OrOpt(FieldOf(stored, k), Lookup(prev, k)).value
  }

  /** The load merge: a truthy stored value wins, and an empty or missing one
      leaves the previous value in place, for the active provider and for
      every field of every provider. */
  function Merged(prev: Settings, stored: SyncArea): (s: Settings)
    ensures s.activeProvider == Or(stored.provider, prev.activeProvider)
    ensures forall p :: s.providers.Get(p) == MergedRecord(p, StoredRecord(stored, p), prev.providers.Get(p))
  {
    Settings(Or(stored.provider, prev.activeProvider), Providers(
      MergedRecord(OpenAI, stored.openai, prev.providers.openai),
      MergedRecord(Gemini, stored.gemini, prev.providers.gemini),
      MergedRecord(DeepSeek, stored.deepseek, prev.providers.deepseek),
      MergedRecord(Claude, stored.claude, prev.providers.claude),
      MergedRecord(Ollama, stored.ollama, prev.providers.ollama)))
  }

  /** Loading into well-shaped settings gives well-shaped settings. */
  lemma MergedKeepsShape(prev: Settings, stored: SyncArea)
    requires WellShaped(prev)
    ensures WellShaped(Merged(prev, stored))
  {
    forall p ensures Merged(prev, stored).providers.Get(p).Keys == FieldNames(p) {
      var f := Merged(prev, stored).providers.Get(p);
      forall k | k in FieldNames(p) ensures k in f {
        assert Lookup(prev.providers.Get(p), k).Some?;
      }
    }
  }

  /** updateProviderSetting: exactly field `key` of provider `p` is set to
      `value`; its other fields, the other providers and the active provider
      are unchanged. */
  function WithProviderSetting(s: Settings, p: ProviderId, key: string, value: string): (r: Settings)
    ensures r.activeProvider == s.activeProvider
    ensures r.providers.Get(p) == s.providers.Get(p)[key := value]
    ensures forall k :: k in s.providers.Get(p) && k != key ==> r.providers.Get(p)[k] == s.providers.Get(p)[k]
    ensures forall q :: q != p ==> r.providers.Get(q) == s.providers.Get(q)
  {
    s.(providers := s.providers.With(p, s.providers.Get(p)[key := value]))
  }

  /** Setting one of a provider's own fields keeps the settings well shaped. */
  lemma WithProviderSettingKeepsShape(s: Settings, p: ProviderId, key: string, value: string)
    requires WellShaped(s) && key in FieldNames(p)
    ensures WellShaped(WithProviderSetting(s, p, key, value))
  {
    var r := WithProviderSetting(s, p, key, value);
    forall q ensures r.providers.Get(q).Keys == FieldNames(q) {
      if q == p {
        assert s.providers.Get(p).Keys == FieldNames(p);
      }
    }
  }

  /** setProvider: only the active provider changes. */
  function WithActiveProvider(s: Settings, value: string): (r: Settings)
    ensures r.activeProvider == value && r.providers == s.providers
  {
    s.(activeProvider := value)
  }

  /** handleSave: `provider` becomes the active provider and the five
      provider records are written verbatim; sync.set leaves the other
      entries as they were. */
  function Saved(before: SyncArea, s: Settings): (after: SyncArea)
    ensures after.provider == Some(s.activeProvider)
    ensures forall p :: StoredRecord(after, p) == Some(s.providers.Get(p))
    ensures after.currentProvider == before.currentProvider && after.currentModel == before.currentModel
  {
    before.(provider := Some(s.activeProvider),
            openai := Some(s.providers.openai), gemini := Some(s.providers.gemini),
            deepseek := Some(s.providers.deepseek), claude := Some(s.providers.claude),
            ollama := Some(s.providers.ollama))
  }

  /** The settings a save can restore: the active provider and every model
      and URL are non-empty (an empty one reads as unset on load). */
  ghost predicate Restorable(s: Settings)
  {
    WellShaped(s) && s.activeProvider != "" &&
    forall p, k :: k in FieldNames(p) && k != "apiKey" ==> s.providers.Get(p)[k] != ""
  }

  /** Rebuilding a record from a stored copy of itself gives it back when
      every field is either non-empty or empty in `prev` as well. */
  lemma MergedRecordRestores(p: ProviderId, g: Fields, prev: Fields)
    requires g.Keys == FieldNames(p)
    requires forall k :: k in g ==> g[k] != "" || Lookup(prev, k) == Some("")
    ensures MergedRecord(p, Some(g), prev) == g
  {
    var f := MergedRecord(p, Some(g), prev);
    forall k | k in FieldNames(p) ensures k in f && f[k] == g[k] {
      assert FieldOf(Some(g), k) == Some(g[k]);
    }
  }

  /** One provider record survives a save followed by a load into the
      initial state. */
  lemma LoadAfterSaveRecord(before: SyncArea, s: Settings, p: ProviderId)
    requires Restorable(s)
    ensures Merged(DefaultSettings(), Saved(before, s)).providers.Get(p) == s.providers.Get(p)
  {
    var d := DefaultSettings().providers.Get(p);
    var g := s.providers.Get(p);
    assert StoredRecord(Saved(before, s), p) == Some(g);
    forall k | k in g ensures g[k] != "" || Lookup(d, k) == Some("") {
      assert k in FieldNames(p);
    }
    MergedRecordRestores(p, g, d);
  }

  /** Load after save: loading what handleSave wrote into the initial state
      gives back the saved settings, whenever they are restorable. An empty
      API key comes back empty because the default key is empty too. */
  lemma LoadAfterSave(before: SyncArea, s: Settings)
    requires Restorable(s)
    ensures Merged(DefaultSettings(), Saved(before, s)) == s
  {
    LoadAfterSaveRecord(before, s, OpenAI);
    LoadAfterSaveRecord(before, s, Gemini);
    LoadAfterSaveRecord(before, s, DeepSeek);
    LoadAfterSaveRecord(before, s, Claude);
    LoadAfterSaveRecord(before, s, Ollama);
  }

  /** The options page's state: the settings and the status line. */
  class OptionsPage {
    var settings: Settings
    var status: string

    constructor ()
      ensures settings == DefaultSettings() && status == ""
    {
      settings := DefaultSettings();
      status := "";
    }

    /** The load effect: the stored values are merged into the current settings. */
    method Load(stored: SyncArea)
      modifies this`settings
      ensures settings == Merged(old(settings), stored)
    {
      settings := Merged(settings, stored);
    }

    method UpdateProviderSetting(p: ProviderId, key: string, value: string)
      modifies this`settings
      ensures settings == WithProviderSetting(old(settings), p, key, value)
    {
      settings := WithProviderSetting(settings, p, key, value);
    }

    method SetProvider(value: string)
      modifies this`settings
      ensures settings == WithActiveProvider(old(settings), value)
    {
      settings := WithActiveProvider(settings, value);
    }

    /** handleSave: returns the sync area after the write, and reports success. */
    method HandleSave(before: SyncArea) returns (after: SyncArea)
      modifies this`status
      ensures after == Saved(before, settings)
      ensures status == "Settings saved successfully!"
    {
      after := Saved(before, settings);
      status := "Settings saved successfully!";
    }
  }
}
