// config/settings.py: the built-in configuration tree, the recursive merge of a user
// configuration over it, and dotted-key lookup.
module Settings {
  import opened Wrappers
  import opened Text
  import opened Json

  const SONNET := "claude-3-5-sonnet-20241022"
  const HAIKU := "claude-3-5-haiku-20241022"

  function ModelEntry(model: string, temperature: real, maxTokens: int): Value {
    Obj(map["model" := Str(model),
            "parameters" := Obj(map["temperature" := Float(temperature), "max_tokens" := Int(maxTokens)])])
  }

  /** The per-style model table of the built-in configuration. */
  function DefaultModels(): map<string, Value> {
    map["exploration" := ModelEntry(SONNET, 0.7, 1000),
        "creative_writing" := ModelEntry(SONNET, 0.9, 2000),
        "article_writing" := ModelEntry(SONNET, 0.6, 3000),
        "translation" := ModelEntry(HAIKU, 0.3, 500),
        "chat" := ModelEntry(HAIKU, 0.8, 800)]
  }

  /** Settings.DEFAULT_CONFIG */
  function DefaultConfig(): map<string, Value> {
    map["api" := Obj(map["anthropic" := Obj(map["api_key" := Str(""), "models" := Obj(DefaultModels())]),
                         "openai" := Obj(map["api_key" := Str("")]),
                         "perplexity" := Obj(map["api_key" := Str("")])]),
        "tts" := Obj(map["provider" := Str("gtts"), "language" := Str("it"), "rate" := Int(140)]),
        "logging" := Obj(map["level" := Str("INFO"), "file" := Str("naiad.log")])]
  }

  /** What _merge_configs puts under a key the user configuration defines. */
  function MergedEntry(d: map<string, Value>, u: map<string, Value>, k: string): Value
    requires k in u
    decreases Obj(u), 0
  {
    if k in d && d[k].Obj? && u[k].Obj? then Obj(Merged(d[k].fields, u[k].fields)) else u[k]
  }

  /** The configuration _merge_configs(default, user) returns. */
  function Merged(d: map<string, Value>, u: map<string, Value>): map<string, Value>
    decreases Obj(u), 1
  {
    map k | k in d.Keys + u.Keys :: if k in u then MergedEntry(d, u, k) else d[k]
  }

  /** _merge_configs: start from a copy of the defaults, then let every user key either
      merge recursively (both sides dictionaries) or replace the default. */
  method MergeConfigs(default: map<string, Value>, user: map<string, Value>) returns (result: map<string, Value>)
    ensures result == Merged(default, user)
    decreases Obj(user)
  {
    result := default;
    var todo := user.Keys;
    ghost var done: set<string> := {};
    while todo != {}
      invariant todo + done == user.Keys && todo !! done
      invariant result.Keys == default.Keys + done
      invariant forall k :: k in result ==> result[k] == if k in done then MergedEntry(default, user, k) else default[k]
      decreases todo
    {
      var key :| key in todo;
      var value := user[key];
      if key in result && result[key].Obj? && value.Obj? {
        assert result[key] == default[key];
        var sub := MergeConfigs(result[key].fields, value.fields);
        result := result[key := Obj(sub)];
      } else {
        result := result[key := value];
      }
      todo := todo - {key};
      done := done + {key};
    }
    assert result.Keys == Merged(default, user).Keys;
  }

  /** Keys of the merge: those of either side. */
  lemma MergedKeys(d: map<string, Value>, u: map<string, Value>)
    ensures Merged(d, u).Keys == d.Keys + u.Keys
  {
  }

  /** A default the user does not mention survives unchanged. */
  lemma MergeKeepsDefaults(d: map<string, Value>, u: map<string, Value>, k: string)
    requires k in d && k !in u
    ensures k in Merged(d, u) && Merged(d, u)[k] == d[k]
  {
  }

  /** The user's value replaces the default unless both are dictionaries. */
  lemma MergeUserWins(d: map<string, Value>, u: map<string, Value>, k: string)
    requires k in u && !(k in d && d[k].Obj? && u[k].Obj?)
    ensures k in Merged(d, u) && Merged(d, u)[k] == u[k]
  {
  }

  /** Merging a configuration with itself gives it back. */
  lemma {:induction false} MergeSelf(m: map<string, Value>)
    ensures Merged(m, m) == m
    decreases Obj(m)
  {
    forall k | k in m ensures Merged(m, m)[k] == m[k] {
      if m[k].Obj? {
        MergeSelf(m[k].fields);
      }
    }
  }

  /** Applying the same user configuration twice gives what applying it once does. */
  lemma {:induction false} MergeIdempotent(d: map<string, Value>, u: map<string, Value>)
    ensures Merged(Merged(d, u), u) == Merged(d, u)
    decreases Obj(u)
  {
    var once := Merged(d, u);
    forall k | k in once ensures Merged(once, u)[k] == once[k] {
      if k in u {
        if k in d && d[k].Obj? && u[k].Obj? {
          MergeIdempotent(d[k].fields, u[k].fields);
        } else if u[k].Obj? {
          MergeSelf(u[k].fields);
        }
      }
    }
  }

  /** The value at a dotted path: None where Python's indexing raises KeyError (missing key)
      or TypeError (an intermediate value that is not a dictionary). */
  function LookupPath(v: Value, path: seq<string>): Option<Value>
    decreases path
  {
    if path == [] then Some(v)
    else if v.Obj? && path[0] in v.fields then LookupPath(v.fields[path[0]], path[1..])
    else None
  }

  function LookupOr(config: Value, path: seq<string>, default: Value): Value {
    match LookupPath(config, path)
    case Some(v) => v
    case None => default
  }

  /** Every leaf the user sets is what the merged configuration holds at that path. */
  lemma {:induction false} MergeUserLeaf(d: map<string, Value>, u: map<string, Value>, path: seq<string>)
    requires LookupPath(Obj(u), path).Some? && !LookupPath(Obj(u), path).value.Obj?
    ensures LookupPath(Obj(Merged(d, u)), path) == LookupPath(Obj(u), path)
    decreases path
  {
    var k := path[0];
    var rest := path[1..];
    if k in d && d[k].Obj? && u[k].Obj? {
      MergeUserLeaf(d[k].fields, u[k].fields, rest);
    }
  }

  /** Settings.get: walk the dot-separated parts and fall back to the default. */
  method Get(config: Value, key: string, default: Value) returns (r: Value)
    ensures r == LookupOr(config, SplitOn(key, '.'), default)
  {
    var parts := SplitOn(key, '.');
    var value := config;
    var i := 0;
    while i < |parts|
      invariant 0 <= i <= |parts|
      invariant LookupPath(config, parts) == LookupPath(value, parts[i..])
    {
      if !value.Obj? || parts[i] !in value.fields {
        return default;
      }
      assert parts[i..][1..] == parts[i + 1..];
      value := value.fields[parts[i]];
      i := i + 1;
    }
    return value;
  }

  const MODELS_PATH := ["api", "anthropic", "models"]
  const DEFAULT_MODEL_PATH := ["api", "anthropic", "default_model"]

  /** Settings.model_configs: the models table, or {} when the path is missing. */
  function ModelsTable(config: Value): Value {
    LookupOr(config, MODELS_PATH, Obj(map[]))
  }

  /** Settings.anthropic_default_model */
  function AnthropicDefaultModel(config: Value): Value {
    LookupOr(config, DEFAULT_MODEL_PATH, Str(HAIKU))
  }

  lemma ModelsKeySplits()
    ensures SplitOn("api.anthropic.models", '.') == MODELS_PATH
  {
    SplitOnThree("api", "anthropic", "models", '.');
    assert "api.anthropic.models" == "api" + "." + "anthropic" + "." + "models";
  }

  lemma DefaultModelKeySplits()
    ensures SplitOn("api.anthropic.default_model", '.') == DEFAULT_MODEL_PATH
  {
    SplitOnThree("api", "anthropic", "default_model", '.');
    assert "api.anthropic.default_model" == "api" + "." + "anthropic" + "." + "default_model";
  }

  method ModelConfigs(config: Value) returns (r: Value)
    ensures r == ModelsTable(config)
  {
    ModelsKeySplits();
    r := Get(config, "api.anthropic.models", Obj(map[]));
  }

  method DefaultModel(config: Value) returns (r: Value)
    ensures r == AnthropicDefaultModel(config)
  {
    DefaultModelKeySplits();
    r := Get(config, "api.anthropic.default_model", Str(HAIKU));
  }

  /** A model configuration _get_model_config accepts as it is. */
  predicate IsModelConfig(v: Value) {
    v.Obj? && "model" in v.fields && "parameters" in v.fields
  }

  /** The built-in configuration has a model table with an entry for every style, each with
      a model and parameters, and no default_model key, so the fallback model is Haiku. */
  lemma DefaultConfigFacts()
    ensures ModelsTable(Obj(DefaultConfig())) == Obj(DefaultModels())
    ensures AnthropicDefaultModel(Obj(DefaultConfig())) == Str(HAIKU)
    ensures forall k :: k in DefaultModels() ==> IsModelConfig(DefaultModels()[k])
  {
  }
}
