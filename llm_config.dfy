/**
 * The language-model configuration: built-in defaults, a recursive
 * dictionary merge, and the loader's key precedence once the configuration
 * file has been read and parsed (the file read and the environment lookup
 * of its path are outside the model: the loader receives the parsed value,
 * or None when the file does not exist).
 */
module LlmConfig {
  import opened Wrappers
  import opened Json

  type Dict = map<string, Json>

  /**
   * `_merge(a, b)`: every key of either side; where both sides hold a
   * dictionary the two are merged recursively, otherwise `b`'s value wins.
   */
  function MergeSpec(a: Dict, b: Dict): (r: Dict)
    ensures r.Keys == a.Keys + b.Keys
    decreases JObj(b)
  {
    map k | k in a.Keys + b.Keys ::
      if k in b then
        if b[k].JObj? && k in a && a[k].JObj? then JObj(MergeSpec(a[k].obj, b[k].obj)) else b[k]
      else a[k]
  }

  /** The merge as the source performs it: copy `a`, then write `b`'s entries one at a time. */
  method Merge(a: Dict, b: Dict) returns (out: Dict)
    ensures out == MergeSpec(a, b)
    decreases JObj(b)
  {
    out := a;
    var todo := b.Keys;
    while todo != {}
      invariant todo <= b.Keys
      invariant out.Keys == a.Keys + (b.Keys - todo)
      invariant forall k | k in out && k !in b.Keys - todo :: out[k] == a[k]
      invariant forall k | k in b.Keys - todo :: out[k] == MergeSpec(a, b)[k]
      decreases todo
    {
      var k :| k in todo;
      var v := b[k];
      if v.JObj? && k in out && out[k].JObj? {
        assert v in b.Values;
        var inner := Merge(out[k].obj, v.obj);
        out := out[k := JObj(inner)];
      } else {
        out := out[k := v];
      }
      todo := todo - {k};
    }
    assert b.Keys - todo == b.Keys;
  }

  /** Merging nothing in keeps `a`. */
  lemma MergeEmptyRight(a: Dict)
    ensures MergeSpec(a, map[]) == a
  {
  }

  /** Merging into nothing gives `b`. */
  lemma MergeEmptyLeft(b: Dict)
    ensures MergeSpec(map[], b) == b
  {
  }

  /** Merging a dictionary with itself changes nothing, at any depth. */
  lemma {:induction false} MergeIdempotent(a: Dict)
    ensures MergeSpec(a, a) == a
    decreases JObj(a)
  {
    forall k | k in a
      ensures MergeSpec(a, a)[k] == a[k]
    {
      if a[k].JObj? {
        assert a[k] in a.Values;
        MergeIdempotent(a[k].obj);
      }
    }
  }

  /**
   * Which side a key's value comes from: `b` for a key only `b` has or where
   * the two are not both dictionaries, `a` for a key only `a` has.
   */
  lemma MergePrecedence(a: Dict, b: Dict, k: string)
    ensures k in b && !(b[k].JObj? && k in a && a[k].JObj?) ==> MergeSpec(a, b)[k] == b[k]
    ensures k in a && k !in b ==> MergeSpec(a, b)[k] == a[k]
    ensures k in a && k in b && a[k].JObj? && b[k].JObj?
      ==> MergeSpec(a, b)[k] == JObj(MergeSpec(a[k].obj, b[k].obj))
  {
  }

  // ---------------------------------------------------------------------
  // Loading.

  function DefaultParameters(): Dict {
    map["temperature" := JNum(0.0), "top_p" := JNum(1.0), "max_tokens" := JNum(512.0)]
  }

  function DefaultLmStudio(): Dict {
    map["base_url" := JStr("http://127.0.0.1:1234/v1"), "api_key_env" := JStr("LM_STUDIO_API_KEY")]
  }

  function DefaultOpenAi(): Dict {
    map["base_url" := JNull, "api_key_env" := JStr("OPENAI_API_KEY")]
  }

  /**
   * A loaded configuration. The loader always returns exactly these five
   * keys, and the three blocks are always dictionaries, so it is a record.
   */
  datatype Config = Config(provider: Json, model: Json, parameters: Dict, lmstudio: Dict, openai: Dict)

  /** The built-in configuration. */
  function Default(): Config {
    Config(JStr("lmstudio_multistep"), JStr("qwen/qwen3-4b-2507"),
           DefaultParameters(), DefaultLmStudio(), DefaultOpenAi())
  }

  /** `raw.get(key)` is a dictionary. */
  predicate HasDict(raw: Dict, key: string) {
    key in raw && raw[key].JObj?
  }

  /** The lmstudio block after the legacy flat `base_url` and `api_key` keys are applied. */
  function FlatLmStudio(raw: Dict): Dict {
    var lm := DefaultLmStudio();
    var lm := if "base_url" in raw then lm["base_url" := raw["base_url"]] else lm;
    if "api_key" in raw then lm["api_key" := raw["api_key"]] else lm
  }

  /** The final lmstudio block: the flat keys, then a nested `lmstudio` dictionary merged over them. */
  function LmStudioBlock(raw: Dict): Dict {
    if HasDict(raw, "lmstudio") then MergeSpec(FlatLmStudio(raw), raw["lmstudio"].obj) else FlatLmStudio(raw)
  }

  /** A configuration file whose top level is not a JSON object makes the loader raise. */
  const NotAnObject := "configuration is not a JSON object"

  /**
   * `load_llm_config`, given the parsed file (None when there is none):
   * the defaults, with `provider` and `model` replaced when present, the
   * `parameters` and `openai` blocks merged when given as dictionaries, and
   * the lmstudio block built from the flat keys and the nested block.
   */
  method LoadLlmConfig(file: Option<Json>) returns (r: Result<Config, string>)
    ensures file.None? ==> r == Success(Default())
    ensures r.Failure? <==> file.Some? && !file.value.JObj?
    ensures file.Some? && file.value.JObj? ==> var raw := file.value.obj;
      && r.Success?
      && r.value.provider == (if "provider" in raw then raw["provider"] else Default().provider)
      && r.value.model == (if "model" in raw then raw["model"] else Default().model)
      && r.value.parameters == (if HasDict(raw, "parameters")
                                then MergeSpec(DefaultParameters(), raw["parameters"].obj)
                                else DefaultParameters())
      && r.value.lmstudio == LmStudioBlock(raw)
      && r.value.openai == (if HasDict(raw, "openai")
                            then MergeSpec(DefaultOpenAi(), raw["openai"].obj)
                            else DefaultOpenAi())
  {
    if file.None? {
      return Success(Default());
    }
    if !file.value.JObj? {
      return Failure(NotAnObject);
    }
    var raw := file.value.obj;
    var cfg := Default();
    if "provider" in raw {
      cfg := cfg.(provider := raw["provider"]);
    }
    if "model" in raw {
      cfg := cfg.(model := raw["model"]);
    }
    if HasDict(raw, "parameters") {
      var merged := Merge(cfg.parameters, raw["parameters"].obj);
      cfg := cfg.(parameters := merged);
    }
    var lm := LoadLmStudio(raw, cfg.lmstudio);
    cfg := cfg.(lmstudio := lm);
    if HasDict(raw, "openai") {
      var merged := Merge(cfg.openai, raw["openai"].obj);
      cfg := cfg.(openai := merged);
    }
    return Success(cfg);
  }

  /** The lmstudio block of `load_llm_config`: the flat keys first, then the nested block. */
  method LoadLmStudio(raw: Dict, lm0: Dict) returns (lm: Dict)
    requires lm0 == DefaultLmStudio()
    ensures lm == LmStudioBlock(raw)
  {
    lm := lm0;
    if "base_url" in raw {
      lm := lm["base_url" := raw["base_url"]];
    }
    if "api_key" in raw {
      lm := lm["api_key" := raw["api_key"]];
    }
    if HasDict(raw, "lmstudio") {
      lm := Merge(lm, raw["lmstudio"].obj);
    }
  }

  /**
   * Where the lmstudio `base_url` comes from: a plain value in the nested
   * block beats the flat key, which beats the default.
   */
  lemma BaseUrlPrecedence(raw: Dict)
    ensures HasDict(raw, "lmstudio") && "base_url" in raw["lmstudio"].obj && !raw["lmstudio"].obj["base_url"].JObj?
      ==> LmStudioBlock(raw)["base_url"] == raw["lmstudio"].obj["base_url"]
    ensures !(HasDict(raw, "lmstudio") && "base_url" in raw["lmstudio"].obj) && "base_url" in raw
      ==> LmStudioBlock(raw)["base_url"] == raw["base_url"]
    ensures !(HasDict(raw, "lmstudio") && "base_url" in raw["lmstudio"].obj) && "base_url" !in raw
      ==> LmStudioBlock(raw)["base_url"] == JStr("http://127.0.0.1:1234/v1")
  {
    if HasDict(raw, "lmstudio") {
      MergePrecedence(FlatLmStudio(raw), raw["lmstudio"].obj, "base_url");
    }
  }
}
