/**
  The model manager: a table of configured models, each a mutable `ModelInfo`
  record, plus the set of models whose files are on disk. Downloading, loading
  and unloading change those records in place; listing reports one status per
  configured model.

  Hugging Face downloads, torch/transformers loading, CUDA queries and memory
  measurement are foreign: their outcomes are parameters. The directory
  `models/<id>` existing is modelled as `id in downloaded`.
*/
module ModelManager {
  import opened Wrappers

  /** A model's configuration dictionary; a key that is absent is `None`. */
  datatype Config = Config(
    name: Option<string>,
    description: Option<string>,
    modelRepo: Option<string>,
    kind: Option<string>,
    maxLength: Option<int>,
    capabilities: Option<seq<string>>,
    size: Option<string>,
    quantization: Option<string>,
    device: Option<string>)

  /** The four configurations written when no configuration file exists. */
  const DefaultConfigs: seq<(string, Config)> := [
    ("codebert-small", Config(Some("CodeBERT Small"), Some("Lightweight code understanding and generation model"),
      Some("microsoft/codebert-small"), Some("encoder"), Some(512),
      Some(["code-completion", "bug-detection", "documentation"]), Some("500MB"), None, Some("auto"))),
    ("distilgpt2-code", Config(Some("DistilGPT2 Code"), Some("Lightweight code generation model"),
      Some("distilgpt2"), Some("decoder"), Some(1024),
      Some(["code-generation", "translation"]), Some("350MB"), Some("8bit"), Some("auto"))),
    ("tinyllama", Config(Some("TinyLLaMA"), Some("Small but capable language model for code"),
      Some("TinyLlama/TinyLlama-1.1B-Chat-v1.0"), Some("decoder"), Some(2048),
      Some(["code-generation", "explanation", "refactoring"]), Some("2.2GB"), Some("4bit"), Some("auto"))),
    ("starcoderbase", Config(Some("StarCoder Base"), Some("Code generation model trained on multiple languages"),
      Some("bigcode/starcoderbase"), Some("decoder"), Some(4096),
      Some(["code-generation", "translation", "completion"]), Some("15GB"), Some("8bit"), Some("auto")))
  ]

  /** The default configurations name four distinct models, so they can seed a `Manager`. */
  lemma DefaultConfigsDistinct()
    ensures |DefaultConfigs| == 4
    ensures forall i, j :: 0 <= i < j < |DefaultConfigs| ==> DefaultConfigs[i].0 != DefaultConfigs[j].0
  {
  }

  /** An opaque reference to a foreign object (a loaded model or tokenizer). */
  datatype Handle = Handle(tag: nat)

  /** What the foreign loader produced: the objects, the elapsed time and the memory in use, or a failure. */
  datatype LoadOutcome =
    | Loaded(model: Handle, tokenizer: Handle, loadTime: real, memoryUsage: real)
    | LoadFailed

  // ---------------------------------------------------------------- load plan

  datatype Quantization = FourBit | EightBit
  datatype Architecture = CausalLM | SequenceClassification

  /** What `load_model` asks the foreign loader for. */
  datatype LoadPlan = LoadPlan(
    architecture: Architecture,
    quantization: Option<Quantization>,
    deviceMapAuto: bool,
    halfPrecision: bool,
    moveToDevice: bool)

  /** Only the exact strings "4bit" and "8bit" select a quantization config. */
  function QuantizationFor(q: Option<string>): (r: Option<Quantization>)
    ensures r == Some(FourBit) <==> q == Some("4bit")
    ensures r == Some(EightBit) <==> q == Some("8bit")
    ensures r.None? <==> q != Some("4bit") && q != Some("8bit")
  {
    if q == Some("4bit") then Some(FourBit)
    else if q == Some("8bit") then Some(EightBit)
    else None
  }

  /** "auto" resolves to "cuda" when CUDA is available and to "cpu" otherwise; any other device is kept. */
  function ResolveDevice(device: string, cudaAvailable: bool): (r: string)
    ensures r != "auto"
    ensures device != "auto" ==> r == device
    ensures device == "auto" ==> (r == "cuda" <==> cudaAvailable)
  {
    if device == "auto" then (if cudaAvailable then "cuda" else "cpu") else device
  }

  /**
    The loader request for a model of type `kind` with quantization setting `quant`
    on the resolved `device`: decoders load as causal language models, anything
    else as a sequence classifier; CUDA gets an automatic device map and half
    precision; the model is moved to the device unless it is quantized on CUDA.
  */
  function PlanFor(kind: string, quant: Option<string>, device: string): (r: LoadPlan)
    ensures r.quantization == QuantizationFor(quant)
    ensures r.architecture == CausalLM <==> kind == "decoder"
    ensures r.deviceMapAuto <==> device == "cuda"
    ensures r.halfPrecision <==> device == "cuda"
    ensures !r.moveToDevice <==> device == "cuda" && (quant == Some("4bit") || quant == Some("8bit"))
  {
    var q := QuantizationFor(quant);
    LoadPlan(
      if kind == "decoder" then CausalLM else SequenceClassification,
      q,
      device == "cuda",
      device == "cuda",
      device != "cuda" || q.None?)
  }

  // ---------------------------------------------------------------- list entries

  /** One dictionary of `list_models`. */
  datatype Entry = Entry(
    id: string,
    name: string,
    description: string,
    size: string,
    status: string,
    capabilities: seq<string>,
    isLoaded: bool)

  /** The reported status: loaded wins over downloaded, which wins over not downloaded. */
  function StatusName(isLoaded: bool, isDownloaded: bool): (r: string)
    ensures r == "loaded" <==> isLoaded
    ensures r == "downloaded" <==> !isLoaded && isDownloaded
    ensures r == "not_downloaded" <==> !isLoaded && !isDownloaded
  {
    if isLoaded then "loaded" else if isDownloaded then "downloaded" else "not_downloaded"
  }

  // ---------------------------------------------------------------- records

  /** One configured model: the configuration (fixed) and its load state (mutable). */
  class ModelInfo {
    const id: string
    const name: string
    const description: string
    const modelRepo: string
    const kind: string
    const maxLength: int
    const capabilities: seq<string>
    const size: string
    const quantization: Option<string>
    var device: string
    var isLoaded: bool
    var model: Option<Handle>
    var tokenizer: Option<Handle>
    var loadTime: real
    var memoryUsage: real

    /**
      A record is loaded exactly when it holds a model and a tokenizer, and an
      unloaded record uses no memory.
    */
    predicate Consistent()
      reads this
    {
      && (isLoaded <==> model.Some?)
      && (isLoaded <==> tokenizer.Some?)
      && (!isLoaded ==> memoryUsage == 0.0)
    }

    /**
      The record's settings are those of `config` for model `modelId`, each with its
      documented default when absent; the device is the configured one.
    */
    predicate Configured(modelId: string, config: Config)
      reads this
    {
      && id == modelId
      && name == config.name.GetOr(modelId)
      && description == config.description.GetOr("")
      && modelRepo == config.modelRepo.GetOr(modelId)
      && kind == config.kind.GetOr("decoder")
      && maxLength == config.maxLength.GetOr(512)
      && capabilities == config.capabilities.GetOr([])
      && size == config.size.GetOr("unknown")
      && quantization == config.quantization
      && device == config.device.GetOr("auto")
    }

    /** A fresh record takes each setting from `config`, with the documented default when absent, and is unloaded. */
    constructor(modelId: string, config: Config)
      ensures id == modelId
      ensures name == config.name.GetOr(modelId)
      ensures description == config.description.GetOr("")
      ensures modelRepo == config.modelRepo.GetOr(modelId)
      ensures kind == config.kind.GetOr("decoder")
      ensures maxLength == config.maxLength.GetOr(512)
      ensures capabilities == config.capabilities.GetOr([])
      ensures size == config.size.GetOr("unknown")
      ensures quantization == config.quantization
      ensures device == config.device.GetOr("auto")
      ensures !isLoaded && model.None? && tokenizer.None? && loadTime == 0.0 && memoryUsage == 0.0
      ensures Consistent()
      ensures Configured(modelId, config)
    {
      id := modelId;
      name := config.name.GetOr(modelId);
      description := config.description.GetOr("");
      modelRepo := config.modelRepo.GetOr(modelId);
      kind := config.kind.GetOr("decoder");
      maxLength := config.maxLength.GetOr(512);
      capabilities := config.capabilities.GetOr([]);
      size := config.size.GetOr("unknown");
      quantization := config.quantization;
      device := config.device.GetOr("auto");
      isLoaded := false;
      model := None;
      tokenizer := None;
      loadTime := 0.0;
      memoryUsage := 0.0;
    }
    /** Drop the model and tokenizer: the record is unloaded and uses no memory; device and load time stay. */
    method Release()
      modifies this
      ensures Consistent() && !isLoaded && model.None? && tokenizer.None? && memoryUsage == 0.0
      ensures device == old(device) && loadTime == old(loadTime)
    {
      model := None;
      tokenizer := None;
      isLoaded := false;
      memoryUsage := 0.0;
    }

    /** Record a successful load of `m` and `t` on `target`. */
    method MarkLoaded(m: Handle, t: Handle, target: string, time: real, memory: real)
      modifies this
      ensures Consistent() && isLoaded && model == Some(m) && tokenizer == Some(t)
      ensures device == target && loadTime == time && memoryUsage == memory
    {
      tokenizer := Some(t);
      model := Some(m);
      isLoaded := true;
      device := target;
      loadTime := time;
      memoryUsage := memory;
    }

    /** Record a failed load of an unloaded record: model and tokenizer are cleared, nothing else moves. */
    method MarkFailed()
      requires Consistent() && !isLoaded
      modifies this
      ensures Consistent() && !isLoaded && model.None? && tokenizer.None? && memoryUsage == 0.0
      ensures device == old(device) && loadTime == old(loadTime)
    {
      model := None;
      tokenizer := None;
      isLoaded := false;
    }
  }

  /** The `list_models` entry of one record. */
  function EntryOf(m: ModelInfo, isDownloaded: bool): Entry
    reads m
  {
    Entry(m.id, m.name, m.description, m.size, StatusName(m.isLoaded, isDownloaded), m.capabilities, m.isLoaded)
  }

  // ---------------------------------------------------------------- the manager

  class Manager {
    /** The configured models by id, and their ids in configuration order. */
    var models: map<string, ModelInfo>
    var order: seq<string>
    /** The ids whose model directory exists. */
    var downloaded: set<string>

    /**
      The order lists each configured id once, every record is filed under its own
      id (so distinct ids hold distinct records), and every record is consistent.
    */
    ghost predicate Valid()
      reads this, models.Values
    {
      && (forall i, j :: 0 <= i < j < |order| ==> order[i] != order[j])
      && (forall k :: k in models <==> k in order)
      && (forall k :: k in models ==> models[k].id == k && models[k].Consistent())
    }

    /** One unloaded record per configuration, in configuration order, built from that configuration. */
    constructor(configs: seq<(string, Config)>, onDisk: set<string>)
      requires forall i, j :: 0 <= i < j < |configs| ==> configs[i].0 != configs[j].0
      ensures Valid()
      ensures order == seq(|configs|, i requires 0 <= i < |configs| => configs[i].0)
      ensures downloaded == onDisk
      ensures forall k :: k in models ==> fresh(models[k]) && !models[k].isLoaded && models[k].loadTime == 0.0
      ensures forall i :: 0 <= i < |configs| ==>
                configs[i].0 in models && models[configs[i].0].Configured(configs[i].0, configs[i].1)
    {
      // Build each configuration's record, then file the records under their ids in order.
      var records: seq<ModelInfo> := [];
      for i := 0 to |configs|
        invariant |records| == i
        invariant forall j :: 0 <= j < i ==>
                    && fresh(records[j]) && records[j].Configured(configs[j].0, configs[j].1)
                    && records[j].Consistent() && !records[j].isLoaded && records[j].loadTime == 0.0
      {
        var m := new ModelInfo(configs[i].0, configs[i].1);
        records := records + [m];
      }
      var filed: map<string, ModelInfo> := map[];
      var ids: seq<string> := [];
      for i := 0 to |configs|
        invariant ids == seq(i, j requires 0 <= j < i => configs[j].0)
        invariant forall k :: k in filed <==> k in ids
        invariant forall j :: 0 <= j < i ==> filed[ids[j]] == records[j]
      {
        assert configs[i].0 !in ids;
        filed := filed[configs[i].0 := records[i]];
        ids := ids + [configs[i].0];
      }
      models := filed;
      order := ids;
      downloaded := onDisk;
      new;
    }

    /** One entry per configured model, in configuration order, carrying the record's current status. */
    method ListModels() returns (r: seq<Entry>)
      requires Valid()
      ensures |r| == |order|
      ensures forall i :: 0 <= i < |r| ==> r[i] == EntryOf(models[order[i]], order[i] in downloaded)
    {
      r := [];
      for i := 0 to |order|
        invariant |r| == i
        invariant forall j :: 0 <= j < i ==> r[j] == EntryOf(models[order[j]], order[j] in downloaded)
      {
        var m := models[order[i]];
        var e := Entry(m.id, m.name, m.description, m.size,
                       if m.isLoaded then "loaded" else if order[i] in downloaded then "downloaded" else "not_downloaded",
                       m.capabilities, m.isLoaded);
        assert e == EntryOf(m, order[i] in downloaded);
        r := r + [e];
      }
    }

    /**
      Fetch a model's files. An unknown id fails; a model already on disk is kept
      unless `force`; otherwise the result is the foreign download's, and a failed
      download removes the directory.
    */
    method DownloadModel(id: string, force: bool, fetched: bool) returns (ok: bool)
      requires Valid()
      modifies this
      ensures Valid() && models == old(models) && order == old(order)
      ensures ok <==> id in models && ((id in old(downloaded) && !force) || fetched)
      ensures id !in models || (id in old(downloaded) && !force) ==> downloaded == old(downloaded)
      ensures id in models && (id !in old(downloaded) || force) ==>
                downloaded == if fetched then old(downloaded) + {id} else old(downloaded) - {id}
    {
      if id !in models {
        return false;
      }
      if id in downloaded && !force {
        return true;
      }
      if fetched {
        downloaded := downloaded + {id};
        ok := true;
      } else {
        downloaded := downloaded - {id};
        ok := false;
      }
    }

    /**
      Release a model. An unknown id fails; an unloaded model is left as it is;
      a loaded model loses its model and tokenizer and its memory use drops to 0.
      No other record changes.
    */
    method UnloadModel(id: string) returns (ok: bool)
      requires Valid()
      modifies if id in models then {models[id]} else {}
      ensures Valid()
      ensures ok <==> id in models
      ensures id in models ==> !models[id].isLoaded && models[id].model.None? && models[id].tokenizer.None?
      ensures id in models ==> models[id].memoryUsage == 0.0
      ensures id in models ==> models[id].device == old(models[id].device) && models[id].loadTime == old(models[id].loadTime)
      ensures id in models && !old(models[id].isLoaded) ==> unchanged(models[id])
    {
      if id !in models {
        return false;
      }
      var m := models[id];
      if !m.isLoaded {
        return true;
      }
      m.Release();
      ok := true;
    }

    /**
      Load a model onto `device`. An unknown or not-downloaded id fails and changes
      nothing. Otherwise a loaded model is unloaded first and the loader is asked
      for `plan`; on success the record holds the loaded objects on the resolved
      device, on failure it is left unloaded.
    */
    method LoadModel(id: string, device: string, cudaAvailable: bool, outcome: LoadOutcome)
      returns (ok: bool, plan: Option<LoadPlan>)
      requires Valid()
      modifies if id in models then {models[id]} else {}
      ensures Valid()
      ensures ok <==> id in models && id in downloaded && outcome.Loaded?
      ensures plan.Some? <==> id in models && id in downloaded
      ensures plan.Some? ==>
                plan.value == PlanFor(models[id].kind, models[id].quantization, ResolveDevice(device, cudaAvailable))
      ensures id in models && id !in downloaded ==> unchanged(models[id])
      ensures ok ==>
                var m := models[id];
                && m.isLoaded && m.model == Some(outcome.model) && m.tokenizer == Some(outcome.tokenizer)
                && m.device == ResolveDevice(device, cudaAvailable)
                && m.loadTime == outcome.loadTime && m.memoryUsage == outcome.memoryUsage
      ensures id in models && id in downloaded && !ok ==>
                var m := models[id];
                && !m.isLoaded && m.model.None? && m.tokenizer.None? && m.memoryUsage == 0.0
                && m.device == old(m.device) && m.loadTime == old(m.loadTime)
    {
      if id !in models || id !in downloaded {
        return false, None;
      }
      var m := models[id];
      if m.isLoaded {
        var _ := UnloadModel(id);
      }
      var target := ResolveDevice(device, cudaAvailable);
      plan := Some(PlanFor(m.kind, m.quantization, target));
      match outcome {
        case Loaded(model, tokenizer, loadTime, memoryUsage) =>
          m.MarkLoaded(model, tokenizer, target, loadTime, memoryUsage);
          ok := true;
        case LoadFailed =>
          m.MarkFailed();
          ok := false;
      }
    }

    /** The record of `id` when it is configured and loaded, otherwise nothing. */
    function GetModel(id: string): (r: Option<ModelInfo>)
      reads this, if id in models then {models[id]} else {}
      ensures r.Some? <==> id in models && models[id].isLoaded
      ensures r.Some? ==> r.value == models[id]
    {
      if id in models && models[id].isLoaded then Some(models[id]) else None
    }

    /**
      Unload every loaded model: afterwards none is loaded, every record keeps its
      device and load time, and unloaded records are untouched.
    */
    method Cleanup()
      requires Valid()
      modifies models.Values
      ensures Valid()
      ensures forall k :: k in models ==> !models[k].isLoaded && models[k].memoryUsage == 0.0
      ensures forall k :: k in models ==>
                models[k].device == old(models[k].device) && models[k].loadTime == old(models[k].loadTime)
      ensures forall k :: k in models && !old(models[k].isLoaded) ==> unchanged(models[k])
    {
      for i := 0 to |order|
        invariant Valid()
        invariant forall j :: 0 <= j < i ==> !models[order[j]].isLoaded
        invariant forall k :: k in models ==>
                    models[k].device == old(models[k].device) && models[k].loadTime == old(models[k].loadTime)
        invariant forall k :: k in models && !old(models[k].isLoaded) ==> unchanged(models[k])
      {
        var id := order[i];
        if models[id].isLoaded {
          var _ := UnloadModel(id);
        }
      }
    }
  }
}
