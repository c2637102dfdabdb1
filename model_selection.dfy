/** The summary-model picker's state: the listed chat models, the probed
    graphics memory, and the selected model, remembered in local storage.
    The two main-process answers (the model list and the probe) are
    inputs, each either a value or a failure. */
module ModelSelection {
  import opened Common
  import opened Storage
  import OllamaService
  import SystemInfo

  const ModelStorageKey := "pecho-selected-model"
  const LoadFailed := "Failed to load models"

  /** `models.some(m => m.name === name)` */
  predicate Listed(models: seq<OllamaService.OllamaModel>, name: string) {
    exists i :: 0 <= i < |models| && models[i].name == name
  }

  /** The selection a successful load makes: the remembered name when it is
      set and listed, otherwise the first listed model, and no new selection
      at all when nothing is listed. Whatever it picks is listed. */
  function Resolve(cached: Option<string>, models: seq<OllamaService.OllamaModel>): (r: Option<string>)
    ensures r.Some? ==> Listed(models, r.value)
    ensures r.None? <==> |models| == 0
    ensures Truthy(cached) && Listed(models, cached.value) ==> r == cached
    ensures !(Truthy(cached) && Listed(models, cached.value)) && |models| > 0 ==> r == Some(models[0].name)
  {
    if Truthy(cached) && Listed(models, cached.value) then cached
    else if |models| > 0 then Some(models[0].name)
    else None
  }

  /** The remembered name is kept only when it is listed: any name the
      list does not contain gives way to the first listed model. */
  lemma UnlistedCacheReplaced(cached: string, models: seq<OllamaService.OllamaModel>)
    requires |models| > 0 && !Listed(models, cached)
    ensures Resolve(Some(cached), models) == Some(models[0].name)
    ensures Resolve(Some(cached), models) != Some(cached)
  {
    assert models[0].name == cached ==> Listed(models, cached);
  }

  /** The memory figure shown: the probe's bytes, or nothing when the probe found no GPU. */
  function GpuVram(gpu: Option<SystemInfo.GPUInfo>): (v: Option<int>)
    ensures v.Some? <==> gpu.Some?
    ensures gpu.Some? ==> v.value == gpu.value.vram
  {
    if gpu.Some? then Some(gpu.value.vram) else None
  }

  /** The failure `Promise.all` reports: the listing's, if it failed, else the probe's. */
  function FirstFailure(
    models: Result<seq<OllamaService.OllamaModel>, Failure>,
    gpu: Result<Option<SystemInfo.GPUInfo>, Failure>): (f: Option<Failure>)
    ensures f.None? <==> models.Ok? && gpu.Ok?
    ensures models.Err? ==> f == Some(models.error)
    ensures models.Ok? && gpu.Err? ==> f == Some(gpu.error)
  {
    if models.Err? then Some(models.error)
    else if gpu.Err? then Some(gpu.error)
    else None
  }

  class Picker {
    var selectedModel: Option<string>
    var availableModels: seq<OllamaService.OllamaModel>
    var gpuVRAM: Option<int>
    var isLoading: bool
    var error: Option<string>

    /** The state on mount, before the first load completes. */
    constructor ()
      ensures selectedModel.None? && availableModels == [] && gpuVRAM.None?
      ensures isLoading && error.None?
    {
      selectedModel := None;
      availableModels := [];
      gpuVRAM := None;
      isLoading := true;
      error := None;
    }

    /** `loadModels()`. On success the list and memory figure are replaced
        and the selection resolved; the store is written only when the
        first listed model is taken. On failure only the error changes.
        Loading is over either way. */
    method LoadModels(
      store: LocalStorage,
      models: Result<seq<OllamaService.OllamaModel>, Failure>,
      gpu: Result<Option<SystemInfo.GPUInfo>, Failure>)
      modifies this, store
      ensures !isLoading
      ensures FirstFailure(models, gpu).Some? ==>
        && error == Some(MessageOr(FirstFailure(models, gpu).value, LoadFailed))
        && selectedModel == old(selectedModel)
        && availableModels == old(availableModels)
        && gpuVRAM == old(gpuVRAM)
        && store.items == old(store.items)
      ensures FirstFailure(models, gpu).None? ==>
        && error.None?
        && availableModels == models.value
        && gpuVRAM == GpuVram(gpu.value)
        && var pick := Resolve(old(store.GetItem(ModelStorageKey)), models.value);
          && selectedModel == (if pick.Some? then pick else old(selectedModel))
          && store.items == (if pick.Some? && pick != old(store.GetItem(ModelStorageKey))
                             then old(store.items)[ModelStorageKey := pick.value]
                             else old(store.items))
      ensures FirstFailure(models, gpu).None? && |models.value| > 0 ==>
        && selectedModel.Some? && Listed(models.value, selectedModel.value)
        && store.GetItem(ModelStorageKey) == selectedModel
    {
      isLoading := true;
      error := None;
      if models.Err? || gpu.Err? {
        var cause := if models.Err? then models.error else gpu.error;
        error := Some(MessageOr(cause, LoadFailed));
      } else {
        availableModels := models.value;
        gpuVRAM := if gpu.value.Some? then Some(gpu.value.value.vram) else None;
        var cachedModel := store.GetItem(ModelStorageKey);
        if Truthy(cachedModel) && Listed(models.value, cachedModel.value) {
          selectedModel := cachedModel;
        } else if |models.value| > 0 {
          var defaultModel := models.value[0].name;
          selectedModel := Some(defaultModel);
          store.SetItem(ModelStorageKey, defaultModel);
        }
      }
      isLoading := false;
    }

    /** `selectModel(name)`: selected and remembered, listed or not. */
    method SelectModel(store: LocalStorage, name: string)
      modifies this, store
      ensures selectedModel == Some(name)
      ensures store.items == old(store.items)[ModelStorageKey := name]
      ensures store.GetItem(ModelStorageKey) == Some(name)
      ensures availableModels == old(availableModels) && gpuVRAM == old(gpuVRAM)
      ensures isLoading == old(isLoading) && error == old(error)
    {
      selectedModel := Some(name);
      store.SetItem(ModelStorageKey, name);
    }
  }
}
