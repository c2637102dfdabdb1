/** The three speech-recognition models the settings offer, and the stored
    choice among them. */
module WhisperHelpers {
  import opened Common
  import opened Storage

  const TinyModel := "Xenova/whisper-tiny.en"
  const BaseModel := "Xenova/whisper-base.en"
  const SmallModel := "Xenova/whisper-small.en"

  /** The `WhisperModel` string union. */
  type WhisperModel = m: string | m == TinyModel || m == BaseModel || m == SmallModel
    witness TinyModel

  datatype WhisperModelInfo = WhisperModelInfo(id: WhisperModel, name: string, description: string, size: string)

  const WhisperModels: seq<WhisperModelInfo> := [
    WhisperModelInfo(TinyModel, "Tiny", "Fastest model, lower accuracy", "~39MB"),
    WhisperModelInfo(BaseModel, "Base", "Good balance of speed and accuracy", "~74MB"),
    WhisperModelInfo(SmallModel, "Small", "Higher accuracy, slower", "~244MB")
  ]

  const WhisperModelKey := "whisper_model"

  /** The table lists exactly the three model ids, each once, tiny first, then base, then small. */
  lemma WhisperModelsTable()
    ensures |WhisperModels| == 3
    ensures WhisperModels[0].id == TinyModel && WhisperModels[1].id == BaseModel && WhisperModels[2].id == SmallModel
    ensures forall i, j :: 0 <= i < j < |WhisperModels| ==> WhisperModels[i].id != WhisperModels[j].id
  {
  }

  /** `getWhisperModel()`: the stored string as it is (unchecked against
      the three ids), or the tiny model when nothing or "" is stored. */
  function GetWhisperModel(store: LocalStorage): (m: string)
    reads store
    ensures m != ""
  {
    OrDefault(store.GetItem(WhisperModelKey), TinyModel)
  }

  /** A stored value is returned unchanged, even one that is not a known id. */
  lemma StoredModelReturnedAsIs(store: LocalStorage)
    requires WhisperModelKey in store.items && store.items[WhisperModelKey] != ""
    ensures GetWhisperModel(store) == store.items[WhisperModelKey]
  {
  }

  /** `setWhisperModel(m)`: the next `getWhisperModel()` gives `m`. */
  method SetWhisperModel(store: LocalStorage, model: WhisperModel)
    modifies store
    ensures store.items == old(store.items)[WhisperModelKey := model]
    ensures GetWhisperModel(store) == model
  {
    store.SetItem(WhisperModelKey, model);
  }
}
