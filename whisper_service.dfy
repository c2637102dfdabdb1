/** The main-process speech-recognition service: a transcriber pipeline
    loaded on first use and kept for the life of the process, the options
    every transcription uses, and the wrapping of failures. The model
    loader and the pipeline's inference are function parameters. */
module WhisperService {
  import opened Common
  import WhisperHelpers

  /** One Float32 sample, kept as its raw bits: the model treats audio as an opaque payload. */
  type Sample = bv32

  /** A decoded audio buffer: one sample sequence per channel, at least one channel. */
  datatype AudioBuffer = AudioBuffer(channels: seq<seq<Sample>>)
  type DecodedAudio = b: AudioBuffer | |b.channels| > 0 witness AudioBuffer([[]])

  /** A loaded pipeline object, known only by identity. */
  datatype Pipeline = Pipeline(id: nat)

  datatype TranscribeOptions = TranscribeOptions(returnTimestamps: bool, language: string)
  datatype TranscriptionOutput = TranscriptionOutput(text: string)

  type Loader = string -> Result<Pipeline, Failure>
  type Inference = (Pipeline, seq<Sample>, TranscribeOptions) -> Result<TranscriptionOutput, Failure>

  /** The model the service loads, whatever the stored preference says. */
  const LoadedModel: string := WhisperHelpers.TinyModel
  const Options := TranscribeOptions(false, "english")
  const TranscribeErrorPrefix := "Failed to transcribe audio: "

  /** `audioBufferToFloat32Array(buffer)`: channel 0. */
  function AudioBufferToFloat32Array(buffer: DecodedAudio): (samples: seq<Sample>)
    ensures samples == buffer.channels[0]
    ensures buffer.channels == [samples] + buffer.channels[1..]
  {
    buffer.channels[0]
  }

  class Transcriber {
    /** The module-level `transcriber` variable; `None` is null. */
    var pipeline: Option<Pipeline>
    /** The model ids the loader has been asked for, in order. */
    ghost var loadRequests: seq<string>

    constructor ()
      ensures pipeline.None? && loadRequests == []
    {
      pipeline := None;
      loadRequests := [];
    }

    /** `initializeWhisper()`: loads the tiny English model only while no
        pipeline is held; a held pipeline is returned without reloading; a
        failed load leaves nothing held, so the next call retries. */
    method InitializeWhisper(load: Loader) returns (r: Result<Pipeline, Failure>)
      modifies this
      ensures old(pipeline).Some? ==>
        r == Ok(old(pipeline).value) && pipeline == old(pipeline) && loadRequests == old(loadRequests)
      ensures old(pipeline).None? ==>
        && loadRequests == old(loadRequests) + [LoadedModel]
        && r == load(LoadedModel)
        && pipeline == (if r.Ok? then Some(r.value) else None)
    {
      if pipeline.None? {
        loadRequests := loadRequests + [LoadedModel];
        r := load(LoadedModel);
        if r.Ok? {
          pipeline := Some(r.value);
        }
      } else {
        r := Ok(pipeline.value);
      }
    }

    /** `transcribeAudio(audio)`: runs the held (or freshly loaded) pipeline
        without timestamps, in English, and gives its text; a load or
        inference failure becomes a message with the fixed prefix. */
    method TranscribeAudio(audio: seq<Sample>, load: Loader, infer: Inference) returns (r: Result<string, string>)
      modifies this
      ensures old(pipeline).Some? ==> pipeline == old(pipeline) && loadRequests == old(loadRequests)
      ensures old(pipeline).None? ==> loadRequests == old(loadRequests) + [LoadedModel]
      ensures old(pipeline).None? ==> pipeline == (if load(LoadedModel).Ok? then Some(load(LoadedModel).value) else None)
      ensures pipeline.None? ==> load(LoadedModel).Err? && r == Err(TranscribeErrorPrefix + MessageOr(load(LoadedModel).error, "Unknown error"))
      ensures pipeline.Some? ==> r == (match infer(pipeline.value, audio, Options)
                                       case Ok(out) => Ok(out.text)
                                       case Err(cause) => Err(TranscribeErrorPrefix + MessageOr(cause, "Unknown error")))
    {
      var model := InitializeWhisper(load);
      if model.Err? {
        return Err(TranscribeErrorPrefix + MessageOr(model.error, "Unknown error"));
      }
      var result := infer(model.value, audio, Options);
      match result
      case Ok(out) => r := Ok(out.text);
      case Err(cause) => r := Err(TranscribeErrorPrefix + MessageOr(cause, "Unknown error"));
    }
  }

  /** Once a pipeline is held, any number of further transcriptions reuse
      it and never call the loader again. */
  method TranscribeTwice(t: Transcriber, a: seq<Sample>, b: seq<Sample>, load: Loader, infer: Inference)
    returns (first: Result<string, string>, second: Result<string, string>)
    modifies t
    ensures old(t.pipeline).Some? ==> t.loadRequests == old(t.loadRequests) && t.pipeline == old(t.pipeline)
    ensures first.Ok? ==> t.loadRequests == old(t.loadRequests) + (if old(t.pipeline).None? then [LoadedModel] else [])
  {
    first := t.TranscribeAudio(a, load, infer);
    second := t.TranscribeAudio(b, load, infer);
  }
}
