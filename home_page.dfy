/** The recording page's own logic: the `m:ss` duration display, the
    Markdown export and its file name, and the handlers that start a
    recording, enter and process typed input, generate the summary and
    stop a recording. The current date strings and the summarizing call
    to the main process are inputs. */
module HomePage {
  import opened Common
  import opened JsStrings
  import Recording
  import ModelSelection

  // ---------------------------------------------------------------------
  // The duration display

  /** `n.toString().padStart(2, "0")` */
  function TwoDigits(n: nat): string {
    PadStart(NatToString(n), 2, '0')
  }

  /** Below 100, two digits that read back as `n`. */
  lemma TwoDigitsOf(n: nat)
    requires n < 100
    ensures |TwoDigits(n)| == 2 && AllDigits(TwoDigits(n)) && DecimalValue(TwoDigits(n)) == n
  {
    var d := TwoDigits(n);
    if n < 10 {
      assert NatToString(n) == [DigitChar(n)];
      assert d == ['0', DigitChar(n)];
      assert d[..1] == ['0'];
      assert ['0'][..0] == [];
      assert DecimalValue(['0']) == 0;
      assert DecimalValue(d) == DecimalValue(d[..1]) * 10 + (d[1] as int - '0' as int);
    } else {
      assert NatToString(n / 10) == [DigitChar(n / 10)];
      assert NatToString(n) == [DigitChar(n / 10)] + [DigitChar(n % 10)];
      assert d == [DigitChar(n / 10), DigitChar(n % 10)];
      assert d[..1] == [DigitChar(n / 10)];
      assert DecimalValue(d[..1]) == n / 10;
      assert n == (n / 10) * 10 + n % 10;
    }
  }

  /** `formatDuration(seconds)`: whole minutes, a colon, then the seconds
      of the minute on two digits. */
  function FormatDuration(seconds: nat): (r: string)
    ensures |r| >= 4 && r[|r| - 3] == ':'
  {
    TwoDigitsOf(seconds % 60);
    NatToString(seconds / 60) + ":" + TwoDigits(seconds % 60)
  }

  /** The display ends in a colon and two digits below 60; what comes
      before the colon is the minutes, and minutes · 60 + seconds is the
      duration. */
  lemma FormatDurationParts(seconds: nat)
    ensures var r := FormatDuration(seconds);
      && |r| >= 4 && r[|r| - 3] == ':'
      && AllDigits(r[..|r| - 3]) && AllDigits(r[|r| - 2..])
      && DecimalValue(r[|r| - 2..]) < 60
      && DecimalValue(r[..|r| - 3]) * 60 + DecimalValue(r[|r| - 2..]) == seconds
  {
    var r := FormatDuration(seconds);
    var mins := NatToString(seconds / 60);
    var secs := TwoDigits(seconds % 60);
    TwoDigitsOf(seconds % 60);
    DecimalValueOfNatToString(seconds / 60);
    assert r[..|r| - 3] == mins;
    assert r[|r| - 2..] == secs;
  }

  /** Reading an `m:ss` display back into seconds. */
  function ParseDuration(text: string): Option<nat> {
    if |text| >= 4 && text[|text| - 3] == ':' && AllDigits(text[..|text| - 3]) && AllDigits(text[|text| - 2..])
    then Some(DecimalValue(text[..|text| - 3]) * 60 + DecimalValue(text[|text| - 2..]))
    else None
  }

  /** Every display reads back as the duration it shows. */
  lemma ParseFormatDuration(seconds: nat)
    ensures ParseDuration(FormatDuration(seconds)) == Some(seconds)
  {
    FormatDurationParts(seconds);
  }

  /** So two durations never share a display. */
  lemma FormatDurationInjective(a: nat, b: nat)
    requires FormatDuration(a) == FormatDuration(b)
    ensures a == b
  {
    ParseFormatDuration(a);
    ParseFormatDuration(b);
  }

  // ---------------------------------------------------------------------
  // The export

  const Header := "# Meeting Summary\n\n"
  const TranscriptHeading := "## Transcript\n\n"
  const SummaryHeading := "## AI Summary\n\n"
  const Footer := "---\n*Generated with Personal Echo*\n"
  const FilenamePrefix := "meeting-summary-"
  const FilenameExtension := ".md"

  function DateLine(date: string): string {
    "**Date:** " + date + "\n"
  }

  function DurationLine(seconds: nat): string {
    "**Duration:** " + FormatDuration(seconds) + "\n\n"
  }

  /** The document down to the transcript: header, date line, duration line, transcript section. */
  function ExportBody(date: string, seconds: nat, transcript: string): string {
    Header + DateLine(date) + DurationLine(seconds) + TranscriptHeading + transcript + "\n\n"
  }

  /** The summary section, present only for a non-empty summary. */
  function SummarySection(summary: string): string {
    if summary != "" then SummaryHeading + summary + "\n\n" else ""
  }

  /** The exported Markdown document. */
  function ExportDocument(date: string, seconds: nat, transcript: string, summary: string): (doc: string)
    ensures |doc| >= |Header| + |Footer|
    ensures doc[..|Header|] == Header
    ensures doc[|doc| - |Footer|..] == Footer
  {
    var n := |Header|;
    var p1 := Header + DateLine(date);
    var p2 := p1 + DurationLine(seconds);
    var p3 := p2 + TranscriptHeading;
    var p4 := p3 + transcript;
    var body := p4 + "\n\n";
    assert p1[..n] == Header;
    assert p2[..n] == p1[..n];
    assert p3[..n] == p2[..n];
    assert p4[..n] == p3[..n];
    assert body[..n] == p4[..n];
    assert body == ExportBody(date, seconds, transcript);
    var framed := body + SummarySection(summary);
    assert framed[..n] == body[..n];
    framed + Footer
  }

  /** The summary section is there exactly when the summary is non-empty:
      an empty summary gives the body followed directly by the footer. */
  lemma ExportSummaryIff(date: string, seconds: nat, transcript: string, summary: string)
    ensures summary == "" <==> ExportDocument(date, seconds, transcript, summary) == ExportBody(date, seconds, transcript) + Footer
    ensures summary != "" ==>
      ExportDocument(date, seconds, transcript, summary)
        == ExportBody(date, seconds, transcript) + SummaryHeading + summary + "\n\n" + Footer
  {
    var body := ExportBody(date, seconds, transcript);
    var section := SummarySection(summary);
    assert ExportDocument(date, seconds, transcript, summary) == body + section + Footer;
    if summary == "" {
      assert body + section == body;
    } else {
      assert |body + section + Footer| > |body + Footer|;
      assert body + section + Footer == body + SummaryHeading + summary + "\n\n" + Footer;
    }
  }

  /** `toISOString().replace(/[:.]/g, "-")` */
  function ReplaceSeparators(s: string): (r: string)
    ensures |r| == |s|
    ensures forall i :: 0 <= i < |s| ==> r[i] == if s[i] == ':' || s[i] == '.' then '-' else s[i]
    ensures ':' !in r && '.' !in r
  {
    seq(|s|, i requires 0 <= i < |s| => if s[i] == ':' || s[i] == '.' then '-' else s[i])
  }

  /** The download's file name: no colon, and its only dot is the
      extension's; the timestamp is kept in between, separators replaced. */
  function ExportFilename(isoTimestamp: string): (f: string)
    ensures |f| == |FilenamePrefix| + |isoTimestamp| + |FilenameExtension|
    ensures ':' !in f
    ensures f[|f| - |FilenameExtension|..] == FilenameExtension
    ensures '.' !in f[..|f| - |FilenameExtension|]
    ensures f[|FilenamePrefix|..|f| - |FilenameExtension|] == ReplaceSeparators(isoTimestamp)
  {
    var f := FilenamePrefix + ReplaceSeparators(isoTimestamp) + FilenameExtension;
    assert f[..|f| - |FilenameExtension|] == FilenamePrefix + ReplaceSeparators(isoTimestamp);
    assert f[|FilenamePrefix|..|f| - |FilenameExtension|] == ReplaceSeparators(isoTimestamp);
    f
  }

  // ---------------------------------------------------------------------
  // The handlers

  /** The summarizing call to the main process, by transcript and model name. */
  type Summarizer = (string, string) -> Result<string, Failure>

  const ProcessFailed := "Failed to process transcript"
  const SummaryFailed := "Failed to generate summary"

  /** The guard of both summarizing handlers: `text.trim()` is truthy
      (the text has some non-whitespace character) and a model is selected. */
  predicate CanSummarize(text: string, selected: Option<string>)
    ensures (forall i :: 0 <= i < |text| ==> IsWhitespace(text[i])) ==> !CanSummarize(text, selected)
  {
    HasContentWhitespace(text);
    HasContent(text) && Truthy(selected)
  }

  /** The guard is the source's own test: a non-empty trimmed text and a
      non-empty selected name; so blank text is never summarized. */
  lemma CanSummarizeIff(text: string, selected: Option<string>)
    ensures CanSummarize(text, selected) <==> Trim(text) != "" && selected.Some? && selected.value != ""
  {
    HasContentIff(text);
    TrimEmptyIff(text);
  }

  class Page {
    const recording: Recording.Recorder
    const models: ModelSelection.Picker
    var summary: string
    var isProcessing: bool
    var processingError: Option<string>
    var manualInput: string
    var useManualMode: bool

    constructor (recording: Recording.Recorder, models: ModelSelection.Picker)
      ensures this.recording == recording && this.models == models
      ensures summary == "" && !isProcessing && processingError.None?
      ensures manualInput == "" && !useManualMode
    {
      this.recording := recording;
      this.models := models;
      summary := "";
      isProcessing := false;
      processingError := None;
      manualInput := "";
      useManualMode := false;
    }

    /** `handleStartRecording`: the summary and its error are cleared and
        manual mode is left before the recording starts. */
    method HandleStartRecording(mic: Recording.Outcome, displayGranted: bool, setup: Recording.Outcome)
      modifies this, recording
      ensures summary == "" && processingError.None? && !useManualMode
      ensures manualInput == old(manualInput) && isProcessing == old(isProcessing)
      ensures recording.State() == Recording.AfterStart(old(recording.State()), mic, displayGranted, setup)
    {
      summary := "";
      processingError := None;
      useManualMode := false;
      recording.Start(mic, displayGranted, setup);
    }

    /** `handleStopRecording`, followed by the recorder's stop handler,
        which transcribes the collected blob when a recorder was stopped. */
    method HandleStopRecording(decode: Recording.Decoder, transcribe: Recording.TranscribeCall)
      modifies recording
      ensures var stopped := Recording.AfterStop(old(recording.State()));
        recording.State() == match Recording.StopBlob(old(recording.State()))
          case Some(blob) => Recording.AfterTranscription(stopped, blob, decode, transcribe)
          case None => stopped
    {
      var blob := recording.Stop();
      if blob.Some? {
        recording.ProcessAudioBlob(blob.value, decode, transcribe);
      }
    }

    /** `handleManualInput`: an empty input box in manual mode, no summary or error. */
    method HandleManualInput()
      modifies this
      ensures summary == "" && processingError.None? && manualInput == "" && useManualMode
      ensures isProcessing == old(isProcessing)
    {
      summary := "";
      processingError := None;
      manualInput := "";
      useManualMode := true;
    }

    /** The summarizing step both handlers share: processing while the
        call runs, then its text as the summary, or its message (or the
        fallback) as the error with the summary kept. */
    method RunSummary(text: string, model: string, summarize: Summarizer, fallback: string) returns (succeeded: bool)
      modifies this
      ensures succeeded == summarize(text, model).Ok?
      ensures succeeded ==> summary == summarize(text, model).value && processingError.None?
      ensures !succeeded ==>
        summary == old(summary) && processingError == Some(MessageOr(summarize(text, model).error, fallback))
      ensures !isProcessing && manualInput == old(manualInput) && useManualMode == old(useManualMode)
    {
      isProcessing := true;
      processingError := None;
      var result := summarize(text, model);
      succeeded := result.Ok?;
      if result.Ok? {
        summary := result.value;
      } else {
        processingError := Some(MessageOr(result.error, fallback));
      }
      isProcessing := false;
    }

    /** `handleProcessManualInput`: when allowed, the typed text becomes the
        transcript before it is summarized; manual mode is left only on
        success; a failure leaves the summary and reports its message. */
    method HandleProcessManualInput(summarize: Summarizer)
      modifies this, recording
      ensures !CanSummarize(old(manualInput), models.selectedModel) ==>
        && summary == old(summary) && processingError == old(processingError)
        && useManualMode == old(useManualMode) && isProcessing == old(isProcessing)
        && recording.State() == old(recording.State())
      ensures CanSummarize(old(manualInput), models.selectedModel) ==>
        var result := summarize(old(manualInput), models.selectedModel.value);
        && !isProcessing
        && recording.State() == old(recording.State()).(transcript := old(manualInput))
        && (result.Ok? ==> summary == result.value && processingError.None? && !useManualMode)
        && (result.Err? ==>
              && summary == old(summary) && processingError == Some(MessageOr(result.error, ProcessFailed))
              && useManualMode == old(useManualMode))
      ensures manualInput == old(manualInput)
    {
      if CanSummarize(manualInput, models.selectedModel) {
        recording.SetTranscript(manualInput);
        ghost var transcribed := recording.State();
        var succeeded := RunSummary(manualInput, models.selectedModel.value, summarize, ProcessFailed);
        assert recording.State() == transcribed;
        if succeeded {
          useManualMode := false;
        }
      }
    }

    /** `handleGenerateSummary`: when allowed, the recorded transcript is
        summarized; a failure leaves the summary and reports its message;
        processing is over either way. */
    method HandleGenerateSummary(summarize: Summarizer)
      modifies this
      ensures !CanSummarize(recording.transcript, models.selectedModel) ==>
        && summary == old(summary) && processingError == old(processingError) && isProcessing == old(isProcessing)
      ensures CanSummarize(recording.transcript, models.selectedModel) ==>
        var result := summarize(recording.transcript, models.selectedModel.value);
        && !isProcessing
        && (result.Ok? ==> summary == result.value && processingError.None?)
        && (result.Err? ==> summary == old(summary) && processingError == Some(MessageOr(result.error, SummaryFailed)))
      ensures manualInput == old(manualInput) && useManualMode == old(useManualMode)
    {
      if CanSummarize(recording.transcript, models.selectedModel) {
        var _ := RunSummary(recording.transcript, models.selectedModel.value, summarize, SummaryFailed);
      }
    }

    /** `handleExport`: the file name and the document, built by appending
        section after section. `date` and `isoTimestamp` are the current
        time's two renderings. */
    method HandleExport(date: string, isoTimestamp: string) returns (filename: string, content: string)
      ensures filename == ExportFilename(isoTimestamp)
      ensures content == ExportDocument(date, recording.duration, recording.transcript, summary)
    {
      filename := FilenamePrefix + ReplaceSeparators(isoTimestamp) + FilenameExtension;
      var seconds, transcript := recording.duration, recording.transcript;
      content := Header;
      content := content + DateLine(date);
      content := content + DurationLine(seconds);
      content := content + TranscriptHeading;
      content := content + transcript + "\n\n";
      assert content == ExportBody(date, seconds, transcript);
      ghost var body := content;
      if summary != "" {
        content := content + SummaryHeading;
        content := content + summary + "\n\n";
        assert content == body + (SummaryHeading + summary + "\n\n");
      }
      assert content == body + SummarySection(summary);
      content := content + Footer;
    }
  }
}
