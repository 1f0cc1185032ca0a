/**
 * The browser component's state and its event handlers: loading the
 * discovered files, taking in an upload batch, selecting an entry, editing
 * the settings and running a conversion.
 */
module Converter {
  import opened Options
  import opened Text
  import opened Catalog
  import opened MidiName
  import opened Pipeline

  const ScanningStatus: string := "Scanning for audio files..."
  const NoAudioError: string := "Please upload valid audio files"
  const NoSelectionError: string := "Please select a file to convert"
  const FailurePrefix: string := "Conversion failed: "
  const SuccessPrefix: string := "\U{2713} Converted successfully: "
  const DownloadHint: string := "\n\nReady to download from output folder"

  /**
   * What the status banner shows. The component keeps the banner's text; it
   * is only ever empty, the scanning text or the text of a stage, so the
   * model keeps which of these it is and `StatusText` gives the text.
   */
  datatype StatusLine = Blank | Scanning | Showing(stage: Stage)

  function StatusText(line: StatusLine): string {
    match line
    case Blank => ""
    case Scanning => ScanningStatus
    case Showing(st) => StageStatus(st)
  }

  const AddedWord: string := "Added "
  const FilesSuffix: string := " file(s)"

  /** The notice shown after an upload batch. */
  function UploadNotice(count: nat): string {
    AddedWord + NatToString(count) + FilesSuffix
  }

  /** The notice reports the count: its digits read back as the number of files added. */
  lemma UploadNoticeReadsBack(count: nat)
    ensures var notice := UploadNotice(count);
      && |AddedWord| + |FilesSuffix| <= |notice|
      && IsDigits(notice[|AddedWord|..|notice| - |FilesSuffix|])
      && DigitsValue(notice[|AddedWord|..|notice| - |FilesSuffix|]) == count
  {
    var notice := UploadNotice(count);
    assert notice[|AddedWord|..|notice| - |FilesSuffix|] == NatToString(count);
    NatToStringRoundTrip(count);
  }

  /**
   * The banner a failed run leaves on screen, `Showing` its last reached
   * stage, reads as the last status text the run displayed.
   */
  lemma FailedRunBannerText(s: Settings, outcome: RunOutcome, reached: seq<Stage>)
    requires OutcomeFits(StagePlan(s.normalize, s.toMono), outcome)
    requires reached == StagesReached(StagePlan(s.normalize, s.toMono), outcome)
    ensures var shown := ShownStatuses(s, outcome);
      && |reached| == |shown| > 0
      && StatusText(Showing(reached[|reached| - 1])) == shown[|shown| - 1]
  {
  }

  /** Whether the awaited step `step` of a run throws. */
  predicate ThrowsAt(outcome: RunOutcome, step: nat) {
    outcome.Throws? && outcome.step == step
  }

  class AudioToMidiConverter {
    var files: seq<AudioFile>
    var selected: Option<AudioFile>
    var converting: bool
    var status: StatusLine
    var error: string
    var success: string
    var settings: Settings

    /** The selection, when there is one, is an entry of the list. */
    ghost predicate Valid()
      reads this
    {
      selected.Some? ==> selected.value in files
    }

    /** The state before the component first renders. */
    constructor ()
      ensures Valid()
      ensures files == [] && selected == None && !converting
      ensures status == Blank && error == "" && success == ""
      ensures settings == DefaultSettings
    {
      files := [];
      selected := None;
      converting := false;
      status := Blank;
      error := "";
      success := "";
      settings := DefaultSettings;
    }

    /** The mount effect: the discovered files replace the list and the scanning status is cleared. */
    method LoadAudioFiles()
      modifies this
      ensures files == DiscoveredFiles && status == Blank && StatusText(status) == ""
      ensures selected == old(selected) && converting == old(converting)
      ensures error == old(error) && success == old(success) && settings == old(settings)
      ensures old(selected).None? ==> Valid()
    {
      status := Scanning;
      files := DiscoveredFiles;
      status := Blank;
    }

    /**
     * An upload batch: all of its audio entries are appended in upload order,
     * or, when it has none, the error is set and the list is left alone.
     */
    method HandleFileUpload(batch: seq<UploadEntry>)
      requires Valid()
      modifies this
      ensures Valid()
      ensures AcceptedUploads(batch) == [] ==>
        error == NoAudioError && files == old(files) && success == old(success)
      ensures AcceptedUploads(batch) != [] ==>
        && files == old(files) + NewCatalogEntries(batch)
        && |files| == |old(files)| + |AcceptedUploads(batch)|
        && success == UploadNotice(|AcceptedUploads(batch)|)
        && error == old(error)
      ensures old(files) <= files
      ensures selected == old(selected) && converting == old(converting)
      ensures status == old(status) && settings == old(settings)
    {
      var accepted := AcceptedUploads(batch);
      if |accepted| == 0 {
        error := NoAudioError;
        return;
      }
      var newFiles := NewCatalogEntries(batch);
      files := files + newFiles;
      success := UploadNotice(|accepted|);
    }

    /** The timer three seconds after an upload clears the notice. */
    method UploadNoticeExpires()
      modifies this`success
      ensures success == ""
    {
      success := "";
    }

    /** Clicking the entry at `idx` of the list selects it and clears the error. */
    method Select(idx: nat)
      requires Valid()
      requires idx < |files|
      modifies this`selected, this`error
      ensures Valid()
      ensures selected == Some(files[idx]) && error == ""
    {
      selected := Some(files[idx]);
      error := "";
    }

    method SetNormalize(on: bool)
      modifies this`settings
      ensures settings == old(settings).(normalize := on)
    {
      settings := settings.(normalize := on);
    }

    method SetToMono(on: bool)
      modifies this`settings
      ensures settings == old(settings).(toMono := on)
    {
      settings := settings.(toMono := on);
    }

    /** The range widgets store the value they hand over; nothing is clamped. */
    method SetOnsetThreshold(v: real)
      modifies this`settings
      ensures settings == old(settings).(onsetThreshold := v)
    {
      settings := settings.(onsetThreshold := v);
    }

    method SetFrameThreshold(v: real)
      modifies this`settings
      ensures settings == old(settings).(frameThreshold := v)
    {
      settings := settings.(frameThreshold := v);
    }

    method SetMinimumNoteLength(v: real)
      modifies this`settings
      ensures settings == old(settings).(minimumNoteLength := v)
    {
      settings := settings.(minimumNoteLength := v);
    }

    /** The convert button is enabled exactly when a file is selected and no run is in progress. */
    function CanConvert(): (enabled: bool)
      reads this
      ensures enabled <==> selected.Some? && !converting
    {
      !(selected.None? || converting)
    }

    /**
     * One conversion run, the external work abstracted as `outcome`. Without a
     * selection only the error is set. Otherwise the run shows the statuses of
     * its stages in order, ends on success with the MIDI file name or on a
     * throw with the failure message, and always clears `converting`.
     */
    method ConvertToMidi(outcome: RunOutcome) returns (reached: seq<Stage>)
      requires Valid()
      requires OutcomeFits(StagePlan(settings.normalize, settings.toMono), outcome)
      modifies this`converting, this`status, this`error, this`success
      ensures Valid()
      ensures old(selected).None? ==>
        && error == NoSelectionError && reached == []
        && converting == old(converting) && status == old(status) && success == old(success)
      ensures old(selected).Some? ==>
        && !converting && CanConvert()
        && reached == StagesReached(StagePlan(settings.normalize, settings.toMono), outcome)
        && (outcome.Completes? ==>
              && status == Blank
              && error == "" && success == SuccessPrefix + MidiFileName(selected.value.name))
        && (outcome.Throws? ==>
              && status == Showing(reached[|reached| - 1])
              && error == FailurePrefix + outcome.message && success == "")
    {
      if selected.None? {
        error := NoSelectionError;
        reached := [];
        return;
      }
      converting := true;
      error := "";
      success := "";
      var thrown;
      reached, thrown := WalkStages(outcome);
      if thrown {
        error := FailurePrefix + outcome.message;
      } else {
        var midiFilename := MidiFileName(selected.value.name);
        success := SuccessPrefix + midiFilename;
        status := Blank;
      }
      converting := false;
    }

    /**
     * The body of the run's `try` block up to the MIDI name: each stage shows
     * its status and then awaits its work, which may throw.
     */
    method WalkStages(outcome: RunOutcome) returns (reached: seq<Stage>, thrown: bool)
      requires OutcomeFits(StagePlan(settings.normalize, settings.toMono), outcome)
      modifies this`status
      ensures reached == StagesReached(StagePlan(settings.normalize, settings.toMono), outcome)
      ensures thrown == outcome.Throws?
      ensures status == Showing(reached[|reached| - 1])
    {
      ghost var plan := StagePlan(settings.normalize, settings.toMono);
      reached := [Preprocess];
      status := Showing(Preprocess);
      thrown := ThrowsAt(outcome, 0);
      if !thrown && (settings.normalize || settings.toMono) {
        reached := reached + [Normalize];
        status := Showing(Normalize);
        thrown := ThrowsAt(outcome, 1);
      }
      if !thrown {
        reached := reached + [Inference];
        status := Showing(Inference);
        thrown := ThrowsAt(outcome, |reached| - 1);
      }
      if !thrown {
        reached := reached + [Emit];
        status := Showing(Emit);
        thrown := ThrowsAt(outcome, |reached| - 1);
      }
      assert reached == StagesReached(plan, outcome);
    }

    /** The timer half a second after a successful run appends the download hint. */
    method DownloadHintAppears()
      modifies this`success
      ensures success == old(success) + DownloadHint
    {
      success := success + DownloadHint;
    }
  }
}

/**
 * Client scenarios: what a caller can conclude from the handlers' contracts
 * alone.
 */
module ConverterScenarios {
  import opened Catalog
  import opened MidiName
  import opened Pipeline
  import opened Converter
  import opened AudioFormats

  /** Mount, select the first discovered file and run with the default settings. */
  method GuitarSoloRun() {
    var c := new AudioToMidiConverter();
    c.LoadAudioFiles();
    c.Select(0);
    assert c.selected.value.name == "guitar_solo.wav";
    var reached := c.ConvertToMidi(Completes);
    FullStagePlan(true, true);
    assert reached == [Preprocess, Normalize, Inference, Emit];
    GuitarSoloMidiName();
    assert c.success == SuccessPrefix + ("guitar_solo" + "_basic_pitch.mid");
    assert !c.converting && c.status == Blank && c.error == "";
  }

  /** Without a selection a run only reports the missing selection. */
  method RunWithoutSelection() {
    var c := new AudioToMidiConverter();
    c.LoadAudioFiles();
    var reached := c.ConvertToMidi(Completes);
    assert reached == [] && c.error == NoSelectionError;
    assert !c.converting && c.status == Blank && c.success == "";
  }

  /** The model step throws: the error carries the message and the run is over. */
  method ModelTimeout() {
    var c := new AudioToMidiConverter();
    c.LoadAudioFiles();
    c.Select(1);
    var reached := c.ConvertToMidi(Throws(2, "model timeout"));
    assert reached[|reached| - 1] == Inference;
    assert c.error == FailurePrefix + "model timeout";
    assert !c.converting && c.status == Showing(Inference) && c.success == "";
  }

  /** An upload batch with nothing audio in it leaves the catalog alone. */
  method RejectedUpload() {
    var c := new AudioToMidiConverter();
    c.LoadAudioFiles();
    var doc := UploadEntry("notes.txt", "text/plain", "blob:1");
    OtherExtensionRefused();
    assert !IsAudioUpload(doc) by {
      assert "text/plain"[..6][0] != "audio/"[0];
    }
    AcceptedUploadsEmpty([doc]);
    c.HandleFileUpload([doc]);
    assert c.files == DiscoveredFiles && c.error == NoAudioError;
  }
}
