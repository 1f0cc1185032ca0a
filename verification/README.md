# Audio-to-MIDI converter: a Dafny model

This project models the logic underneath a small audio-to-MIDI front end. It has two parts.

- **The browser component** (`AudioToMidiConverter.tsx`). It keeps a catalog of audio files. It takes in upload batches, accepting an entry when its MIME type starts with `audio/` or its lower-cased name ends in `.wav`, `.mp3`, `.flac`, `.ogg` or `.m4a`. The user selects one entry and runs a conversion. A run shows the status of each stage in turn: preprocessing, then normalizing (only when `normalize || toMono`), then the basic-pitch model, then MIDI generation. A run ends with the derived MIDI file name, or with the failure message. The component also shows a command-line preview of the run.
- **The batch script** (`audio_to_midi.py`). It hands every audio file of a folder listing to the transcription model. It counts the files converted and the files that failed, then prints a summary.

Modules:

- `Text` (text.dfy): ASCII lower-casing, prefix and suffix tests, and the decimal rendering of counts.
- `AudioFormats` (audio_formats.dfy): the extension allow-list. Both source files spell it out, and both use it.
- `Catalog` (catalog.dfy): upload entries, catalog entries, the audio rule and the batch filter.
- `MidiName` (midi_name.dfy): the regular expression `\.[^/.]+$` and the output name.
- `Pipeline` (pipeline.dfy): the settings, the stage plan, the statuses a run shows, and the command preview.
- `Converter` (converter.dfy): the component's state as the class `AudioToMidiConverter`. Its fields are `files`, `selected`, `converting`, `status`, `error`, `success` and `settings`. The status banner only ever shows nothing, the scanning text or a stage's text, so `status` records which (`StatusLine`) and `StatusText` gives the exact text. Each event handler is a method. `ConverterScenarios` holds client methods that drive the class from its contracts alone.
- `Batch` (batch.dfy): `batch_convert`, its summary and `main`.

External collaborators become parameters:

- The model call inside `batch_convert` is the oracle `predictSucceeds: string -> bool`. It is true when `predict` returns and false when it raises.
- The work awaited during a browser run is the oracle `RunOutcome`: either `Completes`, or `Throws(step, message)` at one of the awaited steps. In AudioToMidiConverter.tsx as written, each awaited step is a `setTimeout` delay that never rejects (lines 76, 80, 85 and 88), so the `catch` at lines 102-103 cannot be reached today. `Throws` stands for the real preprocessing, model and MIDI work that those delays simulate.
- The directory listing is a `seq<string>`, and the folder test is `isDirectory: string -> bool`.
- `URL.createObjectURL` is replaced by the `objectUrl` that each `UploadEntry` carries.
- How JavaScript prints a number inside a template literal is the parameter `show: real -> string`.

What the code does (and does not do):

- No parameter is clamped. The slider handlers store whatever value the widget hands over.
- `convertToMidi` never tests `converting`, so there is no "already running" rejection. Only the disabled button guards against re-entry (`CanConvert`).
- There is no cancellation.
- The command preview does not mention `normalize` or `toMono`.
- Mounting replaces the file list with the discovered files. It does not append to the list.
- A failed run clears `converting` but leaves the last stage's status on screen. The status is cleared only on success.
- A successful upload does not clear an earlier error.
- The command preview is drawn only while a file is selected (AudioToMidiConverter.tsx:340-346), so the `input.wav` default of `getCommandLine` never reaches the screen. `PreviewPath` still models the default.

## Model

| member | source | states |
|---|---|---|
| Text.Lower | AudioToMidiConverter.tsx:43 | lower-casing keeps the length and lower-cases each character in place |
| Text.NatToString | AudioToMidiConverter.tsx:59 | a count renders as a non-empty string of decimal digits with no leading zero |
| Text.NatToStringRoundTrip | AudioToMidiConverter.tsx:59 | reading back the rendered count gives the count |
| AudioFormats.HasAudioExtension | audio_to_midi.py:23-37 | a name is audio iff its lower-cased form ends with one of `.wav`, `.mp3`, `.flac`, `.ogg`, `.m4a` (the same list at AudioToMidiConverter.tsx:43) |
| AudioFormats.HasAudioExtensionBySuffix | audio_to_midi.py:23 | a name has an audio extension iff its last four characters, lower-cased, are `.wav`/`.mp3`/`.ogg`/`.m4a`, or its last five are `.flac` |
| AudioFormats.HasAudioExtensionIgnoresCase | audio_to_midi.py:37 | a name and its lower-cased form are accepted alike |
| AudioFormats.UpperCaseExtensionAccepted | AudioToMidiConverter.tsx:43 | `TRACK.WAV` is accepted |
| AudioFormats.OtherExtensionRefused | AudioToMidiConverter.tsx:43 | `notes.txt` is refused |
| Catalog.DiscoveredFiles | AudioToMidiConverter.tsx:28-33 | the four mock files with their names and paths as written; sizes are left out |
| Catalog.IsAudioUpload | AudioToMidiConverter.tsx:41-43 | an upload is audio iff its MIME type starts with `audio/` or its name has an audio extension |
| Catalog.AcceptedUploads | AudioToMidiConverter.tsx:41-44 | the filtered batch is no longer than the batch, and every entry in it passes the audio rule |
| Catalog.AcceptedUploadsMembership | AudioToMidiConverter.tsx:41-44 | an upload is kept iff it is in the batch and its MIME type starts with `audio/` or its name has an audio extension |
| Catalog.AcceptedUploadsAppend | AudioToMidiConverter.tsx:41-44 | the filter keeps upload order: filtering a concatenation gives the concatenation of the filtered parts |
| Catalog.AcceptedUploadsEmpty | AudioToMidiConverter.tsx:46-49 | a batch yields nothing iff none of its uploads passes the audio rule |
| Catalog.AcceptedUploadsAllAudio | AudioToMidiConverter.tsx:41-44 | a batch of audio uploads only is kept whole |
| Catalog.ToAudioFile | AudioToMidiConverter.tsx:51-56 | the entry built for an upload shows the upload's name and has its blob URL as path |
| Catalog.NewCatalogEntries | AudioToMidiConverter.tsx:51-56 | one catalog entry per accepted upload, in upload order |
| Catalog.NewCatalogEntriesMembership | AudioToMidiConverter.tsx:41-56 | an entry is added iff it is built from an upload of the batch that passes the audio rule |
| MidiName.ExtensionUnique | AudioToMidiConverter.tsx:91 | the extension pattern matches at one position at most |
| MidiName.ExtensionStart | AudioToMidiConverter.tsx:91 | finds the position where `\.[^/.]+$` matches, or reports that it matches nowhere |
| MidiName.StripExtension | AudioToMidiConverter.tsx:91 | the result is a prefix of the name; what was removed is a dot followed by one or more characters other than `/` and `.` up to the end; the name is kept whole iff no such suffix exists |
| MidiName.MidiFileName | AudioToMidiConverter.tsx:91 | the output name ends in `_basic_pitch.mid`; what precedes that suffix is the selected name with the match of `\.[^/.]+$` removed: a prefix of the name, followed in the name by a dot and extension characters up to the end, or the whole name when the pattern matches nowhere |
| MidiName.StripAddedExtension | AudioToMidiConverter.tsx:91 | stripping `base + "." + ext` gives back `base` when `ext` is non-empty and has no `/` or `.` |
| MidiName.StripWithoutDot | AudioToMidiConverter.tsx:91 | a name without a dot is kept whole |
| MidiName.StripKeepsDirectoryDots | AudioToMidiConverter.tsx:91 | a name with no dot after its last `/` is kept whole |
| MidiName.TrailingDotKept | AudioToMidiConverter.tsx:91 | a name ending in a dot is kept whole |
| MidiName.GuitarSoloMidiName | AudioToMidiConverter.tsx:91 | `guitar_solo.wav` becomes `guitar_solo_basic_pitch.mid` |
| MidiName.LastExtensionOnlyRemoved | AudioToMidiConverter.tsx:91 | only the last extension of `take.1.flac` is removed |
| Pipeline.StageStatus | AudioToMidiConverter.tsx:72-87 | the four status texts, one per stage, as written |
| Pipeline.StageStatusInjective | AudioToMidiConverter.tsx:72-87 | different stages show different status texts |
| Pipeline.StagePlan | AudioToMidiConverter.tsx:72-87 | a run has three or four stages; it starts with preprocessing, then comes the model, then it ends with MIDI generation; normalizing is among them iff `normalize` or `toMono` |
| Pipeline.FullStagePlan | AudioToMidiConverter.tsx:72-87 | with `normalize` or `toMono` set, as by default, a run goes through all four stages |
| Pipeline.StagePlanOrdered | AudioToMidiConverter.tsx:72-87 | the stages follow the canonical order strictly |
| Pipeline.StagesReached | AudioToMidiConverter.tsx:74-103 | a run reaches a prefix of its plan: all of it when it completes, up to and including the step that throws otherwise |
| Pipeline.ShownStatuses | AudioToMidiConverter.tsx:72-103 | the status texts a run displays: those of the stages it reaches, in order |
| Pipeline.CompletedRunStatuses | AudioToMidiConverter.tsx:72-87 | a completed run shows "Preprocessing audio...", then "Normalizing and converting to mono..." when a flag is set, then "Running basic-pitch model...", then "Generating MIDI file..." |
| Pipeline.NormalizingShownIff | AudioToMidiConverter.tsx:78-81 | the normalizing status appears in a completed run iff `normalize || toMono` |
| Pipeline.ShownStatusesOrdered | AudioToMidiConverter.tsx:72-103 | every run shows a non-empty prefix of the completed run's statuses; it starts with preprocessing and never repeats a status; a failing run's last status is the stage that threw |
| Pipeline.PreviewPath | AudioToMidiConverter.tsx:110 | the selected file's path, or `input.wav` when nothing is selected |
| Pipeline.CommandLine | AudioToMidiConverter.tsx:109-116 | the command-line preview: the engine, the path and the four flags with the three numbers as `show` renders them |
| Pipeline.CommandLineStartsWithPath | AudioToMidiConverter.tsx:110-111 | the preview starts with `basic-pitch output ` and then the selected file's path, or `input.wav` when nothing is selected |
| Pipeline.CommandLineFlagOrder | AudioToMidiConverter.tsx:111-115 | the onset, frame, minimum-note-length and save-midi flags each open a continuation line, in that order, and the preview ends with `--save-midi` |
| Converter.UploadNotice | AudioToMidiConverter.tsx:59 | the notice `Added <count> file(s)` |
| Converter.UploadNoticeReadsBack | AudioToMidiConverter.tsx:59 | the digits of the notice read back as the number of files added |
| Converter.FailedRunBannerText | AudioToMidiConverter.tsx:72-105 | the banner a failed run leaves on screen reads as the last status the run displayed |
| Converter.AudioToMidiConverter.constructor | AudioToMidiConverter.tsx:5-18 | the initial state: no files, no selection, not converting, empty messages, default settings |
| Converter.AudioToMidiConverter.LoadAudioFiles | AudioToMidiConverter.tsx:24-37 | mounting replaces the list with the four discovered files and leaves the status text empty |
| Converter.AudioToMidiConverter.HandleFileUpload | AudioToMidiConverter.tsx:39-61 | with no audio upload: the error "Please upload valid audio files" is set and the list is unchanged; otherwise: the list becomes the old list followed by the accepted entries, the notice reports the number accepted, and nothing else changes |
| Converter.AudioToMidiConverter.UploadNoticeExpires | AudioToMidiConverter.tsx:60 | the upload notice is cleared |
| Converter.AudioToMidiConverter.Select | AudioToMidiConverter.tsx:188-191 | the clicked entry becomes the selection and the error is cleared |
| Converter.AudioToMidiConverter.SetNormalize | AudioToMidiConverter.tsx:238 | only `normalize` changes |
| Converter.AudioToMidiConverter.SetToMono | AudioToMidiConverter.tsx:251 | only `toMono` changes |
| Converter.AudioToMidiConverter.SetOnsetThreshold | AudioToMidiConverter.tsx:274 | the onset threshold is stored as given, without clamping |
| Converter.AudioToMidiConverter.SetFrameThreshold | AudioToMidiConverter.tsx:292 | the frame threshold is stored as given, without clamping |
| Converter.AudioToMidiConverter.SetMinimumNoteLength | AudioToMidiConverter.tsx:310 | the minimum note length is stored as given, without clamping |
| Converter.AudioToMidiConverter.CanConvert | AudioToMidiConverter.tsx:323 | the convert button is enabled iff a file is selected and no run is in progress; ConvertToMidi's contract re-enables it after every run with a selection |
| Converter.AudioToMidiConverter.ConvertToMidi | AudioToMidiConverter.tsx:63-107 | without a selection: only the error "Please select a file to convert" is set, no stage runs, and `converting`, `status` and `success` are untouched; otherwise: the stages reached are exactly the plan's prefix the outcome allows, and `converting` ends false, so the button is enabled again (the `finally` at line 105); success shows "✓ Converted successfully: " with the MIDI name and clears the status and the error; a throw sets "Conversion failed: " plus the message, clears the success message and leaves the last reached stage's status on screen |
| Converter.AudioToMidiConverter.WalkStages | AudioToMidiConverter.tsx:72-88 | the stages walked are the plan's prefix the outcome allows; the walk reports a throw iff the outcome throws; the status left on screen is the last reached stage's |
| Converter.AudioToMidiConverter.DownloadHintAppears | AudioToMidiConverter.tsx:98-100 | the download hint is appended to whatever the success message then is |
| Batch.AudioNames | audio_to_midi.py:36-37 | the names handed to the model are no more than the listing, and each has an audio extension |
| Batch.AudioNamesMembership | audio_to_midi.py:37 | a listed name is handed to the model iff its lower-cased form ends with an audio extension |
| Batch.AudioNamesSkipsOthers | audio_to_midi.py:37-52 | a name without an audio extension adds no model call and no count |
| Batch.AudioNamesAppend | audio_to_midi.py:36-37 | the model is called in listing order |
| Batch.BatchConvert | audio_to_midi.py:14-58 | each audio file is handed to the model once, in order, whatever earlier calls did; `processed` counts the calls that returned; `processed + failed` is the number of audio files |
| Batch.SummaryLines | audio_to_midi.py:54-58 | the summary is the sixty-dash separator, "Batch conversion complete!", the processed line carrying the rendered `processed`, and a "Failed: " line carrying the rendered `failed`; the last line is present iff `failed > 0` |
| Batch.SummaryReportsCounts | audio_to_midi.py:56-58 | the digits of each count line read back as `processed` and `failed` |
| Batch.ExitStatus | audio_to_midi.py:63-83 | the script exits with 0 iff the batch ran; CliMain's contract states when that is |
| Batch.CliMain | audio_to_midi.py:61-77 | the exit status is non-zero iff the argument count is wrong or the input folder is missing; any argument count other than two user arguments gives the usage error before any conversion; a missing input folder stops before any conversion; otherwise the batch runs over the listing |

## Left out

- JSX rendering, styling and the advanced-settings toggle (AudioToMidiConverter.tsx:118-375): these are UI. Only the button's enabledness is kept, as `CanConvert`.
- Timers and `await` delays: a run is one sequential method. The two `setTimeout` callbacks are separate methods (`UploadNoticeExpires`, `DownloadHintAppears`) that the environment may call later. Their timing is not modelled.
- The intermediate states that React renders while a run is suspended: `ConvertToMidi` returns the stages reached, in order, instead; the statuses shown are `Statuses` of them (`ShownStatuses`).
- `URL.createObjectURL` and the MB size strings: the first is a browser call, and the second is floating-point formatting. Catalog entries carry no size.
- The numeric settings are opaque `real`s, and their rendering in the preview is the parameter `show`.
- Text.Lower: only ASCII letters are lower-cased. JavaScript's `toLowerCase` and Python's `str.lower` also map non-ASCII letters.
- The Python `print` output other than the final summary (the start banner and the separator before the loop, and the per-file lines), `Path.mkdir`, `os.listdir`, `os.path.join`, `sys.exit` and the `basic_pitch.predict` call: these are I/O and a foreign call. They become the parameters listed above.
- Batch.CliMain: the `KeyboardInterrupt` and other-exception handlers (audio_to_midi.py:78-83) are not modelled. Nothing in the model can raise outside the per-file `try`.
- Converter.AudioToMidiConverter.ConvertToMidi: the outcome oracle must name one of the run's awaited steps (`OutcomeFits`). A throw anywhere else in the `try` block is not modelled.
