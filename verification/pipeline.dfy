/**
 * The pure side of one conversion run: the parameter set, the stages a run
 * walks through and the status text each shows, and the command-line
 * equivalent displayed beside the convert button.
 */
module Pipeline {
  import opened Options
  import opened Text
  import opened Catalog

  /**
   * The tunable parameters. The three numbers are whatever the range widgets
   * hand over; nothing clamps them.
   */
  datatype Settings = Settings(
    onsetThreshold: real,
    frameThreshold: real,
    minimumNoteLength: real,
    normalize: bool,
    toMono: bool)

  const DefaultSettings: Settings := Settings(0.5, 0.3, 127.70, true, true)

  datatype Stage = Preprocess | Normalize | Inference | Emit

  /** Position of a stage in the canonical order. */
  function Rank(st: Stage): nat {
    match st
    case Preprocess => 0
    case Normalize => 1
    case Inference => 2
    case Emit => 3
  }

  /** The status text shown while a stage runs. */
  function StageStatus(st: Stage): string {
    match st
    case Preprocess => "Preprocessing audio..."
    case Normalize => "Normalizing and converting to mono..."
    case Inference => "Running basic-pitch model..."
    case Emit => "Generating MIDI file..."
  }

  /** Different stages show different texts. */
  lemma StageStatusInjective(a: Stage, b: Stage)
    requires StageStatus(a) == StageStatus(b)
    ensures a == b
  {
  }

  /** The stages a run with these flags goes through. */
  function StagePlan(normalize: bool, toMono: bool): (plan: seq<Stage>)
    ensures 3 <= |plan| <= 4
    ensures plan[0] == Preprocess && plan[|plan| - 1] == Emit
    ensures Normalize in plan <==> normalize || toMono
    ensures plan[|plan| - 2] == Inference
  {
    [Preprocess] + (if normalize || toMono then [Normalize] else []) + [Inference, Emit]
  }

  /** With either flag set (as by default) a run goes through all four stages. */
  lemma FullStagePlan(normalize: bool, toMono: bool)
    requires normalize || toMono
    ensures StagePlan(normalize, toMono) == [Preprocess, Normalize, Inference, Emit]
  {
  }

  /** The plan lists its stages strictly in canonical order, so none repeats. */
  lemma StagePlanOrdered(normalize: bool, toMono: bool, i: nat, j: nat)
    requires i < j < |StagePlan(normalize, toMono)|
    ensures Rank(StagePlan(normalize, toMono)[i]) < Rank(StagePlan(normalize, toMono)[j])
  {
  }

  /** What the external work behind the awaited steps does: it completes, or one step throws. */
  datatype RunOutcome = Completes | Throws(step: nat, message: string)

  /** The outcome names one of the awaited steps of this plan, if any. */
  predicate OutcomeFits(plan: seq<Stage>, outcome: RunOutcome) {
    outcome.Throws? ==> outcome.step < |plan|
  }

  /** The stages whose status is shown before the run ends. */
  function StagesReached(plan: seq<Stage>, outcome: RunOutcome): (r: seq<Stage>)
    requires OutcomeFits(plan, outcome)
    ensures |r| <= |plan| && r == plan[..|r|]
    ensures outcome.Throws? ==> |r| == outcome.step + 1
    ensures outcome.Completes? ==> r == plan
  {
    match outcome
    case Completes => plan
    case Throws(k, _) => plan[..k + 1]
  }

  /** The status texts of a sequence of stages, in order. */
  function Statuses(stages: seq<Stage>): (r: seq<string>)
    ensures |r| == |stages|
    ensures forall i :: 0 <= i < |stages| ==> r[i] == StageStatus(stages[i])
  {
    seq(|stages|, i requires 0 <= i < |stages| => StageStatus(stages[i]))
  }

  /** The status texts a run shows, one after the other. */
  function ShownStatuses(s: Settings, outcome: RunOutcome): seq<string>
    requires OutcomeFits(StagePlan(s.normalize, s.toMono), outcome)
  {
    Statuses(StagesReached(StagePlan(s.normalize, s.toMono), outcome))
  }

  /**
   * A completed run shows preprocessing, then normalizing exactly when one of
   * the two flags is set, then the model, then MIDI generation.
   */
  lemma CompletedRunStatuses(s: Settings)
    ensures ShownStatuses(s, Completes) ==
      ["Preprocessing audio..."] +
      (if s.normalize || s.toMono then ["Normalizing and converting to mono..."] else []) +
      ["Running basic-pitch model...", "Generating MIDI file..."]
  {
  }

  /** The normalizing status appears in a completed run exactly when a flag asks for it. */
  lemma {:induction false} NormalizingShownIff(s: Settings)
    ensures "Normalizing and converting to mono..." in ShownStatuses(s, Completes) <==> s.normalize || s.toMono
  {
    var plan := StagePlan(s.normalize, s.toMono);
    var shown := ShownStatuses(s, Completes);
    if "Normalizing and converting to mono..." in shown {
      var i :| 0 <= i < |shown| && shown[i] == "Normalizing and converting to mono...";
      StageStatusInjective(plan[i], Normalize);
    } else if s.normalize || s.toMono {
      assert shown[1] == StageStatus(plan[1]);
    }
  }

  /**
   * Every run shows a non-empty prefix of the completed run's statuses, each
   * once and in the canonical order; a failing run stops at the stage that threw.
   */
  lemma {:induction false} ShownStatusesOrdered(s: Settings, outcome: RunOutcome)
    requires OutcomeFits(StagePlan(s.normalize, s.toMono), outcome)
    ensures var shown := ShownStatuses(s, outcome);
      && 0 < |shown| && shown[0] == "Preprocessing audio..."
      && shown == ShownStatuses(s, Completes)[..|shown|]
      && (forall i, j :: 0 <= i < j < |shown| ==> shown[i] != shown[j])
      && (outcome.Throws? ==> shown[|shown| - 1] == StageStatus(StagePlan(s.normalize, s.toMono)[outcome.step]))
  {
    var plan := StagePlan(s.normalize, s.toMono);
    var reached := StagesReached(plan, outcome);
    var shown := ShownStatuses(s, outcome);
    forall i, j | 0 <= i < j < |shown|
      ensures shown[i] != shown[j]
    {
      StagePlanOrdered(s.normalize, s.toMono, i, j);
      if shown[i] == shown[j] {
        StageStatusInjective(reached[i], reached[j]);
      }
    }
  }

  /** The path the preview shows: the selected file's, or "input.wav". */
  function PreviewPath(selected: Option<AudioFile>): string {
    if selected.Some? then selected.value.path else "input.wav"
  }

  /** The engine and its output verb, the first words of the preview. */
  const CommandHead: string := "basic-pitch output "

  /** Each flag starts a new line: a backslash, a newline and two spaces precede it. */
  const OnsetFlag: string := " \\\n  --onset-threshold "
  const FrameFlag: string := " \\\n  --frame-threshold "
  const LengthFlag: string := " \\\n  --minimum-note-length "
  const SaveFlag: string := " \\\n  --save-midi"

  /**
   * The command-line equivalent of a run. `show` is how JavaScript renders a
   * number inside a template literal.
   */
  function CommandLine(selected: Option<AudioFile>, s: Settings, show: real -> string): string {
    CommandHead + PreviewPath(selected) +
    OnsetFlag + show(s.onsetThreshold) +
    FrameFlag + show(s.frameThreshold) +
    LengthFlag + show(s.minimumNoteLength) +
    SaveFlag
  }

  /** `w` occurs in `s` at offset `i`. */
  predicate OccursAt(s: string, w: string, i: nat) {
    i + |w| <= |s| && s[i..i + |w|] == w
  }

  /** Where each part of a preview-shaped string sits. */
  lemma PartsOfPreview(h: string, a: string, f1: string, b: string, f2: string, c: string,
                       f3: string, d: string, f4: string)
    ensures var cmd := h + a + f1 + b + f2 + c + f3 + d + f4;
      && StartsWith(cmd, h + a)
      && OccursAt(cmd, f1, |h + a|)
      && OccursAt(cmd, f2, |h + a + f1 + b|)
      && OccursAt(cmd, f3, |h + a + f1 + b + f2 + c|)
      && OccursAt(cmd, f4, |h + a + f1 + b + f2 + c + f3 + d|)
      && EndsWith(cmd, f4)
  {
    var cmd := h + a + f1 + b + f2 + c + f3 + d + f4;
    var p1 := h + a + f1 + b;
    var p2 := p1 + f2 + c;
    var p3 := p2 + f3 + d;
    assert cmd[..|h + a|] == h + a;
    assert cmd[|h + a|..|h + a| + |f1|] == f1;
    assert cmd[|p1|..|p1| + |f2|] == f2;
    assert cmd[|p2|..|p2| + |f3|] == f3;
    assert cmd[|p3|..|p3| + |f4|] == f4;
  }

  /** The preview starts with the engine, the output verb and the previewed path. */
  lemma CommandLineStartsWithPath(selected: Option<AudioFile>, s: Settings, show: real -> string)
    ensures StartsWith(CommandLine(selected, s, show), CommandHead + PreviewPath(selected))
    ensures selected.Some? ==> StartsWith(CommandLine(selected, s, show), CommandHead + selected.value.path)
    ensures selected.None? ==> StartsWith(CommandLine(selected, s, show), CommandHead + "input.wav")
  {
    PartsOfPreview(CommandHead, PreviewPath(selected), OnsetFlag, show(s.onsetThreshold),
      FrameFlag, show(s.frameThreshold), LengthFlag, show(s.minimumNoteLength), SaveFlag);
  }

  /**
   * The four flags appear in the fixed order onset, frame, minimum note
   * length, save-midi, each at the start of a continuation line, and the
   * preview ends with the save flag.
   */
  lemma CommandLineFlagOrder(selected: Option<AudioFile>, s: Settings, show: real -> string)
    ensures var cmd := CommandLine(selected, s, show);
      exists i: nat, j: nat, k: nat, l: nat ::
        i < j < k < l &&
        OccursAt(cmd, OnsetFlag, i) &&
        OccursAt(cmd, FrameFlag, j) &&
        OccursAt(cmd, LengthFlag, k) &&
        OccursAt(cmd, SaveFlag, l)
    ensures EndsWith(CommandLine(selected, s, show), SaveFlag)
  {
    var h, a := CommandHead, PreviewPath(selected);
    var b, c, d := show(s.onsetThreshold), show(s.frameThreshold), show(s.minimumNoteLength);
    PartsOfPreview(h, a, OnsetFlag, b, FrameFlag, c, LengthFlag, d, SaveFlag);
    var i := |h + a|;
    var j := |h + a + OnsetFlag + b|;
    var k := |h + a + OnsetFlag + b + FrameFlag + c|;
    var l := |h + a + OnsetFlag + b + FrameFlag + c + LengthFlag + d|;
    var cmd := CommandLine(selected, s, show);
    assert cmd == h + a + OnsetFlag + b + FrameFlag + c + LengthFlag + d + SaveFlag;
    assert i < j < k < l;
    assert OccursAt(cmd, OnsetFlag, i) && OccursAt(cmd, FrameFlag, j);
    assert OccursAt(cmd, LengthFlag, k) && OccursAt(cmd, SaveFlag, l);
  }
}
