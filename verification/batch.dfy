/**
 * The command-line batch converter: every audio file of a folder listing is
 * handed to the transcription model, and the successes and failures are
 * counted. The model call is the oracle `predictSucceeds`: true when it
 * returns, false when it raises.
 */
module Batch {
  import opened Text
  import opened AudioFormats

  /** The names of a listing the loop hands to the model, in listing order. */
  function AudioNames(listing: seq<string>): (r: seq<string>)
    ensures |r| <= |listing|
    ensures forall i :: 0 <= i < |r| ==> HasAudioExtension(r[i])
    decreases |listing|
  {
    if listing == [] then []
    else
      var last := listing[|listing| - 1];
      AudioNames(listing[..|listing| - 1]) + (if HasAudioExtension(last) then [last] else [])
  }

  /** How many of `names` the model converts. */
  function CountSucceeding(names: seq<string>, predictSucceeds: string -> bool): (n: nat)
    ensures n <= |names|
    decreases |names|
  {
    if names == [] then 0
    else CountSucceeding(names[..|names| - 1], predictSucceeds) + (if predictSucceeds(names[|names| - 1]) then 1 else 0)
  }

  lemma AudioNamesStep(listing: seq<string>, i: nat)
    requires i < |listing|
    ensures AudioNames(listing[..i + 1]) ==
      AudioNames(listing[..i]) + (if HasAudioExtension(listing[i]) then [listing[i]] else [])
  {
    assert listing[..i + 1][..i] == listing[..i];
  }

  lemma CountSucceedingStep(names: seq<string>, name: string, predictSucceeds: string -> bool)
    ensures CountSucceeding(names + [name], predictSucceeds) ==
      CountSucceeding(names, predictSucceeds) + (if predictSucceeds(name) then 1 else 0)
  {
    assert (names + [name])[..|names|] == names;
  }

  /** A name of the listing is handed to the model exactly when it has an audio extension. */
  lemma {:induction false} AudioNamesMembership(listing: seq<string>, name: string)
    ensures name in AudioNames(listing) <==> name in listing && HasAudioExtension(name)
    decreases |listing|
  {
    if listing != [] {
      var init := listing[..|listing| - 1];
      AudioNamesMembership(init, name);
      assert listing == init + [listing[|listing| - 1]];
    }
  }

  /** Names without an audio extension change neither the attempts nor the counts. */
  lemma AudioNamesSkipsOthers(listing: seq<string>, other: string)
    requires !HasAudioExtension(other)
    ensures AudioNames(listing + [other]) == AudioNames(listing)
  {
    assert (listing + [other])[..|listing|] == listing;
  }

  /** The filter keeps listing order: filtering a concatenation concatenates the filtered parts. */
  lemma {:induction false} AudioNamesAppend(a: seq<string>, b: seq<string>)
    ensures AudioNames(a + b) == AudioNames(a) + AudioNames(b)
    decreases |b|
  {
    if b == [] {
      assert a + b == a;
    } else {
      var init, last := b[..|b| - 1], b[|b| - 1];
      AudioNamesAppend(a, init);
      assert (a + b)[..|a + b| - 1] == a + init;
      assert (a + b)[|a + b| - 1] == last;
      assert AudioNames(b) == AudioNames(init) + (if HasAudioExtension(last) then [last] else []);
      assert AudioNames(a + b) == AudioNames(a + init) + (if HasAudioExtension(last) then [last] else []);
    }
  }

  /**
   * `batch_convert`: each listed name with an audio extension is handed to
   * the model once, in listing order, and counts as processed when the model
   * returns and as failed when it raises; a failure does not stop the loop.
   */
  method BatchConvert(listing: seq<string>, predictSucceeds: string -> bool)
    returns (processed: nat, failed: nat, attempted: seq<string>)
    ensures attempted == AudioNames(listing)
    ensures processed == CountSucceeding(attempted, predictSucceeds)
    ensures processed + failed == |AudioNames(listing)|
  {
    processed, failed, attempted := 0, 0, [];
    for i := 0 to |listing|
      invariant attempted == AudioNames(listing[..i])
      invariant processed == CountSucceeding(attempted, predictSucceeds)
      invariant processed + failed == |attempted|
    {
      var filename := listing[i];
      AudioNamesStep(listing, i);
      if HasAudioExtension(filename) {
        CountSucceedingStep(attempted, filename, predictSucceeds);
        if predictSucceeds(filename) {
          processed := processed + 1;
        } else {
          failed := failed + 1;
        }
        attempted := attempted + [filename];
      }
    }
    assert listing[..|listing|] == listing;
  }

  /** `c * n` in Python for a one-character string `c`: `n` copies of it. */
  function Repeat(c: char, n: nat): (r: string)
    ensures |r| == n
    ensures forall i :: 0 <= i < n ==> r[i] == c
  {
    if n == 0 then [] else Repeat(c, n - 1) + [c]
  }

  /** The sixty dashes printed before the summary. */
  const Separator: string := Repeat('-', 60)

  const CompleteLine: string := "Batch conversion complete!"
  const ProcessedLabel: string := "Successfully processed: "
  const FailedLabel: string := "Failed: "
  const FilesWord: string := " files"

  /** The lines printed once the loop is over. */
  function SummaryLines(processed: nat, failed: nat): (lines: seq<string>)
    ensures |lines| == if failed > 0 then 4 else 3
    ensures lines[0] == Separator && lines[1] == CompleteLine
    ensures lines[2] == ProcessedLabel + NatToString(processed) + FilesWord
    ensures failed > 0 ==> lines[3] == FailedLabel + NatToString(failed) + FilesWord
    ensures (exists i :: 0 <= i < |lines| && StartsWith(lines[i], FailedLabel)) <==> failed > 0
  {
    var ok := ProcessedLabel + NatToString(processed) + FilesWord;
    var bad := FailedLabel + NatToString(failed) + FilesWord;
    assert !StartsWith(Separator, FailedLabel) by {
      assert Separator[0] == '-';
    }
    assert !StartsWith(CompleteLine, FailedLabel) by {
      assert CompleteLine[0] == 'B';
    }
    assert !StartsWith(ok, FailedLabel) by {
      assert ok[0] == 'S' && FailedLabel[0] == 'F';
      assert |FailedLabel| <= |ok| ==> ok[..|FailedLabel|][0] == ok[0];
    }
    assert StartsWith(bad, FailedLabel) by {
      assert bad[..|FailedLabel|] == FailedLabel;
    }
    var lines := [Separator, CompleteLine, ok] + (if failed > 0 then [bad] else []);
    assert lines[0] == Separator && lines[1] == CompleteLine && lines[2] == ok;
    assert failed > 0 ==> lines[3] == bad;
    lines
  }

  /** The digits between `head` and " files" in `line`, when it has that shape. */
  function CountIn(line: string, head: string): string
    requires |head| + |FilesWord| <= |line|
  {
    line[|head|..|line| - |FilesWord|]
  }

  /** A count line of the summary reads back as the count it reports. */
  lemma CountLineReadsBack(head: string, n: nat)
    ensures var line := head + NatToString(n) + FilesWord;
      && |head| + |FilesWord| <= |line|
      && IsDigits(CountIn(line, head))
      && DigitsValue(CountIn(line, head)) == n
  {
    var line := head + NatToString(n) + FilesWord;
    assert CountIn(line, head) == NatToString(n);
    NatToStringRoundTrip(n);
  }

  /** The summary reports the two counters: each count line reads back as its counter. */
  lemma SummaryReportsCounts(processed: nat, failed: nat)
    ensures var lines := SummaryLines(processed, failed);
      && |ProcessedLabel| + |FilesWord| <= |lines[2]|
      && IsDigits(CountIn(lines[2], ProcessedLabel))
      && DigitsValue(CountIn(lines[2], ProcessedLabel)) == processed
      && (failed > 0 ==>
            && |FailedLabel| + |FilesWord| <= |lines[3]|
            && IsDigits(CountIn(lines[3], FailedLabel))
            && DigitsValue(CountIn(lines[3], FailedLabel)) == failed)
  {
    CountLineReadsBack(ProcessedLabel, processed);
    CountLineReadsBack(FailedLabel, failed);
  }

  /** How `main` ends. */
  datatype CliResult =
    | Usage                                  // the argument count is wrong
    | MissingInputFolder(folder: string)     // the input folder does not exist
    | Finished(processed: nat, failed: nat)  // the batch ran

  function ExitStatus(r: CliResult): (code: int)
    ensures code == 0 <==> r.Finished?
  {
    if r.Finished? then 0 else 1
  }

  /**
   * `main`: exactly two user arguments (three entries of `argv`, the script
   * name first), an existing input folder, then the batch. `isDirectory` and
   * `listing` stand for the file system.
   */
  method CliMain(argv: seq<string>, isDirectory: string -> bool, listing: seq<string>,
                 predictSucceeds: string -> bool)
    returns (r: CliResult, attempted: seq<string>)
    ensures ExitStatus(r) != 0 <==> |argv| != 3 || !isDirectory(argv[1])
    ensures |argv| != 3 ==> r == Usage && attempted == []
    ensures |argv| == 3 && !isDirectory(argv[1]) ==> r == MissingInputFolder(argv[1]) && attempted == []
    ensures |argv| == 3 && isDirectory(argv[1]) ==>
      && attempted == AudioNames(listing)
      && r.Finished?
      && r.processed == CountSucceeding(attempted, predictSucceeds)
      && r.processed + r.failed == |AudioNames(listing)|
  {
    attempted := [];
    if |argv| != 3 {
      return Usage, attempted;
    }
    var inputFolder := argv[1];
    if !isDirectory(inputFolder) {
      return MissingInputFolder(inputFolder), attempted;
    }
    var processed, failed;
    processed, failed, attempted := BatchConvert(listing, predictSucceeds);
    r := Finished(processed, failed);
  }
}
