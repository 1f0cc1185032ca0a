/**
 * The audio extension allow-list. The browser component and the batch script
 * each spell out the same five extensions and compare them against the
 * lower-cased file name.
 */
module AudioFormats {
  import opened Text

  const AudioExtensions: seq<string> := [".wav", ".mp3", ".flac", ".ogg", ".m4a"]

  /** Some extension of the list ends the lower-cased name. */
  predicate HasAudioExtension(name: string) {
    exists i :: 0 <= i < |AudioExtensions| && EndsWith(Lower(name), AudioExtensions[i])
  }

  /** The list spelled out: a lower-cased name ends with one of the five extensions. */
  lemma AudioExtensionsSpelledOut(l: string)
    ensures (exists i :: 0 <= i < |AudioExtensions| && EndsWith(l, AudioExtensions[i])) <==>
      EndsWith(l, ".wav") || EndsWith(l, ".mp3") || EndsWith(l, ".flac") ||
      EndsWith(l, ".ogg") || EndsWith(l, ".m4a")
  {
    assert AudioExtensions[0] == ".wav" && AudioExtensions[1] == ".mp3";
    assert AudioExtensions[2] == ".flac" && AudioExtensions[3] == ".ogg";
    assert AudioExtensions[4] == ".m4a";
  }

  /**
   * An independent reading of the allow-list: the last four characters,
   * lower-cased, are one of the four-letter extensions, or the last five are
   * ".flac".
   */
  lemma HasAudioExtensionBySuffix(name: string)
    ensures HasAudioExtension(name) <==>
      (|name| >= 4 && Lower(name[|name| - 4..]) in {".wav", ".mp3", ".ogg", ".m4a"}) ||
      (|name| >= 5 && Lower(name[|name| - 5..]) == ".flac")
  {
    AudioExtensionsSpelledOut(Lower(name));
    if |name| >= 4 {
      LowerSuffix(name, |name| - 4);
    }
    if |name| >= 5 {
      LowerSuffix(name, |name| - 5);
    }
  }

  /** Matching ignores case: a name and its lower-cased form are accepted alike. */
  lemma HasAudioExtensionIgnoresCase(name: string)
    ensures HasAudioExtension(name) <==> HasAudioExtension(Lower(name))
  {
    LowerIdempotent(name);
  }

  /** An upper-case extension is accepted. */
  lemma UpperCaseExtensionAccepted()
    ensures HasAudioExtension("TRACK.WAV")
  {
    var name := "TRACK.WAV";
    assert name[|name| - 4..] == ".WAV";
    assert Lower("V") == "v";
    assert Lower("AV") == "av";
    assert Lower("WAV") == "wav";
    assert Lower(".WAV") == ".wav";
    HasAudioExtensionBySuffix(name);
  }

  /** A name whose extension is not on the list is refused. */
  lemma OtherExtensionRefused()
    ensures !HasAudioExtension("notes.txt")
  {
    var name := "notes.txt";
    assert name[|name| - 4..] == ".txt";
    assert name[|name| - 5..] == "s.txt";
    assert Lower("t") == "t";
    assert Lower("xt") == "xt";
    assert Lower("txt") == "txt";
    assert Lower(".txt") == ".txt";
    assert Lower("s.txt") == "s.txt";
    HasAudioExtensionBySuffix(name);
  }
}
