/**
 * The name of the MIDI file a conversion produces: the selected name with the
 * match of the regular expression `\.[^/.]+$` removed, then "_basic_pitch.mid".
 * The expression has no `g` or `m` flag, so `$` is the end of the name and at
 * most one match is replaced.
 */
module MidiName {
  import opened Options
  import opened Text

  const MidiSuffix: string := "_basic_pitch.mid"

  /** A character the class `[^/.]` matches. */
  predicate IsExtensionChar(c: char) {
    c != '/' && c != '.'
  }

  /**
   * The regular expression matches starting at `p`: a dot there, followed by at
   * least one character and only extension characters up to the end.
   */
  ghost predicate IsExtensionAt(s: string, p: int) {
    0 <= p < |s| - 1 && s[p] == '.' &&
    forall k :: p < k < |s| ==> IsExtensionChar(s[k])
  }

  /** The regular expression matches at one position at most. */
  lemma ExtensionUnique(s: string, p: int, q: int)
    requires IsExtensionAt(s, p) && IsExtensionAt(s, q)
    ensures p == q
  {
  }

  /**
   * Scans backwards from position `n`, knowing that everything from `n` on
   * consists of extension characters.
   */
  function ScanExtension(s: string, n: nat): (r: Option<nat>)
    requires n <= |s|
    requires forall k :: n <= k < |s| ==> IsExtensionChar(s[k])
    ensures r.Some? ==> IsExtensionAt(s, r.value)
    ensures r.None? ==> forall p :: 0 <= p < n ==> !IsExtensionAt(s, p)
    decreases n
  {
    if n == 0 then None
    else if s[n - 1] == '.' then (if n < |s| then Some(n - 1) else None)
    else if s[n - 1] == '/' then None
    else ScanExtension(s, n - 1)
  }

  /** Where the regular expression matches in `s`, if anywhere. */
  function ExtensionStart(s: string): (r: Option<nat>)
    ensures r.Some? ==> IsExtensionAt(s, r.value)
    ensures r.None? ==> forall p :: 0 <= p < |s| ==> !IsExtensionAt(s, p)
  {
    ScanExtension(s, |s|)
  }

  /** `name.replace(/\.[^/.]+$/, '')`. */
  function StripExtension(name: string): (r: string)
    ensures |r| <= |name| && r == name[..|r|]
    ensures |r| < |name| ==> IsExtensionAt(name, |r|)
    ensures |r| == |name| ==> forall p :: 0 <= p < |name| ==> !IsExtensionAt(name, p)
  {
    match ExtensionStart(name)
    case Some(p) => name[..p]
    case None => name
  }

  /** The MIDI file name derived from the selected file's name. */
  function MidiFileName(name: string): (r: string)
    ensures EndsWith(r, MidiSuffix)
    ensures var base := r[..|r| - |MidiSuffix|];
      && |base| <= |name| && base == name[..|base|]
      && (|base| < |name| ==> IsExtensionAt(name, |base|))
      && (|base| == |name| ==> forall p :: 0 <= p < |name| ==> !IsExtensionAt(name, p))
  {
    var r := StripExtension(name) + MidiSuffix;
    assert r[..|r| - |MidiSuffix|] == StripExtension(name);
    r
  }

  /** Removing an appended extension gives back the base name. */
  lemma StripAddedExtension(base: string, ext: string)
    requires ext != []
    requires forall k :: 0 <= k < |ext| ==> IsExtensionChar(ext[k])
    ensures StripExtension(base + "." + ext) == base
  {
    var s := base + "." + ext;
    assert IsExtensionAt(s, |base|) by {
      forall k | |base| < k < |s|
        ensures IsExtensionChar(s[k])
      {
        assert s[k] == ext[k - |base| - 1];
      }
    }
    var r := StripExtension(s);
    ExtensionUnique(s, |r|, |base|);
    assert r == s[..|base|] == base;
  }

  /** A name with no dot is kept whole. */
  lemma StripWithoutDot(name: string)
    requires forall k :: 0 <= k < |name| ==> name[k] != '.'
    ensures StripExtension(name) == name
  {
  }

  /** A dot after the last slash is needed: a dot inside a directory part is not an extension. */
  lemma StripKeepsDirectoryDots(name: string, p: nat)
    requires p < |name| && name[p] == '/'
    requires forall k :: p < k < |name| ==> name[k] != '.'
    ensures StripExtension(name) == name
  {
  }

  /** The first discovered file converts to "guitar_solo_basic_pitch.mid". */
  lemma GuitarSoloMidiName()
    ensures MidiFileName("guitar_solo.wav") == "guitar_solo" + "_basic_pitch.mid"
  {
    var base, ext := "guitar_solo", "wav";
    assert forall k :: 0 <= k < |ext| ==> IsExtensionChar(ext[k]);
    StripAddedExtension(base, ext);
    assert base + "." + ext == "guitar_solo.wav";
  }

  /** Only the last extension is removed. */
  lemma LastExtensionOnlyRemoved()
    ensures StripExtension("take.1.flac") == "take.1"
  {
    var base, ext := "take.1", "flac";
    assert forall k :: 0 <= k < |ext| ==> IsExtensionChar(ext[k]);
    StripAddedExtension(base, ext);
    assert base + "." + ext == "take.1.flac";
  }

  /** A name that ends in a dot has no extension, and neither part of it is removed. */
  lemma TrailingDotKept(base: string)
    ensures StripExtension(base + ".") == base + "."
  {
  }
}
