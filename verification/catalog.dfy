/**
 * The file catalog of the browser component: the entries it lists, the rule
 * that decides which uploaded files are audio, and the batch filter applied
 * to one upload.
 */
module Catalog {
  import opened Text
  import opened AudioFormats

  /**
   * One file handed over by the browser's file picker. `objectUrl` stands for
   * the blob URL the browser creates for it; its size is display-only.
   */
  datatype UploadEntry = UploadEntry(name: string, mimeType: string, objectUrl: string)

  /** An entry of the catalog: the name shown and the path given to the engine. */
  datatype AudioFile = AudioFile(name: string, path: string)

  /** The four files the component lists when it mounts. */
  const DiscoveredFiles: seq<AudioFile> := [
    AudioFile("guitar_solo.wav", "./audio/guitar_solo.wav"),
    AudioFile("vocal_melody.mp3", "./audio/vocal_melody.mp3"),
    AudioFile("flute_piece.flac", "./audio/flute_piece.flac"),
    AudioFile("bass_line.wav", "./audio/bass_line.wav")
  ]

  /** An upload is audio when its MIME type starts with "audio/" or its name has an audio extension. */
  predicate IsAudioUpload(e: UploadEntry) {
    StartsWith(e.mimeType, "audio/") || HasAudioExtension(e.name)
  }

  /** The uploads of one batch that pass the audio rule, in upload order. */
  function AcceptedUploads(batch: seq<UploadEntry>): (r: seq<UploadEntry>)
    ensures |r| <= |batch|
    ensures forall e :: e in r ==> IsAudioUpload(e)
    decreases |batch|
  {
    if batch == [] then []
    else (if IsAudioUpload(batch[0]) then [batch[0]] else []) + AcceptedUploads(batch[1..])
  }

  /** The catalog entry built for an accepted upload. */
  function ToAudioFile(e: UploadEntry): (f: AudioFile)
    ensures f.name == e.name && f.path == e.objectUrl
  {
    AudioFile(e.name, e.objectUrl)
  }

  /** The catalog entries one upload batch contributes. */
  function NewCatalogEntries(batch: seq<UploadEntry>): (r: seq<AudioFile>)
    ensures |r| == |AcceptedUploads(batch)|
    ensures forall i :: 0 <= i < |r| ==> r[i] == ToAudioFile(AcceptedUploads(batch)[i])
  {
    var accepted := AcceptedUploads(batch);
    seq(|accepted|, i requires 0 <= i < |accepted| => ToAudioFile(accepted[i]))
  }

  /** An upload is kept exactly when it is in the batch and passes the audio rule. */
  lemma {:induction false} AcceptedUploadsMembership(batch: seq<UploadEntry>, e: UploadEntry)
    ensures e in AcceptedUploads(batch) <==> e in batch && IsAudioUpload(e)
    decreases |batch|
  {
    if batch != [] {
      AcceptedUploadsMembership(batch[1..], e);
      assert batch == [batch[0]] + batch[1..];
    }
  }

  /** A non-empty sequence is its first element followed by the rest, also before a suffix. */
  lemma SplitFirst<T>(a: seq<T>, b: seq<T>)
    requires a != []
    ensures a == [a[0]] + a[1..]
    ensures a + b == [a[0]] + (a[1..] + b)
  {
  }

  /** One step of the filter: the first upload, kept when audio, then the filtered rest. */
  lemma AcceptedUploadsCons(x: UploadEntry, rest: seq<UploadEntry>)
    ensures AcceptedUploads([x] + rest) == (if IsAudioUpload(x) then [x] else []) + AcceptedUploads(rest)
  {
    assert ([x] + rest)[0] == x && ([x] + rest)[1..] == rest;
  }

  /** The filter keeps upload order: filtering a concatenation concatenates the filtered parts. */
  lemma {:induction false} AcceptedUploadsAppend(a: seq<UploadEntry>, b: seq<UploadEntry>)
    ensures AcceptedUploads(a + b) == AcceptedUploads(a) + AcceptedUploads(b)
    decreases |a|
  {
    if a == [] {
      assert a + b == b;
    } else {
      var x, rest := a[0], a[1..];
      var keep := if IsAudioUpload(x) then [x] else [];
      AcceptedUploadsAppend(rest, b);
      SplitFirst(a, b);
      AcceptedUploadsCons(x, rest);
      AcceptedUploadsCons(x, rest + b);
      calc {
        AcceptedUploads(a + b);
        keep + AcceptedUploads(rest + b);
        keep + (AcceptedUploads(rest) + AcceptedUploads(b));
        (keep + AcceptedUploads(rest)) + AcceptedUploads(b);
        AcceptedUploads(a) + AcceptedUploads(b);
      }
    }
  }

  /**
   * The entries a batch contributes are exactly the entries built from its
   * audio uploads.
   */
  lemma NewCatalogEntriesMembership(batch: seq<UploadEntry>, f: AudioFile)
    ensures f in NewCatalogEntries(batch) <==>
      exists e :: e in batch && IsAudioUpload(e) && f == ToAudioFile(e)
  {
    var accepted := AcceptedUploads(batch);
    var r := NewCatalogEntries(batch);
    if f in r {
      var i :| 0 <= i < |r| && r[i] == f;
      AcceptedUploadsMembership(batch, accepted[i]);
    }
    if exists e :: e in batch && IsAudioUpload(e) && f == ToAudioFile(e) {
      var e :| e in batch && IsAudioUpload(e) && f == ToAudioFile(e);
      AcceptedUploadsMembership(batch, e);
      var i :| 0 <= i < |accepted| && accepted[i] == e;
      assert r[i] == f;
    }
  }

  /** A batch yields nothing exactly when none of its uploads is audio. */
  lemma {:induction false} AcceptedUploadsEmpty(batch: seq<UploadEntry>)
    ensures AcceptedUploads(batch) == [] <==> forall i :: 0 <= i < |batch| ==> !IsAudioUpload(batch[i])
  {
    if AcceptedUploads(batch) == [] {
      forall i | 0 <= i < |batch|
        ensures !IsAudioUpload(batch[i])
      {
        AcceptedUploadsMembership(batch, batch[i]);
      }
    } else {
      var e := AcceptedUploads(batch)[0];
      AcceptedUploadsMembership(batch, e);
      var i :| 0 <= i < |batch| && batch[i] == e;
    }
  }

  /** A batch of audio uploads only is kept whole. */
  lemma {:induction false} AcceptedUploadsAllAudio(batch: seq<UploadEntry>)
    requires forall i :: 0 <= i < |batch| ==> IsAudioUpload(batch[i])
    ensures AcceptedUploads(batch) == batch
    decreases |batch|
  {
    if batch != [] {
      AcceptedUploadsAllAudio(batch[1..]);
      assert batch == [batch[0]] + batch[1..];
    }
  }
}
