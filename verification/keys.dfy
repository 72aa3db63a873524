/** Storage keys and redirect paths: the file-extension extraction the
    upload handlers use, the source and artifact keys built from it, and
    the paths handed back to the browser. */
module Keys {
  import opened Common

  const TwoTo32: int := 0x1_0000_0000

  /** JavaScript's ToUint32, which `x >>> 0` applies to `x`. */
  function ToUint32(x: int): (r: int)
    ensures 0 <= r < TwoTo32
    ensures 0 <= x < TwoTo32 ==> r == x
    ensures x < 0 && -TwoTo32 <= x ==> r == x + TwoTo32
  {
    x % TwoTo32
  }

  /** `s.lastIndexOf(c)` for a one-character search string: the largest
      index holding `c`, or -1 when `c` does not occur. */
  function LastIndexOf(s: string, c: char): (r: int)
    ensures -1 <= r < |s|
    ensures r >= 0 ==> s[r] == c
    ensures forall j :: r < j < |s| ==> s[j] != c
  {
    if |s| == 0 then -1
    else if s[|s| - 1] == c then |s| - 1
    else LastIndexOf(s[..|s| - 1], c)
  }

  /** `s.slice(start)`: a negative start counts from the end, a start past
      the end is clamped to the end. */
  function SliceFrom(s: string, start: int): (r: string)
    ensures |r| <= |s| && r == s[|s| - |r|..]
    ensures start >= |s| ==> r == []
    ensures 0 <= start <= |s| ==> r == s[start..]
  {
    var from := if start < 0 then (if |s| + start < 0 then 0 else |s| + start)
                else if start > |s| then |s| else start;
    s[from..]
  }

  /** `getExtension`: slice after the last dot, where the slice start is
      `((lastIndexOf(".") - 1) >>> 0) + 2`. */
  function GetExtension(fileName: string): (ext: string)
    ensures |ext| <= |fileName| && ext == fileName[|fileName| - |ext|..]
  {
    SliceFrom(fileName, ToUint32(LastIndexOf(fileName, '.') - 1) + 2)
  }

  /** Once `c` is known at `i` and nowhere after, that is the last index. */
  lemma LastIndexOfAt(s: string, c: char, i: nat)
    requires i < |s| && s[i] == c
    requires forall j :: i < j < |s| ==> s[j] != c
    ensures LastIndexOf(s, c) == i
  {
  }

  /** A name without any dot has no extension: the slice starts at 2^32. */
  lemma NoDotNoExtension(fileName: string)
    requires |fileName| < TwoTo32
    requires '.' !in fileName
    ensures GetExtension(fileName) == ""
  {
    assert LastIndexOf(fileName, '.') == -1;
  }

  /** A name whose only dot is its first character (`.env`) has no
      extension: the slice starts at 2^32 + 1. */
  lemma LeadingDotNoExtension(fileName: string)
    requires |fileName| < TwoTo32
    requires |fileName| >= 1 && fileName[0] == '.'
    requires '.' !in fileName[1..]
    ensures GetExtension(fileName) == ""
  {
    forall j | 0 < j < |fileName|
      ensures fileName[j] != '.'
    {
      assert fileName[j] == fileName[1..][j - 1];
    }
    LastIndexOfAt(fileName, '.', 0);
  }

  /** A name `stem.ext` whose stem is not empty and whose ext holds no dot
      has extension exactly `ext` (possibly empty, as in `clip.`). */
  lemma ExtensionAfterLastDot(stem: string, ext: string)
    requires |stem| >= 1
    requires '.' !in ext
    requires |stem| + 1 + |ext| < TwoTo32
    ensures GetExtension(stem + "." + ext) == ext
  {
    var name := stem + "." + ext;
    forall j | |stem| < j < |name|
      ensures name[j] != '.'
    {
      assert name[j] == ext[j - |stem| - 1];
    }
    LastIndexOfAt(name, '.', |stem|);
    assert name[|stem| + 1..] == ext;
  }

  /** Conversely, a non-empty extension is what follows a dot that has a
      non-empty stem before it; and no extension ever contains a dot. */
  lemma ExtensionSplitsName(fileName: string)
    requires |fileName| < TwoTo32
    ensures '.' !in GetExtension(fileName)
    ensures var ext := GetExtension(fileName);
            ext != "" ==>
              var stem := fileName[..|fileName| - |ext| - 1];
              |stem| >= 1 && fileName == stem + "." + ext
  {
    var i := LastIndexOf(fileName, '.');
    var ext := GetExtension(fileName);
    if i >= 1 {
      assert ext == fileName[i + 1..];
      assert fileName == fileName[..i] + "." + ext;
    } else {
      assert ext == "";
    }
  }

  /** The key an upload is stored under: `${uuid}.${getExtension(name)}`. */
  function SourceKey(uuid: string, fileName: string): (key: string)
    ensures |key| > |uuid| && key[..|uuid|] == uuid && key[|uuid|] == '.'
    ensures key[|uuid| + 1..] == GetExtension(fileName)
    ensures |key| <= |uuid| + 1 + |fileName|
  {
    uuid + "." + GetExtension(fileName)
  }

  /** The source key ends in a dot exactly when the name has no extension,
      so an extension-less upload gets a key with a trailing dot. */
  lemma SourceKeyTrailingDot(uuid: string, fileName: string)
    requires |fileName| < TwoTo32
    ensures var key := SourceKey(uuid, fileName);
            |key| >= 1 && (key[|key| - 1] == '.' <==> GetExtension(fileName) == "")
    ensures GetExtension(fileName) == "" ==> SourceKey(uuid, fileName) == uuid + "."
  {
    ExtensionSplitsName(fileName);
    var ext := GetExtension(fileName);
    var key := SourceKey(uuid, fileName);
    if ext != "" {
      assert key[|key| - 1] == ext[|ext| - 1];
    }
  }

  /** With a dot-free, non-empty UUID the source key keeps the upload's
      extension and starts with the UUID. */
  lemma SourceKeyKeepsExtension(uuid: string, fileName: string)
    requires |uuid| >= 1 && '.' !in uuid
    requires |uuid| + 1 + |fileName| < TwoTo32
    ensures GetExtension(SourceKey(uuid, fileName)) == GetExtension(fileName)
    ensures SourceKey(uuid, fileName)[..|uuid|] == uuid
  {
    ExtensionSplitsName(fileName);
    ExtensionAfterLastDot(uuid, GetExtension(fileName));
  }

  /** Uploading `clip.mp3` stores the file under `<uuid>.mp3`. */
  lemma ClipKey(uuid: string)
    ensures SourceKey(uuid, "clip.mp3") == uuid + ".mp3"
  {
    assert "clip" + "." + "mp3" == "clip.mp3";
    ExtensionAfterLastDot("clip", "mp3");
  }

  /** Uploading `recording` stores the file under `<uuid>.`, with a
      trailing dot. */
  lemma RecordingKey(uuid: string)
    ensures SourceKey(uuid, "recording") == uuid + "."
  {
    NoDotNoExtension("recording");
  }

  /** The key the subtitles of a transcript are stored under: `${id}.srt`. */
  function ArtifactKey(transcriptId: string): (key: string)
    ensures |key| == |transcriptId| + 4
    ensures key[..|transcriptId|] == transcriptId && key[|transcriptId|..] == ".srt"
  {
    transcriptId + ".srt"
  }

  /** The artifact key determines the transcript id. */
  lemma ArtifactKeyInjective(a: string, b: string)
    requires ArtifactKey(a) == ArtifactKey(b)
    ensures a == b
  {
    assert |a| == |b|;
    assert a == ArtifactKey(a)[..|a|];
    assert b == ArtifactKey(b)[..|b|];
  }

  /** Whatever the id, the artifact key's extension is `srt`. */
  lemma ArtifactKeyExtension(transcriptId: string)
    requires |transcriptId| >= 1
    requires |transcriptId| + 4 < TwoTo32
    ensures GetExtension(ArtifactKey(transcriptId)) == "srt"
  {
    assert ArtifactKey(transcriptId) == transcriptId + "." + "srt";
    ExtensionAfterLastDot(transcriptId, "srt");
  }

  /** Path of the `/file/:key` route for a key (the URL's origin is left out). */
  function FilePath(key: string): (path: string)
    ensures |path| == |key| + 6
    ensures path[..6] == "/file/" && path[6..] == key
  {
    "/file/" + key
  }

  /** Path of the `/transcript/:id` poll route for a transcript id. */
  function TranscriptPath(transcriptId: string): (path: string)
    ensures |path| == |transcriptId| + 12
    ensures path[..12] == "/transcript/" && path[12..] == transcriptId
  {
    "/transcript/" + transcriptId
  }

  /** Different keys give different file paths. */
  lemma FilePathInjective(a: string, b: string)
    requires FilePath(a) == FilePath(b)
    ensures a == b
  {
    assert a == FilePath(a)[6..];
    assert b == FilePath(b)[6..];
  }

  /** Different ids give different poll paths, so the redirect after an
      upload names exactly one job. */
  lemma TranscriptPathInjective(a: string, b: string)
    requires TranscriptPath(a) == TranscriptPath(b)
    ensures a == b
  {
    assert a == TranscriptPath(a)[12..];
    assert b == TranscriptPath(b)[12..];
  }
}
