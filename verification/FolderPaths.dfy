/** Object keys seen as folder paths, as the recycle bin reads them. */
module FolderPaths {
  const MARKER := ".light-oss-folder"

  /** A key as uploads accept it: it does not end with a slash. */
  predicate ProperKey(key: string) { key != "" && key[|key| - 1] != '/' }

  function StripSlashes(s: string): string {
    if s != "" && s[|s| - 1] == '/' then StripSlashes(s[..|s| - 1]) else s
  }

  function LastSegment(s: string): string {
    if s == "" || s[|s| - 1] == '/' then "" else LastSegment(s[..|s| - 1]) + [s[|s| - 1]]
  }

  /** path.Base */
  function Base(s: string): string {
    if s == "" then "." else if StripSlashes(s) == "" then "/" else LastSegment(StripSlashes(s))
  }

  predicate IsMarker(key: string) { Base(key) == MARKER }

  predicate HasSuffix(s: string, suffix: string) {
    |s| >= |suffix| && s[|s| - |suffix|..] == suffix
  }

  function TrimSuffix(s: string, suffix: string): string {
    if HasSuffix(s, suffix) then s[..|s| - |suffix|] else s
  }

  /** recycleBinObjectPath: the folder of a marker, or the key of a file. */
  function EntryPath(key: string): string {
    if IsMarker(key) then TrimSuffix(key, MARKER) else key
  }

  /** The prefixes of `s` that end with one of its slashes from position `from` on. */
  function SlashPrefixes(s: string, from: nat): seq<string>
    requires from <= |s|
    decreases |s| - from
  {
    if from == |s| then []
    else (if s[from] == '/' then [s[..from + 1]] else []) + SlashPrefixes(s, from + 1)
  }

  /** recycleBinAncestorDirectoryPaths: shallowest first. */
  function AncestorPaths(path: string, includeSelf: bool): seq<string> {
    var trimmed := TrimSuffix(path, "/");
    if trimmed == "" then []
    else SlashPrefixes(trimmed, 0) + (if includeSelf then [trimmed + "/"] else [])
  }

  /** A path that names a folder: nonempty, and it ends with its only trailing slash. */
  predicate IsFolder(f: string) {
    |f| >= 2 && f[|f| - 1] == '/' && f[|f| - 2] != '/'
  }

  lemma {:induction false} LastSegmentOf(prefix: string, name: string)
    requires prefix == "" || prefix[|prefix| - 1] == '/'
    requires '/' !in name
    ensures LastSegment(prefix + name) == name
  {
    if name == "" {
      assert prefix + name == prefix;
    } else {
      var short := name[..|name| - 1];
      assert (prefix + name)[..|prefix + name| - 1] == prefix + short;
      assert (prefix + name)[|prefix + name| - 1] == name[|name| - 1];
      LastSegmentOf(prefix, short);
      assert short + [name[|name| - 1]] == name;
    }
  }

  /** The marker object of a folder is recognised, and leads back to the folder. */
  lemma MarkerOfFolder(f: string)
    requires f == "" || f[|f| - 1] == '/'
    ensures IsMarker(f + MARKER) && EntryPath(f + MARKER) == f
  {
    LastSegmentOf(f, MARKER);
    assert StripSlashes(f + MARKER) == f + MARKER;
    assert (f + MARKER)[|f|..] == MARKER;
    assert (f + MARKER)[..|f|] == f;
  }

  /** A key under a folder has an entry path under that folder. */
  lemma EntryUnderFolder(f: string, key: string)
    requires IsFolder(f) && f <= key
    ensures f <= EntryPath(key)
  {
    if IsMarker(key) && HasSuffix(key, MARKER) {
      var n := |key| - |MARKER|;
      assert key[n..] == MARKER;
      assert forall i :: n <= i < |key| ==> key[i] == MARKER[i - n] && key[i] != '/';
      assert f[|f| - 1] == key[|f| - 1];
    }
  }

  /** Every listed prefix ends at a slash at or after `from`, and the list starts at the
      shallowest of them. */
  lemma {:induction false} SlashPrefixesAre(s: string, from: nat)
    requires from <= |s|
    ensures forall p :: p in SlashPrefixes(s, from) ==> |p| > from && p <= s && p[|p| - 1] == '/'
    ensures forall i :: from <= i < |s| && s[i] == '/' ==> s[..i + 1] in SlashPrefixes(s, from)
    decreases |s| - from
  {
    if from < |s| {
      SlashPrefixesAre(s, from + 1);
    }
  }
}
