/**
 * The package-name extractor of module/jni/main.cpp: the application's data
 * directory ends in its package name, so the name is what follows the last `/`.
 */
module PackageName {
  import opened Wrappers
  import opened CStrings

  /** `s` is some prefix, then a `/`, then `segment`. */
  predicate EndsWithSegment(s: string, segment: string)
  {
    |segment| < |s| && s[|s| - |segment| - 1] == '/' && s[|s| - |segment|..] == segment
  }

  /**
   * `extractPackageNameFromDataDir`: the text after the last `/` of `dataDir`,
   * or None for a null path, a path without `/`, a path ending in `/`, or when
   * allocating the copy fails (`mallocOk` is the outcome of that `malloc`).
   */
  function Extract(dataDir: Option<string>, mallocOk: bool): (r: Option<string>)
    ensures r.Some? ==> dataDir.Some? && mallocOk
    ensures r.Some? ==> |r.value| > 0 && '/' !in r.value && EndsWithSegment(dataDir.value, r.value)
  {
    match dataDir
    case None => None
    case Some(s) =>
      match LastIndexOf(s, '/')
      case None => None
      case Some(slash) =>
        if slash + 1 == |s| then None
        else if !mallocOk then None
        else Some(s[slash + 1..])
  }

  /** The four ways the extractor yields None. */
  lemma ExtractNoneCases(s: string, mallocOk: bool)
    ensures Extract(None, mallocOk) == None
    ensures '/' !in s ==> Extract(Some(s), mallocOk) == None
    ensures |s| > 0 && s[|s| - 1] == '/' ==> Extract(Some(s), mallocOk) == None
    ensures !mallocOk ==> Extract(Some(s), mallocOk) == None
  {
  }

  /** A path made of any prefix, a `/`, and a non-empty segment free of `/` yields exactly that segment. */
  lemma ExtractAfterLastSlash(prefix: string, segment: string)
    requires |segment| > 0 && '/' !in segment
    ensures Extract(Some(prefix + "/" + segment), true) == Some(segment)
  {
    var s := prefix + "/" + segment;
    var slash := |prefix|;
    assert s[slash] == '/';
    var last := LastIndexOf(s, '/');
    assert last.Some?;
    assert forall j :: slash < j < |s| ==> s[j] == segment[j - slash - 1];
    assert last.value == slash;
    assert s[slash + 1..] == segment;
  }

  /** The extractor succeeds exactly when allocation succeeds, the path has a `/`, and it does not end in `/`. */
  lemma ExtractDefinedIff(s: string, mallocOk: bool)
    ensures Extract(Some(s), mallocOk).Some? <==> mallocOk && |s| > 0 && s[|s| - 1] != '/' && '/' in s
  {
  }
}
