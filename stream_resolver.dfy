/** How the Edge nucleus maps a web-app URI to a file of the app's
    directory (`UriToStreamAsync`): the URI path must be non-empty, absolute
    and free of ".."; the file is the base directory, a backslash, and the
    path without its leading '/', with every '/' turned into a backslash.
    Reading the file is outside the model. */
module StreamResolver {
  import opened Wrappers
  import PathUtil

  const IllegalTargetMessage := "illegal request target"

  /** The file path for a URI path, or the error thrown. */
  method Resolve(baseDirectory: string, uriPath: string) returns (r: Result<string>)
    ensures r.Err? <==> |uriPath| == 0 || uriPath[0] != '/' || PathUtil.HasParentStep(uriPath)
    ensures r.Err? ==> r.error == IllegalTargetMessage
    ensures r.Ok? ==> r.value == PathUtil.Backslashed(baseDirectory + "\\" + uriPath[1..])
  {
    if |uriPath| == 0 || uriPath[0] != '/' || PathUtil.HasParentStep(uriPath) {
      return Err(IllegalTargetMessage);
    }
    var path := baseDirectory + "\\" + uriPath[1..];
    ghost var assembled := path;
    var i := 0;
    while i < |path|
      invariant 0 <= i <= |path| == |assembled|
      invariant forall k :: 0 <= k < i ==> path[k] == if assembled[k] == '/' then '\\' else assembled[k]
      invariant forall k :: i <= k < |path| ==> path[k] == assembled[k]
    {
      if path[i] == '/' {
        path := path[i := '\\'];
      }
      i := i + 1;
    }
    return Ok(path);
  }

  /** The assembled path is as long as the base directory and the URI path
      together (the backslash takes the place of the leading '/'), holds no
      '/' at all, not even from the base directory, and keeps every other
      character in place. */
  lemma ResolvedShape(baseDirectory: string, uriPath: string)
    requires |uriPath| > 0 && uriPath[0] == '/'
    ensures var p := PathUtil.Backslashed(baseDirectory + "\\" + uriPath[1..]);
      && |p| == |baseDirectory| + |uriPath|
      && '/' !in p
      && p[|baseDirectory|] == '\\'
      && (forall k :: 0 <= k < |baseDirectory| && baseDirectory[k] != '/' ==> p[k] == baseDirectory[k])
  {
    var s := baseDirectory + "\\" + uriPath[1..];
    var p := PathUtil.Backslashed(s);
    assert s[|baseDirectory|] == '\\';
    forall k | 0 <= k < |baseDirectory| ensures s[k] == baseDirectory[k] {
    }
  }

  /** A URI cannot leave the base directory: with a base directory free of
      "..", an accepted path is free of ".." too. */
  lemma ResolvedStaysInBase(baseDirectory: string, uriPath: string)
    requires !PathUtil.HasParentStep(baseDirectory)
    requires |uriPath| > 0 && uriPath[0] == '/' && !PathUtil.HasParentStep(uriPath)
    ensures !PathUtil.HasParentStep(PathUtil.Backslashed(baseDirectory + "\\" + uriPath[1..]))
  {
    var rest := uriPath[1..];
    forall i | 0 <= i < |rest| - 1 ensures !(rest[i] == '.' && rest[i + 1] == '.') {
      assert rest[i] == uriPath[i + 1] && rest[i + 1] == uriPath[i + 2];
    }
    var sep := "\\";
    PathUtil.JoinNoParentStep(baseDirectory, sep);
    PathUtil.JoinNoParentStep(baseDirectory + sep, rest);
    PathUtil.BackslashedKeepsNoParentStep(baseDirectory + sep + rest);
  }
}
