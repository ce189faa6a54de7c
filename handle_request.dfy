/** The local webserver's answer to one HTTP request (`handle_request`):
    only GET and HEAD are served; the target must be absolute and free of
    "..", checked before the query is cut off; "/audience.js" is the
    embedded messaging script; anything else is a file under the document
    root, with "index.html" for a directory. The file system, the MIME table
    and the embedded script are parameters. */
module HandleRequest {
  import PathUtil

  datatype Verb = Get | Head | OtherVerb(name: string)

  datatype Request = Request(verb: Verb, target: string, keepAlive: bool)

  /** What opening a file gives: its size, or the error. */
  datatype Opened = File(size: nat) | NoSuchFile | OpenError(message: string)

  datatype Body = Text(text: string) | NoBody | FileBody(path: string)

  datatype Response = Response(status: nat, contentType: string, contentLength: nat, body: Body, keepAlive: bool)

  /** What the handler needs from outside. */
  datatype Server = Server(docRoot: string, windows: bool, script: string,
                           open: string -> Opened, mimeType: string -> string)

  function TextResponse(status: nat, text: string, keepAlive: bool): (r: Response)
  {
    Response(status, "text/html", |text|, Text(text), keepAlive)
  }

  /** Everything before the first '?'. */
  function StripQuery(target: string): (r: string)
    ensures |r| <= |target| && r == target[..|r|]
    ensures '?' !in r
    ensures |r| < |target| ==> target[|r|] == '?'
  {
    if |target| == 0 then ""
    else if target[0] == '?' then ""
    else
      var rest := StripQuery(target[1..]);
      [target[0]] + rest
  }

  /** A target the server refuses before looking at it. */
  predicate IllegalTarget(target: string)
  {
    |target| == 0 || target[0] != '/' || PathUtil.HasParentStep(target)
  }

  /** The file a target names: the document root joined with the target,
      and "index.html" for a target ending in '/'. */
  function FilePath(s: Server, target: string): string
  {
    PathUtil.PathCat(s.docRoot, target, s.windows) + (if |target| > 0 && target[|target| - 1] == '/' then "index.html" else "")
  }

  /** Every answer keeps the request's keep-alive and is 200, 400, 404 or
      500; a 200 answers a GET or HEAD of a legal target, and HEAD never
      carries a body. */
  function HandleRequest(s: Server, req: Request): (res: Response)
    ensures res.keepAlive == req.keepAlive
    ensures res.status in {200, 400, 404, 500}
    ensures res.status == 200 ==> (req.verb.Get? || req.verb.Head?) && !IllegalTarget(req.target)
    ensures req.verb.Head? ==> res.status == 400 || res.status == 404 || res.status == 500 || res.body == NoBody
  {
    if !req.verb.Get? && !req.verb.Head? then TextResponse(400, "Unknown HTTP-method", req.keepAlive)
    else if IllegalTarget(req.target) then TextResponse(400, "Illegal request-target", req.keepAlive)
    else
      var target := StripQuery(req.target);
      if target == "/audience.js" then
        Response(200, s.mimeType(target), |s.script|, if req.verb.Head? then NoBody else Text(s.script), req.keepAlive)
      else
        var path := FilePath(s, target);
        match s.open(path)
        case NoSuchFile => TextResponse(404, "The resource '" + target + "' was not found.", req.keepAlive)
        case OpenError(message) => TextResponse(500, "An error occurred: '" + message + "'", req.keepAlive)
        case File(size) => Response(200, s.mimeType(path), size, if req.verb.Head? then NoBody else FileBody(path), req.keepAlive)
  }

  /** Only GET and HEAD are served; every other method is a bad request. */
  lemma OnlyGetAndHead(s: Server, req: Request)
    ensures !req.verb.Get? && !req.verb.Head? ==> HandleRequest(s, req) == TextResponse(400, "Unknown HTTP-method", req.keepAlive)
    ensures HandleRequest(s, req).status == 200 ==> req.verb.Get? || req.verb.Head?
  {
  }

  /** An empty, relative or ".."-holding target is refused, and the test
      sees the whole target, query included. */
  lemma IllegalTargetRefused(s: Server, req: Request)
    requires req.verb.Get? || req.verb.Head?
    ensures IllegalTarget(req.target) <==>
      HandleRequest(s, req) == TextResponse(400, "Illegal request-target", req.keepAlive)
  {
  }

  /** A ".." inside the query is refused too, although the path before
      the '?', which routing alone would see, may be clean. */
  lemma QueryIsChecked(s: Server, req: Request, path: string, query: string)
    requires req.verb.Get? || req.verb.Head?
    requires req.target == path + "?" + query && '?' !in path
    requires PathUtil.HasParentStep(query)
    ensures StripQuery(req.target) == path
    ensures HandleRequest(s, req) == TextResponse(400, "Illegal request-target", req.keepAlive)
  {
    var t := req.target;
    var i :| 0 <= i < |query| - 1 && query[i] == '.' && query[i + 1] == '.';
    var j := |path| + 1 + i;
    assert t[j] == query[i] && t[j + 1] == query[i + 1];
    assert t[..|path|] == path;
    var r := StripQuery(t);
    assert t[|path|] == '?';
    assert forall k | 0 <= k < |path| :: t[k] == path[k] != '?';
    assert |r| == |path|;
  }

  /** The query does not change what is served: a legal target is answered
      as its part before the first '?'. */
  lemma QueryIgnored(s: Server, req: Request)
    requires req.verb.Get? || req.verb.Head?
    requires !IllegalTarget(req.target)
    ensures !IllegalTarget(StripQuery(req.target))
    ensures HandleRequest(s, req) == HandleRequest(s, req.(target := StripQuery(req.target)))
  {
    var t := req.target;
    var r := StripQuery(t);
    assert r[0] == '/' by {
      assert t[0] != '?';
      assert r == [t[0]] + StripQuery(t[1..]);
    }
    forall i | 0 <= i < |r| - 1 ensures !(r[i] == '.' && r[i + 1] == '.') {
      assert r[i] == t[i] && r[i + 1] == t[i + 1];
    }
    StripQueryIdempotent(r);
  }

  lemma {:induction false} StripQueryIdempotent(t: string)
    requires '?' !in t
    ensures StripQuery(t) == t
  {
    if |t| > 0 {
      assert t[0] in t;
      assert '?' !in t[1..] by {
        forall i | 0 <= i < |t[1..]| ensures t[1..][i] != '?' {
          assert t[1..][i] == t[i + 1];
        }
      }
      StripQueryIdempotent(t[1..]);
      assert t == [t[0]] + t[1..];
    }
  }

  /** HEAD is answered like GET, without the body: same status, type,
      length and keep-alive. */
  lemma HeadMatchesGet(s: Server, target: string, keepAlive: bool)
    ensures var head := HandleRequest(s, Request(Head, target, keepAlive));
      var get := HandleRequest(s, Request(Get, target, keepAlive));
      && head.status == get.status && head.contentType == get.contentType
      && head.contentLength == get.contentLength && head.keepAlive == get.keepAlive
      && (head.status == 200 ==> head.body == NoBody)
  {
  }

  /** Every answer keeps the request's keep-alive, and a text answer
      announces the length of its text. */
  lemma ResponseFraming(s: Server, req: Request)
    ensures HandleRequest(s, req).keepAlive == req.keepAlive
    ensures HandleRequest(s, req).body.Text? ==> HandleRequest(s, req).contentLength == |HandleRequest(s, req).body.text|
  {
  }

  /** The embedded script is served for "/audience.js", whatever the query,
      without touching the file system. */
  lemma ScriptServed(s: Server, v: Verb, query: string, keepAlive: bool)
    requires v.Get? || v.Head?
    requires !PathUtil.HasParentStep(query)
    ensures var res := HandleRequest(s, Request(v, "/audience.js?" + query, keepAlive));
      && res.status == 200 && res.contentLength == |s.script|
      && res.body == (if v.Head? then NoBody else Text(s.script))
  {
    var t := "/audience.js?" + query;
    assert StripQuery(t) == "/audience.js" by {
      assert t[..12] == "/audience.js" && t[12] == '?';
      StripQueryAt(t, 12);
    }
    var prefix := "/audience.js?";
    forall i | 0 <= i < |prefix| - 1 ensures !(prefix[i] == '.' && prefix[i + 1] == '.') {
    }
    PathUtil.JoinNoParentStep(prefix, query);
  }

  lemma {:induction false} StripQueryAt(t: string, n: nat)
    requires n < |t| && t[n] == '?' && '?' !in t[..n]
    ensures StripQuery(t) == t[..n]
  {
    if n > 0 {
      assert t[0] in t[..n];
      var front := t[1..][..n - 1];
      assert '?' !in front by {
        forall i | 0 <= i < |front| ensures front[i] != '?' {
          assert front[i] == t[..n][i + 1];
        }
      }
      StripQueryAt(t[1..], n - 1);
      assert t[..n] == [t[0]] + t[1..][..n - 1];
    }
  }

  /** A file that is served, or whose absence is reported, lies at the
      joined path, which holds no ".." when the document root holds none:
      a request cannot climb out of the root. */
  lemma ServedPathStaysInRoot(s: Server, req: Request)
    requires !PathUtil.HasParentStep(s.docRoot)
    requires req.verb.Get? || req.verb.Head?
    requires !IllegalTarget(req.target)
    ensures var res := HandleRequest(s, req);
      res.body.FileBody? ==> !PathUtil.HasParentStep(res.body.path)
    ensures var target := StripQuery(req.target);
      target != "/audience.js" ==> HandleRequest(s, req).status in {200, 404, 500}
  {
    QueryIgnored(s, req);
    var target := StripQuery(req.target);
    PathUtil.PathCatKeepsNoParentStep(s.docRoot, target, s.windows);
    var joined := PathUtil.PathCat(s.docRoot, target, s.windows);
    if |target| > 0 && target[|target| - 1] == '/' {
      IndexNoParentStep(joined);
    } else {
      assert FilePath(s, target) == joined;
    }
  }

  /** Appending "index.html" adds no ".." to a path without one. */
  lemma IndexNoParentStep(p: string)
    requires !PathUtil.HasParentStep(p)
    ensures !PathUtil.HasParentStep(p + "index.html")
  {
    PathUtil.JoinNoParentStep(p, "index.html");
    var t := "index.html";
    forall i | 0 <= i < |t| - 1 ensures !(t[i] == '.' && t[i + 1] == '.') {
    }
  }

  /** A missing file is reported under its target; any other open error
      is a server error. */
  lemma MissingFileIs404(s: Server, req: Request)
    requires req.verb.Get? || req.verb.Head?
    requires !IllegalTarget(req.target)
    requires StripQuery(req.target) != "/audience.js"
    ensures s.open(FilePath(s, StripQuery(req.target))) == NoSuchFile ==>
      HandleRequest(s, req) == TextResponse(404, "The resource '" + StripQuery(req.target) + "' was not found.", req.keepAlive)
    ensures s.open(FilePath(s, StripQuery(req.target))).OpenError? ==> HandleRequest(s, req).status == 500
  {
  }
}
