/** The route that turns a stored file's URL or path into a short-lived
    signed download URL. The raw value is trimmed, stripped of the
    project's own origin and of the storage API prefixes, and split into a
    bucket and a path inside it; the storage service's signing call is the
    parameter `sign`, and the project URL from the environment is `env`. */
module DownloadUrl {
  import opened Base
  import opened Http

  /** `req.query.raw`: missing, one value, or a repeated parameter. */
  datatype Query = NoRaw | RawText(raw: string) | RawList(items: seq<string>)

  /** The validity of a signed URL, in seconds. */
  const ExpiresIn: nat := 120

  const RawRequired := "raw (file url or path) required"
  const CannotParse := "cannot parse bucket/path from raw"

  /** The length of a leading `http://` or `https://`, letters in any case. */
  function SchemeLength(s: string): (n: Option<nat>)
    ensures n.Some? ==> (n.value == 7 || n.value == 8) && n.value <= |s|
    ensures n.Some? ==> Lower(s[..4]) == "http" && s[n.value - 3..n.value] == "://"
  {
    if |s| >= 4 && Lower(s[..4]) == "http" then
      if |s| >= 8 && LowerChar(s[4]) == 's' && s[5..8] == "://" then Some(8)
      else if |s| >= 7 && s[4..7] == "://" then Some(7)
      else None
    else None
  }

  /** The project's host as the route derives it from the configured URL:
      the scheme removed, "" when nothing is configured. */
  function ProjectHost(env: Option<string>): (host: string)
    ensures env.None? ==> host == ""
  {
    match env
    case None => ""
    case Some(u) =>
      var n := SchemeLength(u);
      if n.Some? then u[n.value..] else u
  }

  /** One character of the project host used as a pattern: `.` stands for
      any character but a line terminator, anything else for itself in
      either case. */
  predicate CharMatches(pattern: char, c: char) {
    if pattern == '.' then !IsLineTerminator(c) else LowerChar(pattern) == LowerChar(c)
  }

  predicate HostMatches(project: string, s: string) {
    |project| <= |s| && forall i :: 0 <= i < |project| ==> CharMatches(project[i], s[i])
  }

  /** Removes a leading `http(s)://<project>` and one slash after it. */
  function StripProject(s: string, project: string): (r: string)
    ensures |r| <= |s| && r == s[|s| - |r|..]
  {
    var n := SchemeLength(s);
    if n.None? then s
    else
      var rest := s[n.value..];
      if !HostMatches(project, rest) then s
      else
        var after := rest[|project|..];
        if |after| > 0 && after[0] == '/' then after[1..] else after
  }

  /** Removes every leading slash. */
  function DropSlashes(s: string): (r: string)
    ensures |r| <= |s| && r == s[|s| - |r|..]
    ensures r == [] || r[0] != '/'
    ensures forall i :: 0 <= i < |s| - |r| ==> s[i] == '/'
  {
    if |s| > 0 && s[0] == '/' then DropSlashes(s[1..]) else s
  }

  /** Removes `prefix` once when `s` starts with it. */
  function DropPrefix(s: string, prefix: string): (r: string)
    ensures prefix <= s ==> s == prefix + r
    ensures !(prefix <= s) ==> r == s
  {
    if prefix <= s then s[|prefix|..] else s
  }

  /** The raw value without surrounding blanks, the project's origin and leading slashes. */
  function AfterOrigin(raw: string, project: string): string {
    DropSlashes(StripProject(Trim(raw), project))
  }

  /** Removes the storage API's path prefixes, each at most once, in order. */
  function DropApiPrefixes(s: string): string {
    DropPrefix(DropPrefix(DropPrefix(s, "storage/v1/object/"), "public/"), "sign/")
  }

  /** What is left of the raw value once origin and prefixes are gone. */
  function Normalize(raw: string, project: string): string {
    DropApiPrefixes(AfterOrigin(raw, project))
  }

  /** The first position of `c` in `s`. */
  function IndexOf(s: string, c: char, from: nat := 0): (k: Option<nat>)
    requires from <= |s|
    ensures k.Some? ==> from <= k.value < |s| && s[k.value] == c
                        && forall j :: from <= j < k.value ==> s[j] != c
    ensures k.None? ==> forall j :: from <= j < |s| ==> s[j] != c
    decreases |s| - from
  {
    if from == |s| then None
    else if s[from] == c then Some(from)
    else IndexOf(s, c, from + 1)
  }

  predicate IsBucket(b: string) {
    b != [] && '/' !in b
  }

  /** `.+$` without the multiline flag: at least one character, none a line terminator. */
  predicate IsObjectPath(p: string) {
    p != [] && forall i :: 0 <= i < |p| ==> !IsLineTerminator(p[i])
  }

  /** `/^([^/]+)\/(.+)$/`: the bucket before the first slash, the path after it. */
  function SplitBucketPath(s: string): (r: Option<(string, string)>)
    ensures r.Some? ==> s == r.value.0 + "/" + r.value.1 && IsBucket(r.value.0) && IsObjectPath(r.value.1)
  {
    match IndexOf(s, '/')
    case None => None
    case Some(k) =>
      if k > 0 && IsObjectPath(s[k + 1..]) then Some((s[..k], s[k + 1..])) else None
  }

  /** The split succeeds exactly on `bucket/path`, and then gives back both parts. */
  lemma SplitBucketPathIff(s: string, b: string, p: string)
    ensures SplitBucketPath(s) == Some((b, p)) <==> s == b + "/" + p && IsBucket(b) && IsObjectPath(p)
  {
    if s == b + "/" + p && IsBucket(b) && IsObjectPath(p) {
      assert s[|b|] == '/';
      assert forall j :: 0 <= j < |b| ==> s[j] == b[j];
      var k := IndexOf(s, '/');
      assert k == Some(|b|);
      assert s[..|b|] == b && s[|b| + 1..] == p;
    }
  }

  /** What the storage service answers to a signing request. */
  datatype SignResult =
    | SignError(message: string)     // `{ error }`
    | Signed(url: Option<string>)    // `{ data: { signedUrl } }`
    | SignThrew(message: string)     // the call rejected

  /** A signing request: bucket, path inside it, and validity. */
  datatype SignCall = SignCall(bucket: string, path: string, seconds: nat)

  datatype Outcome = Outcome(response: Response, calls: seq<SignCall>)

  /** The bucket and path a raw value names, when it parses. */
  function Target(raw: string, env: Option<string>): (t: Option<(string, string)>)
    ensures t.Some? ==> Normalize(raw, ProjectHost(env)) == t.value.0 + "/" + t.value.1
                        && IsBucket(t.value.0) && IsObjectPath(t.value.1)
  {
    SplitBucketPath(Normalize(raw, ProjectHost(env)))
  }

  /** The route handler. */
  function Handle(q: Query, env: Option<string>, sign: (string, string) -> SignResult): (out: Outcome)
    ensures !(q.RawText? && q.raw != "") ==> out == Outcome(Fail(400, RawRequired), [])
    ensures q.RawText? && q.raw != "" && Target(q.raw, env).None? ==> out == Outcome(Fail(400, CannotParse), [])
    ensures q.RawText? && q.raw != "" && Target(q.raw, env).Some? ==>
              out.calls == [SignCall(Target(q.raw, env).value.0, Target(q.raw, env).value.1, ExpiresIn)]
              && out.response.status != 400
    ensures q.RawText? && q.raw != "" && Target(q.raw, env).Some? ==>
              var t := Target(q.raw, env).value;
              var r := sign(t.0, t.1);
              && (out.response.status == 200 <==> r.Signed?)
              && (r.Signed? ==> out.response.body == UrlBody(if TruthyText(r.url) then r.url else None))
              && (r.SignError? ==> out.response == Fail(500, r.message))
              && (r.SignThrew? ==> out.response == Fail(500, if r.message == "" then "internal error" else r.message))
    ensures out.response.status == 200 ==>
              out.response.body.UrlBody? && (out.response.body.url.Some? ==> out.response.body.url.value != "")
    ensures out.response.status == 400 <==> out.calls == []
    ensures out.response.status == 200 || out.response.status == 400 || out.response.status == 500
  {
    if !(q.RawText? && q.raw != "") then Outcome(Fail(400, RawRequired), [])
    else
      match Target(q.raw, env)
      case None => Outcome(Fail(400, CannotParse), [])
      case Some((bucket, path)) =>
        var call := [SignCall(bucket, path, ExpiresIn)];
        match sign(bucket, path)
        case SignError(m) => Outcome(Fail(500, m), call)
        case SignThrew(m) => Outcome(Fail(500, if m == "" then "internal error" else m), call)
        case Signed(url) => Outcome(Response(200, UrlBody(if TruthyText(url) then url else None)), call)
  }

  /** The scheme of a value starting with "https://". */
  lemma HttpsScheme(s: string)
    requires "https://" <= s
    ensures SchemeLength(s) == Some(8)
  {
    assert s[..4] == "https://"[..4] == "http";
    assert s[4] == 's' && s[5..8] == "https://"[5..8];
    assert Lower("http") == "http";
  }

  /** A value starting with a slash has no scheme. */
  lemma SlashNoScheme(s: string)
    requires s != [] && s[0] == '/'
    ensures SchemeLength(s).None?
  {
    if |s| >= 4 {
      assert Lower(s[..4])[0] == LowerChar(s[0]) == '/';
    }
  }

  lemma {:induction false} SlashesThen(slashes: string, rest: string)
    requires forall i :: 0 <= i < |slashes| ==> slashes[i] == '/'
    requires rest != [] && rest[0] != '/'
    ensures DropSlashes(slashes + rest) == rest
    decreases |slashes|
  {
    if slashes == [] {
      assert slashes + rest == rest;
    } else {
      assert (slashes + rest)[1..] == slashes[1..] + rest;
      SlashesThen(slashes[1..], rest);
    }
  }

  /** A relative value loses only its leading slashes before the prefixes are looked at. */
  lemma OriginOfRelative(slashes: string, rest: string, project: string)
    requires forall i :: 0 <= i < |slashes| ==> slashes[i] == '/'
    requires rest != [] && rest[0] != '/' && !IsSpace(rest[0]) && !IsSpace(rest[|rest| - 1])
    requires SchemeLength(rest).None?
    ensures AfterOrigin(slashes + rest, project) == rest
  {
    var raw := slashes + rest;
    assert raw[|raw| - 1] == rest[|rest| - 1];
    assert raw[0] == if slashes == [] then rest[0] else '/';
    TrimNoSpace(raw);
    if slashes != [] {
      SlashNoScheme(raw);
    }
    SlashesThen(slashes, rest);
  }

  /** Only the leading slashes are taken off a relative value before the prefixes. */
  lemma OriginOfBucketPath(project: string, slashes: string, b: string, p: string)
    requires forall i :: 0 <= i < |slashes| ==> slashes[i] == '/'
    requires IsBucket(b) && IsObjectPath(p)
    requires !IsSpace(b[0]) && !IsSpace(p[|p| - 1])
    requires SchemeLength(b + "/" + p).None?
    ensures AfterOrigin(slashes + (b + "/" + p), project) == b + "/" + p
  {
    var rest := b + "/" + p;
    assert rest[0] == b[0] && rest[|rest| - 1] == p[|p| - 1];
    OriginOfRelative(slashes, rest, project);
  }

  lemma NoApiPrefix(s: string)
    requires !("storage/v1/object/" <= s) && !("public/" <= s) && !("sign/" <= s)
    ensures DropApiPrefixes(s) == s
  {
  }

  /** A path written without origin, with or without leading slashes,
      names its first segment as bucket and the rest as path. */
  lemma RelativePath(env: Option<string>, slashes: string, b: string, p: string)
    requires forall i :: 0 <= i < |slashes| ==> slashes[i] == '/'
    requires IsBucket(b) && IsObjectPath(p)
    requires !IsSpace(b[0]) && !IsSpace(p[|p| - 1])
    requires SchemeLength(b + "/" + p).None?
    requires !("storage/v1/object/" <= b + "/" + p) && !("public/" <= b + "/" + p) && !("sign/" <= b + "/" + p)
    ensures Target(slashes + (b + "/" + p), env) == Some((b, p))
  {
    var rest := b + "/" + p;
    var project := ProjectHost(env);
    OriginOfBucketPath(project, slashes, b, p);
    NoApiPrefix(rest);
    SplitBucketPathIff(rest, b, p);
  }

  /** A value whose first character cannot begin a scheme or an API prefix has neither. */
  lemma PlainFirstSegment(s: string)
    requires s != [] && LowerChar(s[0]) != 'h' && s[0] != 's' && s[0] != 'p'
    ensures SchemeLength(s).None?
    ensures !("storage/v1/object/" <= s) && !("public/" <= s) && !("sign/" <= s)
  {
    if |s| >= 4 {
      assert Lower(s[..4])[0] == LowerChar(s[0]);
    }
  }

  /** The documented example value meets the conditions of a relative path. */
  lemma UploadExampleShape()
    ensures var b, p := "upload", "dir/file.pdf";
            && IsBucket(b) && IsObjectPath(p) && !IsSpace(b[0]) && !IsSpace(p[|p| - 1])
            && SchemeLength(b + "/" + p).None?
            && !("storage/v1/object/" <= b + "/" + p) && !("public/" <= b + "/" + p) && !("sign/" <= b + "/" + p)
  {
    var rest := "upload" + "/" + "dir/file.pdf";
    assert rest[0] == 'u';
    PlainFirstSegment(rest);
  }

  /** The documented values, read as optional slashes, bucket and path. */
  lemma DocumentedPathsSplit(raw: string)
    requires raw == "upload/dir/file.pdf" || raw == "/upload/dir/file.pdf"
    ensures raw == "upload/dir/file.pdf" ==> raw == "" + ("upload" + "/" + "dir/file.pdf")
    ensures raw == "/upload/dir/file.pdf" ==> raw == "/" + ("upload" + "/" + "dir/file.pdf")
  {
  }

  /** The two forms the route's documentation names. */
  lemma DocumentedPaths(env: Option<string>, raw: string)
    requires raw == "upload/dir/file.pdf" || raw == "/upload/dir/file.pdf"
    ensures Target(raw, env) == Some(("upload", "dir/file.pdf"))
  {
    UploadExampleShape();
    DocumentedPathsSplit(raw);
    if raw == "upload/dir/file.pdf" {
      RelativePath(env, "", "upload", "dir/file.pdf");
    } else {
      RelativePath(env, "/", "upload", "dir/file.pdf");
    }
  }

  /** Any object path in the `upload` bucket, written as `upload/<path>`,
      is split back into that bucket and path. */
  lemma UploadBucketPath(env: Option<string>, p: string)
    requires IsObjectPath(p) && !IsSpace(p[|p| - 1])
    ensures Target("upload" + "/" + p, env) == Some(("upload", p))
  {
    var rest := "upload" + "/" + p;
    assert rest[0] == 'u';
    PlainFirstSegment(rest);
    assert IsBucket("upload");
    assert rest == "" + rest;
    RelativePath(env, "", "upload", p);
  }

  /** The configured project URL yields its host. */
  lemma HostOfProjectUrl(h: string)
    ensures ProjectHost(Some("https://" + h)) == h
  {
    HttpsScheme("https://" + h);
  }

  /** An https origin whose host the pattern matches is removed with the slash after it. */
  lemma StripMatchingHost(s: string, project: string, host: string, tail: string)
    requires s == "https://" + host + "/" + tail
    requires |host| == |project| && forall i :: 0 <= i < |project| ==> CharMatches(project[i], host[i])
    ensures StripProject(s, project) == tail
  {
    assert s == "https://" + (host + "/" + tail);
    HttpsScheme(s);
    var rest := s[8..];
    assert rest == host + "/" + tail;
    assert forall i :: 0 <= i < |host| ==> rest[i] == host[i];
    assert rest[|project|..] == "/" + tail;
  }

  /** The project's origin and the slash after it are removed. */
  lemma OriginOfProjectUrl(h: string, tail: string)
    requires forall i :: 0 <= i < |h| ==> !IsLineTerminator(h[i])
    requires tail != [] && tail[0] != '/' && !IsSpace(tail[|tail| - 1])
    ensures AfterOrigin("https://" + h + "/" + tail, h) == tail
  {
    var raw := "https://" + h + "/" + tail;
    assert raw[0] == 'h' && raw[|raw| - 1] == tail[|tail| - 1];
    TrimNoSpace(raw);
    StripMatchingHost(raw, h, h, tail);
    SlashesThen([], tail);
  }

  lemma DropGivenPrefix(prefix: string, s: string)
    ensures DropPrefix(prefix + s, prefix) == s
  {
    assert (prefix + s)[|prefix|..] == s;
  }

  /** "public/" is removed, and a "sign/" that follows "storage/v1/object/" is not mistaken for it. */
  lemma DropKind(kind: string, rest: string)
    requires kind == "public/" || kind == "sign/"
    ensures kind == "public/" ==> DropPrefix(kind + rest, "public/") == rest
    ensures kind == "sign/" ==> DropPrefix(kind + rest, "public/") == kind + rest
  {
    if kind == "public/" {
      DropGivenPrefix(kind, rest);
    } else {
      assert (kind + rest)[0] == 's';
    }
  }

  /** A bucket other than "sign" does not start with "sign/". */
  lemma NotSignPrefix(b: string, p: string)
    requires IsBucket(b) && b != "sign"
    ensures !("sign/" <= b + "/" + p)
  {
    var s1 := b + "/" + p;
    if |b| < 4 {
      assert s1[|b|] == '/';
    } else if |b| > 4 {
      assert s1[4] == b[4] && b[4] in b;
    } else {
      assert s1[..4] == b;
    }
  }

  /** The API prefixes of a public or signed storage URL are removed, and
      nothing of the bucket unless it is named "sign". */
  lemma PrefixesOfStorageUrl(kind: string, b: string, p: string)
    requires kind == "public/" || kind == "sign/"
    requires IsBucket(b) && b != "sign"
    ensures DropApiPrefixes("storage/v1/object/" + (kind + (b + "/" + p))) == b + "/" + p
  {
    var rest := b + "/" + p;
    DropGivenPrefix("storage/v1/object/", kind + rest);
    DropKind(kind, rest);
    if kind == "sign/" {
      DropGivenPrefix("sign/", rest);
    } else {
      NotSignPrefix(b, p);
    }
  }

  /** A full storage URL of the configured project, public or signed,
      round-trips: the route signs exactly the bucket and path it names. */
  lemma ProjectUrlRoundTrip(h: string, kind: string, b: string, p: string)
    requires forall i :: 0 <= i < |h| ==> !IsLineTerminator(h[i])
    requires kind == "public/" || kind == "sign/"
    requires IsBucket(b) && IsObjectPath(p) && b != "sign"
    requires !IsSpace(p[|p| - 1])
    ensures Target("https://" + h + "/storage/v1/object/" + kind + b + "/" + p, Some("https://" + h))
            == Some((b, p))
  {
    var tail := "storage/v1/object/" + (kind + (b + "/" + p));
    assert "https://" + h + "/storage/v1/object/" + kind + b + "/" + p == "https://" + h + "/" + tail;
    assert tail[0] == 's' && tail[|tail| - 1] == p[|p| - 1];
    HostOfProjectUrl(h);
    OriginOfProjectUrl(h, tail);
    PrefixesOfStorageUrl(kind, b, p);
    SplitBucketPathIff(b + "/" + p, b, p);
  }

  /** The prefixes are removed in a fixed order, each at most once, so a
      public URL of an object in a bucket named "sign" loses the bucket's
      name: the first segment of the object's path is taken as the bucket. */
  lemma SignBucketMisread(h: string, b: string, p: string)
    requires forall i :: 0 <= i < |h| ==> !IsLineTerminator(h[i])
    requires IsBucket(b) && IsObjectPath(p)
    requires !IsSpace(p[|p| - 1])
    ensures Target("https://" + h + "/storage/v1/object/public/" + "sign" + "/" + (b + "/" + p), Some("https://" + h))
            == Some((b, p))
  {
    var rest := b + "/" + p;
    var tail := "storage/v1/object/" + ("public/" + ("sign/" + rest));
    assert "https://" + h + "/storage/v1/object/public/" + "sign" + "/" + rest == "https://" + h + "/" + tail;
    assert tail[0] == 's' && tail[|tail| - 1] == p[|p| - 1];
    HostOfProjectUrl(h);
    OriginOfProjectUrl(h, tail);
    DropGivenPrefix("storage/v1/object/", "public/" + ("sign/" + rest));
    DropGivenPrefix("public/", "sign/" + rest);
    DropGivenPrefix("sign/", rest);
    SplitBucketPathIff(rest, b, p);
  }

  /** The project host is pasted into the pattern unescaped, so each of its
      dots accepts any character: another host that differs from the
      project's only in that place counts as the project's own and is
      stripped like it. */
  lemma DotMatchesAnyCharacter(pre: string, post: string, c: char, tail: string)
    requires forall i :: 0 <= i < |pre| ==> !IsLineTerminator(pre[i])
    requires forall i :: 0 <= i < |post| ==> !IsLineTerminator(post[i])
    requires !IsLineTerminator(c)
    ensures StripProject("https://" + (pre + [c] + post) + "/" + tail, pre + "." + post) == tail
  {
    var host := pre + [c] + post;
    var project := pre + "." + post;
    forall i | 0 <= i < |project| ensures CharMatches(project[i], host[i]) {
      if i < |pre| {
        assert project[i] == host[i] == pre[i];
      } else if i == |pre| {
        assert project[i] == '.' && host[i] == c;
      } else {
        assert project[i] == host[i] == post[i - |pre| - 1];
      }
    }
    StripMatchingHost("https://" + host + "/" + tail, project, host, tail);
  }
}
