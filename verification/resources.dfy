/**
 * Where each platform's build of the native library sits on the class path:
 * `/include/<platform directory>/<mapped library file name>`.
 */
module Resources {
  import opened Outcomes
  import opened Text
  import opened Platform

  /** The library's base name, before the platform maps it to a file name. */
  const LibName := "jni_crypto"

  /** The class-path directory that holds one sub-directory per platform. */
  const ResourceRoot := "/include/"

  /** The class-path resource for platform `t` and library file name `fileName`. */
  function ResourcePath(t: Tag, fileName: string): (r: string)
    ensures StartsWith(r, ResourceRoot)
    ensures |r| == |ResourceRoot| + |DirName(t)| + 1 + |fileName|
    ensures r[|r| - |fileName|..] == fileName && r[|r| - |fileName| - 1] == '/'
  {
    ResourceRoot + DirName(t) + "/" + fileName
  }

  /** The platform whose directory is called `d`, if any. */
  function TagOfDir(d: string): Option<Tag>
  {
    if d == "windows" then Some(Windows)
    else if d == "x86_64-linux" then Some(X86_64Linux)
    else if d == "aarch64-linux" then Some(Aarch64Linux)
    else if d == "macos" then Some(MacOS)
    else None
  }

  /** Splits a resource path back into its platform and file name; the file name is everything after the directory's slash. */
  function ParseResourcePath(p: string): Option<(Tag, string)>
  {
    if !StartsWith(p, ResourceRoot) then None
    else
      var rest := p[|ResourceRoot|..];
      match IndexOf(rest, '/')
      case None => None
      case Some(k) =>
        match TagOfDir(rest[..k])
        case None => None
        case Some(t) => Some((t, rest[k + 1..]))
  }

  /** Directory names name their platform and hold no slash. */
  lemma DirNameRoundTrip(t: Tag)
    ensures TagOfDir(DirName(t)) == Some(t)
    ensures '/' !in DirName(t)
  {
  }

  /** Parsing a resource path gives back the platform and file name it was built from. */
  lemma ParseResourcePathRoundTrip(t: Tag, fileName: string)
    ensures ParseResourcePath(ResourcePath(t, fileName)) == Some((t, fileName))
  {
    var d := DirName(t);
    var p := ResourcePath(t, fileName);
    DirNameRoundTrip(t);
    assert p[..|ResourceRoot|] == ResourceRoot;
    var rest := p[|ResourceRoot|..];
    assert rest == d + "/" + fileName;
    assert rest[|d|] == '/' && rest[..|d|] == d;
    assert IndexOf(rest, '/') == Some(|d|);
    assert rest[|d| + 1..] == fileName;
  }

  /** Every path the parser accepts is the resource path of what it returns. */
  lemma ParseResourcePathSound(p: string)
    ensures ParseResourcePath(p).Some? ==>
      p == ResourcePath(ParseResourcePath(p).value.0, ParseResourcePath(p).value.1)
  {
    if ParseResourcePath(p).Some? {
      var rest := p[|ResourceRoot|..];
      var k := IndexOf(rest, '/').value;
      var t := TagOfDir(rest[..k]).value;
      assert DirName(t) == rest[..k];
      assert rest == rest[..k] + "/" + rest[k + 1..];
      assert p == p[..|ResourceRoot|] + rest;
    }
  }

  /** Distinct platforms or file names never share a resource path. */
  lemma ResourcePathInjective(t1: Tag, f1: string, t2: Tag, f2: string)
    ensures ResourcePath(t1, f1) == ResourcePath(t2, f2) <==> t1 == t2 && f1 == f2
  {
    ParseResourcePathRoundTrip(t1, f1);
    ParseResourcePathRoundTrip(t2, f2);
  }

  /** The Linux x86-64 build of `libjni_crypto.so` sits at `/include/x86_64-linux/libjni_crypto.so`. */
  lemma ResourcePathExample()
    ensures ResourcePath(X86_64Linux, "libjni_crypto.so") == "/include/x86_64-linux/libjni_crypto.so"
  {
  }
}
