/** The string handling around certificate storage: the upload size limit and the path
    an upload is stored under, the path a delete removes, `getFileExtension` and
    `isCertificateFile`. The storage calls themselves are not modelled; an upload is
    described by the path it would store, a delete by the path it would remove. */
module Storage {
  import opened Js
  import opened Strings

  const DefaultBucket: string := "certificate"

  /** `5 * 1024 * 1024` bytes. */
  const MaxUploadSize: nat := 5 * 1024 * 1024

  const TooLargeError: string := "File size must be less than 5MB"

  /** The extensions `isCertificateFile` accepts, compared after lower-casing. */
  const CertificateExtensions: seq<string> := ["pdf", "jpg", "jpeg", "png", "gif"]

  // ---- uploadFile ----

  /** `file.name.split('.').pop()`: the text after the last '.', or the whole name. */
  function UploadExtension(name: string): (ext: string)
    ensures '.' !in ext
    ensures ext == AfterLast(name, '.')
  {
    LastPieceIsAfterLast(name, '.');
    SplitPiecesFree(name, '.');
    Split(name, '.')[|Split(name, '.')| - 1]
  }

  /** `${timestamp}-${randomString}.${fileExt}`; the clock reading and the random text
      are supplied by the caller. */
  function StoredName(stamp: string, random: string, name: string): string {
    stamp + "-" + random + "." + UploadExtension(name)
  }

  /** `path ? `${path}/${fileName}` : fileName`. */
  function JoinPath(path: string, fileName: string): (r: string)
    ensures path != "" ==> r == path + "/" + fileName
    ensures path == "" ==> r == fileName
  {
    if path != "" then path + "/" + fileName else fileName
  }

  /** The path `uploadFile` stores a file under, or the size error it throws first. */
  function UploadPath(size: nat, name: string, path: string, stamp: string, random: string): (r: Result<string>)
    ensures r.Err? <==> size > MaxUploadSize
    ensures r.Err? ==> r.message == TooLargeError
    ensures r.Ok? ==> r.value == JoinPath(path, StoredName(stamp, random, name))
  {
    if size > MaxUploadSize then Err(TooLargeError)
    else Ok(JoinPath(path, StoredName(stamp, random, name)))
  }

  /** A file of exactly 5 MiB is accepted; one byte more is rejected. */
  lemma SizeLimitBoundary(name: string, path: string, stamp: string, random: string)
    ensures UploadPath(5242880, name, path, stamp, random).Ok?
    ensures UploadPath(5242881, name, path, stamp, random).Err?
  {
  }

  /** The stored path keeps the original extension: its text after the last '.' is the
      original name's. */
  lemma StoredPathKeepsExtension(path: string, stamp: string, random: string, name: string)
    ensures AfterLast(JoinPath(path, StoredName(stamp, random, name)), '.') == AfterLast(name, '.')
  {
    var ext := UploadExtension(name);
    var full := JoinPath(path, StoredName(stamp, random, name));
    var prefix := if path != "" then path + "/" + stamp + "-" + random else stamp + "-" + random;
    assert full == prefix + "." + ext;
    AfterLastOfSuffix(prefix, ext);
  }

  /** With `c` absent from `b`, the text after the last `c` of `a + c + b` is `b`. */
  lemma AfterLastOfSuffix(a: string, b: string)
    requires '.' !in b
    ensures AfterLast(a + "." + b, '.') == b
  {
    var s := a + "." + b;
    var i := LastIndexOf(s, '.');
    assert s[|a|] == '.';
    forall j | |a| < j < |s| ensures s[j] != '.' {
      assert s[j] == b[j - |a| - 1];
    }
    assert i == |a|;
    assert s[|a| + 1..] == b;
  }

  // ---- deleteFile ----

  /** `url.split(`/${bucket}/`)[1]`, or nothing when the split has fewer than two pieces:
      the text after the first `/bucket/` up to the next one or the end. */
  function DeletePath(url: string, bucket: string): (r: Option<string>)
    ensures r.None? <==> forall k :: !OccursAt(url, "/" + bucket + "/", k)
  {
    var sep := "/" + bucket + "/";
    match FindFrom(url, sep, 0)
    case None => None
    case Some(k) =>
      var start := k + |sep|;
      match FindFrom(url, sep, start)
      case None => Some(url[start..])
      case Some(q) => Some(url[start..q])
  }

  /** The removed path lies just after the first `/bucket/` and holds no `/bucket/`. */
  lemma DeletePathPiece(url: string, bucket: string)
    requires DeletePath(url, bucket).Some?
    ensures var sep := "/" + bucket + "/";
      var k := FindFrom(url, sep, 0).value;
      var p := DeletePath(url, bucket).value;
      k + |sep| + |p| <= |url| && url[k + |sep|..k + |sep| + |p|] == p &&
      forall j :: !OccursAt(p, sep, j)
  {
    var sep := "/" + bucket + "/";
    var k := FindFrom(url, sep, 0).value;
    var start := k + |sep|;
    var p := DeletePath(url, bucket).value;
    var end := if FindFrom(url, sep, start).Some? then FindFrom(url, sep, start).value else |url|;
    assert p == url[start..end];
    forall j ensures !OccursAt(p, sep, j) {
      OccursInSlice(url, start, end, sep, j);
    }
  }

  /** An occurrence inside `s[a..b]` is an occurrence in `s`, shifted by `a`. */
  lemma OccursInSlice(s: string, a: nat, b: nat, pat: string, j: int)
    requires a <= b <= |s|
    ensures OccursAt(s[a..b], pat, j) ==> OccursAt(s, pat, a + j) && a + j + |pat| <= b
  {
    if OccursAt(s[a..b], pat, j) {
      var sub := s[a..b];
      forall t | 0 <= t < |pat| ensures s[a + j + t] == pat[t] {
        assert pat[t] == sub[j..j + |pat|][t] == sub[j + t];
      }
      assert s[a + j..a + j + |pat|] == pat;
    }
  }

  /** Round trip with the public URL: a URL made of a base, `/bucket/` and a stored path,
      where `/bucket/` occurs nowhere else, deletes exactly that stored path. */
  lemma DeleteFindsStoredPath(base: string, bucket: string, path: string)
    requires forall k :: k != |base| ==> !OccursAt(base + "/" + bucket + "/" + path, "/" + bucket + "/", k)
    ensures DeletePath(base + "/" + bucket + "/" + path, bucket) == Some(path)
  {
    var sep := "/" + bucket + "/";
    var url := base + "/" + bucket + "/" + path;
    assert url[|base|..|base| + |sep|] == sep;
    assert OccursAt(url, sep, |base|);
    assert FindFrom(url, sep, 0) == Some(|base|);
    assert FindFrom(url, sep, |base| + |sep|).None?;
    assert url[|base| + |sep|..] == path;
  }

  /** How `deleteFile` ends: it never rejects. With no `/bucket/` segment it returns
      before any request; otherwise it asks to remove one path, and a failure of that
      request is only logged. */
  datatype Deletion = NothingToDelete | Removal(path: string, logged: Option<string>)

  function DeleteFile(url: string, bucket: string, removeError: Option<string>): (r: Deletion)
    ensures r.NothingToDelete? <==> DeletePath(url, bucket).None?
    ensures r.Removal? ==> r.path == DeletePath(url, bucket).value && r.logged == removeError
  {
    match DeletePath(url, bucket)
    case None => NothingToDelete
    case Some(p) => Removal(p, removeError)
  }

  // ---- getFileExtension ----

  /** ECMAScript ToUint32 of an integer: `x >>> 0`. */
  function ToUint32(x: int): (r: nat)
    ensures r < 0x1_0000_0000
    ensures 0 <= x < 0x1_0000_0000 ==> r == x
    ensures -0x1_0000_0000 <= x < 0 ==> r == x + 0x1_0000_0000
  {
    x % 0x1_0000_0000
  }

  /** `filename.slice((filename.lastIndexOf('.') - 1 >>> 0) + 2)`: `lastIndexOf - 1` is
      -2 with no '.' and -1 with a leading '.', which `>>> 0` maps to 4294967294 and
      4294967295, so the slice starts past the end of any shorter name. */
  function GetFileExtension(filename: string): string {
    var start := ToUint32(LastIndexOf(filename, '.') - 1) + 2;
    if start >= |filename| then "" else filename[start..]
  }

  /** The extension is the text after the last '.', and it is empty when there is no '.',
      when the only '.' is the first character, or when the name ends in '.'. Names of
      2^32 characters or more are beyond what a JavaScript engine holds. */
  lemma FileExtension(filename: string)
    requires |filename| <= 0x1_0000_0000
    ensures var k := LastIndexOf(filename, '.');
      (k <= 0 ==> GetFileExtension(filename) == "") &&
      (k >= 1 ==> GetFileExtension(filename) == filename[k + 1..] == AfterLast(filename, '.'))
    ensures '.' !in GetFileExtension(filename)
    ensures GetFileExtension(filename) == "" <==>
      LastIndexOf(filename, '.') <= 0 || LastIndexOf(filename, '.') == |filename| - 1
  {
    var k := LastIndexOf(filename, '.');
    var start := ToUint32(k - 1) + 2;
    if k == -1 {
      assert start == 0x1_0000_0000;
    } else if k == 0 {
      assert start == 0x1_0000_0001;
    } else {
      assert start == k + 1;
      var ext := filename[k + 1..];
      forall j | 0 <= j < |ext| ensures ext[j] != '.' {
        assert ext[j] == filename[k + 1 + j];
      }
    }
  }

  /** `isCertificateFile` and `getFileExtension` disagree on a hidden-file name. */
  lemma LeadingDotDisagreement()
    ensures GetFileExtension(".png") == ""
    ensures UploadExtension(".png") == "png"
  {
    assert ".png"[0] == '.' && ".png"[1] != '.' && ".png"[2] != '.' && ".png"[3] != '.';
    assert LastIndexOf(".png", '.') == 0;
    assert ".png"[1..] == "png";
  }

  // ---- isCertificateFile ----

  /** `isCertificateFile(url)`: false for a falsy url, else whether the last '.'-piece,
      lower-cased, is a certificate extension. */
  function IsCertificateFile(url: Val): (r: bool)
    ensures !Truthy(url) ==> !r
  {
    if !Truthy(url) then false
    else
      var pieces := Split(url.s, '.');
      ToLowerAscii(pieces[|pieces| - 1]) in CertificateExtensions
  }

  /** The test reads the text after the last '.', or the whole url when it has none. */
  lemma CertificateByLastPiece(url: Val)
    ensures IsCertificateFile(url) <==> Truthy(url) && ToLowerAscii(AfterLast(url.s, '.')) in CertificateExtensions
    ensures Truthy(url) && '.' !in url.s ==> (IsCertificateFile(url) <==> ToLowerAscii(url.s) in CertificateExtensions)
  {
    if Truthy(url) {
      LastPieceIsAfterLast(url.s, '.');
      if '.' !in url.s {
        assert LastIndexOf(url.s, '.') == -1;
      }
    }
  }

  /** Upper-case extensions count. */
  lemma UpperCaseExtension(stem: string)
    ensures IsCertificateFile(Str(stem + ".PDF"))
  {
    CertificateByLastPiece(Str(stem + ".PDF"));
    assert stem + ".PDF" == stem + "." + "PDF";
    AfterLastOfSuffix(stem, "PDF");
    assert ToLowerAscii("PDF") == "pdf";
  }

  /** A url with no '.' is judged on its whole text. */
  lemma BareExtension()
    ensures IsCertificateFile(Str("png"))
  {
    CertificateByLastPiece(Str("png"));
    assert ToLowerAscii("png") == "png";
  }

  lemma OtherExtension(stem: string)
    ensures !IsCertificateFile(Str(stem + ".txt"))
  {
    CertificateByLastPiece(Str(stem + ".txt"));
    assert stem + ".txt" == stem + "." + "txt";
    AfterLastOfSuffix(stem, "txt");
    assert ToLowerAscii("txt") == "txt";
  }

  /** A stored upload is recognised as a certificate exactly when its original name is. */
  lemma StoredUploadRecognised(path: string, stamp: string, random: string, name: string)
    requires name != ""
    ensures IsCertificateFile(Str(JoinPath(path, StoredName(stamp, random, name)))) == IsCertificateFile(Str(name))
  {
    var stored := JoinPath(path, StoredName(stamp, random, name));
    assert stored != "";
    CertificateByLastPiece(Str(stored));
    CertificateByLastPiece(Str(name));
    StoredPathKeepsExtension(path, stamp, random, name);
  }
}
