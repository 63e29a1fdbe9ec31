/** Output names and paths of the web front end (app.py).  create_fname
    (app.py:35-36) writes each random byte as hex without zero padding; the
    random bytes are an input here.  An image is saved under upload/<name>.png
    (app.py:48) and looked up under the same path when /i/<name> is requested
    (app.py:54-57). */
module FileNames {
  import opened Wrappers

  newtype byte = b: int | 0 <= b < 256

  /** The default length of create_fname. */
  const DefaultNameBytes: nat := 6

  /** A lower-case hex digit, as hex() writes it. */
  predicate IsHexDigit(c: char) {
    '0' <= c <= '9' || 'a' <= c <= 'f'
  }

  /** The digit of a value below 16. */
  function HexDigit(n: nat): (c: char)
    requires n < 16
    ensures IsHexDigit(c)
  {
    if n < 10 then ('0' as int + n) as char else ('a' as int + n - 10) as char
  }

  /** Value of a lower-case hex digit. */
  function DigitValue(c: char): nat
  {
    if '0' <= c <= '9' then (c as int - '0' as int) as nat
    else if 'a' <= c <= 'f' then (c as int - 'a' as int + 10) as nat
    else 0
  }

  /** Value of a string of lower-case hex digits. */
  function HexValue(s: string): nat
  {
    if s == [] then 0 else HexValue(s[..|s| - 1]) * 16 + DigitValue(s[|s| - 1])
  }

  /** hex(b)[2:]: the lower-case hex digits of `b`, with no leading zero. */
  function ByteHex(b: byte): (r: string)
    ensures |r| == (if b < 16 then 1 else 2)
    ensures forall k :: 0 <= k < |r| ==> IsHexDigit(r[k])
    ensures HexValue(r) == b as int
    ensures |r| == 2 ==> r[0] != '0'
  {
    var hi := (b / 16) as int;
    var lo := (b % 16) as int;
    assert DigitValue(HexDigit(lo)) == lo;
    assert DigitValue(HexDigit(hi)) == hi;
    if b < 16 then
      assert HexValue([HexDigit(lo)]) == HexValue([]) * 16 + lo;
      [HexDigit(lo)]
    else
      var r := [HexDigit(hi), HexDigit(lo)];
      assert r[..1] == [HexDigit(hi)];
      assert HexValue(r[..1]) == HexValue([]) * 16 + hi;
      r
  }

  /** ''.join(map(lambda b: hex(b)[2:], bytes)). */
  function CreateFname(bytes: seq<byte>): (r: string)
    ensures |bytes| <= |r| <= 2 * |bytes|
    ensures forall k :: 0 <= k < |r| ==> IsHexDigit(r[k])
  {
    if bytes == [] then ""
    else
      var head := ByteHex(bytes[0]);
      var tail := CreateFname(bytes[1..]);
      head + tail
  }

  /** With the default six bytes the name has six to twelve characters. */
  lemma DefaultNameLength(bytes: seq<byte>)
    requires |bytes| == DefaultNameBytes
    ensures 6 <= |CreateFname(bytes)| <= 12
  {
  }

  /** Without padding the encoding loses byte boundaries: two different byte
      strings share the name "123". */
  lemma CreateFnameNotInjective()
    ensures [1 as byte, 0x23 as byte] != [0x12 as byte, 3 as byte]
    ensures CreateFname([1 as byte, 0x23 as byte]) == "123"
    ensures CreateFname([0x12 as byte, 3 as byte]) == "123"
  {
  }

  /** os.path.join(a, b) on POSIX for two parts: an absolute `b` replaces
      `a`; otherwise `b` follows `a` after exactly one "/", which is added
      only when `a` is not empty and does not already end in one. */
  function PathJoin(a: string, b: string): (r: string)
    ensures |r| >= |b| && r[|r| - |b|..] == b
    ensures |b| > 0 && b[0] == '/' ==> r == b
    ensures !(|b| > 0 && b[0] == '/') ==>
              a <= r && |r| == |a| + |b| + (if a == "" || a[|a| - 1] == '/' then 0 else 1)
              && (|r| > |b| ==> r[|r| - |b| - 1] == '/')
  {
    if |b| > 0 && b[0] == '/' then b
    else if a == "" || a[|a| - 1] == '/' then a + b
    else a + "/" + b
  }

  /** os.path.join('upload', name + '.png'): where an image is saved
      (app.py:48) and where it is looked for (app.py:56). */
  function UploadPath(name: string): (path: string)
    ensures (name == [] || name[0] != '/') ==> path == "upload/" + name + ".png"
    ensures |name| > 0 && name[0] == '/' ==> path == name + ".png"
  {
    PathJoin("upload", name + ".png")
  }

  /** The redirect issued after saving (app.py:51). */
  function RedirectUrl(name: string): (url: string)
    ensures |name| >= 1 && name[0] != '/' ==> RouteFilename(url) == Some(name)
  {
    "/i/" + name
  }

  /** The <path:filename> part of a request to /i/, which must be non-empty
      and not start with "/". */
  function RouteFilename(url: string): (f: Option<string>)
    ensures f.Some? <==> |url| > 3 && url[..3] == "/i/" && url[3] != '/'
    ensures f.Some? ==> "/i/" + f.value == url && f.value != [] && f.value[0] != '/'
  {
    if |url| > 3 && url[..3] == "/i/" && url[3] != '/' then Some(url[3..]) else None
  }

  /** custom_static: the path checked for a request, when the route matches. */
  function LookupPath(url: string): (path: Option<string>)
    ensures path.Some? <==> RouteFilename(url).Some?
    ensures path.Some? ==> path.value == "upload/" + url[3..] + ".png"
  {
    match RouteFilename(url)
    case None => None
    case Some(filename) => Some(UploadPath(filename))
  }

  /** For a name the route accepts, the redirect to /i/<name> makes the
      lookup check upload/<name>.png. */
  lemma RedirectLookup(name: string)
    requires |name| >= 1 && name[0] != '/'
    ensures LookupPath(RedirectUrl(name)) == Some(UploadPath(name))
    ensures UploadPath(name) == "upload/" + name + ".png"
  {
    var url := RedirectUrl(name);
    assert url[..3] == "/i/" && url[3] == name[0];
    assert url[3..] == name;
  }

  /** The redirect after rendering leads to a lookup of exactly the path the
      image was saved under, and that path is upload/<name>.png. */
  lemma RedirectFindsSavedImage(bytes: seq<byte>)
    requires |bytes| >= 1
    ensures var name := CreateFname(bytes);
            LookupPath(RedirectUrl(name)) == Some(UploadPath(name))
            && UploadPath(name) == "upload/" + name + ".png"
  {
    var name := CreateFname(bytes);
    assert IsHexDigit(name[0]);
    RedirectLookup(name);
  }

  /** The name an upload path was built from. */
  function NameOfPath(path: string): string
  {
    if |path| >= 11 then path[7..|path| - 4] else ""
  }

  /** The name can be read back from the path it is saved under, so
      distinct names never share a path. */
  lemma UploadPathRoundTrip(name: string)
    requires name == [] || name[0] != '/'
    ensures NameOfPath(UploadPath(name)) == name
  {
  }

  /** The filename is joined unchecked, so ".." segments make the lookup
      test a path outside the upload folder. */
  lemma LookupFollowsDotDot()
    ensures LookupPath("/i/../../etc/x") == Some("upload/../../etc/x.png")
  {
    assert "/i/../../etc/x"[..3] == "/i/";
    assert "/i/../../etc/x"[3..] == "../../etc/x";
    assert "/i/../../etc/x"[3] == '.';
    assert RouteFilename("/i/../../etc/x").Some?;
    assert "upload/" + "../../etc/x" + ".png" == "upload/../../etc/x.png";
  }
}
