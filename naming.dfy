/** How `render_shoebot` names its output (sphinxcontrib/shoebot.py): the code
    is hashed twice with SHA-1 (`get_hashid`, then the file name), so the name
    `prefix-<40 hex digits>.<format>` is a function of the code, the prefix
    and the format alone. SHA-1 itself is a parameter: any function from bytes
    to 20-byte digests. */
module Naming {
  import opened Wrappers
  import opened PyStrings

  type byte = b: int | 0 <= b < 256

  /** A SHA-1 digest: always 20 bytes. */
  type Sha1Digest = d: seq<byte> | |d| == 20
    witness [0, 0, 0, 0, 0, 0, 0, 0, 0, 0, 0, 0, 0, 0, 0, 0, 0, 0, 0, 0]

  /* ----------------------------------------------------------------- UTF-8 */

  /** The UTF-8 encoding of one Unicode scalar value: one byte exactly for
      ASCII, and then that byte is the character's code. */
  function Utf8Char(c: char): (r: seq<byte>)
    ensures 1 <= |r| <= 4
    ensures (c as int < 128) <==> |r| == 1
    ensures |r| == 1 ==> r[0] == c as int
  {
    var n := c as int;
    if n < 0x80 then [n]
    else if n < 0x800 then [0xC0 + n / 0x40, 0x80 + n % 0x40]
    else if n < 0x1_0000 then [0xE0 + n / 0x1000, 0x80 + (n / 0x40) % 0x40, 0x80 + n % 0x40]
    else [0xF0 + n / 0x4_0000, 0x80 + (n / 0x1000) % 0x40, 0x80 + (n / 0x40) % 0x40, 0x80 + n % 0x40]
  }

  /** `text.encode('utf-8')`. */
  function Utf8(s: string): (r: seq<byte>)
    ensures |s| <= |r| <= 4 * |s|
    decreases |s|
  {
    if s == [] then [] else Utf8Char(s[0]) + Utf8(s[1..])
  }

  /** An ASCII text encodes to its character codes, one byte each. */
  lemma {:induction false} Utf8Ascii(s: string)
    requires forall i :: 0 <= i < |s| ==> s[i] as int < 128
    ensures |Utf8(s)| == |s|
    ensures forall i :: 0 <= i < |s| ==> Utf8(s)[i] == s[i] as int
    decreases |s|
  {
    if s != [] {
      Utf8Ascii(s[1..]);
      assert Utf8(s) == [s[0] as int] + Utf8(s[1..]);
    }
  }

  /* ------------------------------------------------------------ hexdigest */

  /** A lower-case hexadecimal digit. */
  predicate IsHexDigit(c: char) {
    '0' <= c <= '9' || 'a' <= c <= 'f'
  }

  /** The lower-case hexadecimal digit of a value below 16. */
  function HexDigit(k: nat): (c: char)
    requires k < 16
    ensures IsHexDigit(c)
  {
    if k < 10 then ('0' as int + k) as char else ('a' as int + k - 10) as char
  }

  /** `digest.hexdigest()`: two lower-case hexadecimal digits per byte, the
      high half first. */
  function HexDigest(b: seq<byte>): (r: string)
    ensures |r| == 2 * |b|
    ensures forall i :: 0 <= i < |r| ==> IsHexDigit(r[i])
    decreases |b|
  {
    if b == [] then ""
    else [HexDigit(b[0] / 16), HexDigit(b[0] % 16)] + HexDigest(b[1..])
  }

  /** The value of one lower-case hexadecimal digit. */
  function HexValue(c: char): (r: Option<nat>)
    ensures r.Some? ==> r.value < 16
  {
    if '0' <= c <= '9' then Some(c as int - '0' as int)
    else if 'a' <= c <= 'f' then Some(c as int - 'a' as int + 10)
    else None
  }

  /** Reading a hex digest back into bytes; `None` unless the text is pairs of
      lower-case hexadecimal digits. */
  function UnHex(s: string): Option<seq<byte>>
    decreases |s|
  {
    if |s| < 2 then (if s == [] then Some([]) else None)
    else
      var hi, lo, rest := HexValue(s[0]), HexValue(s[1]), UnHex(s[2..]);
      if hi.Some? && lo.Some? && rest.Some? then Some([16 * hi.value + lo.value] + rest.value)
      else None
  }

  /** Every digest is read back from its hex rendering. */
  lemma {:induction false} UnHexHexDigest(b: seq<byte>)
    ensures UnHex(HexDigest(b)) == Some(b)
    decreases |b|
  {
    if b != [] {
      var hi, lo := b[0] / 16, b[0] % 16;
      var t := HexDigest(b[1..]);
      assert HexDigest(b) == [HexDigit(hi), HexDigit(lo)] + t;
      UnHexHexDigest(b[1..]);
      UnHexPair(hi, lo, t);
      assert [16 * hi + lo] + b[1..] == b;
    }
  }

  /** Two digits before a text read as one byte before what the text reads
      as. */
  lemma UnHexPair(hi: nat, lo: nat, t: string)
    requires hi < 16 && lo < 16
    ensures UnHex([HexDigit(hi), HexDigit(lo)] + t)
            == if UnHex(t).Some? then Some([16 * hi + lo] + UnHex(t).value) else None
  {
    var h := [HexDigit(hi), HexDigit(lo)] + t;
    assert h[0] == HexDigit(hi) && h[1] == HexDigit(lo) && h[2..] == t;
    assert HexValue(HexDigit(hi)) == Some(hi) && HexValue(HexDigit(lo)) == Some(lo);
  }

  /** The digest is determined by its hex rendering. */
  lemma HexDigestInjective(a: seq<byte>, b: seq<byte>)
    ensures HexDigest(a) == HexDigest(b) <==> a == b
  {
    UnHexHexDigest(a);
    UnHexHexDigest(b);
  }

  /* -------------------------------------------------------------- names */

  /** `get_hashid(text)`: the SHA-1 hex digest of the UTF-8 text, encoded as
      UTF-8 again. */
  function HashId(sha1: seq<byte> -> Sha1Digest, text: string): seq<byte> {
    Utf8(HexDigest(sha1(Utf8(text))))
  }

  /** The hash key is always the 40 ASCII codes of a hex digest. */
  lemma HashIdIsHexText(sha1: seq<byte> -> Sha1Digest, text: string)
    ensures |HashId(sha1, text)| == 40
    ensures forall i :: 0 <= i < 40 ==> IsHexDigit(HashId(sha1, text)[i] as char)
  {
    var h := HexDigest(sha1(Utf8(text)));
    Utf8Ascii(h);
  }

  /** The digest the output name carries: `sha1(get_hashid(code))`. */
  function NameDigest(sha1: seq<byte> -> Sha1Digest, code: string): Sha1Digest {
    sha1(HashId(sha1, code))
  }

  /** `'%s-%s.%s' % (prefix, sha1(hashkey).hexdigest(), format)`. */
  function OutputName(sha1: seq<byte> -> Sha1Digest, prefix: string, code: string, format: string): string {
    prefix + "-" + HexDigest(NameDigest(sha1, code)) + "." + format
  }

  /** Recovering the digest from an output name of the given prefix and
      format. */
  function ParseOutputName(name: string, prefix: string, format: string): Option<seq<byte>> {
    var n := |prefix|;
    if |name| == n + 42 + |format| && name[..n] == prefix && name[n] == '-'
       && name[n + 41] == '.' && name[n + 42..] == format
    then UnHex(name[n + 1..n + 41])
    else None
  }

  /** An output name reads back as the digest of its code. */
  lemma ParseOutputNameRoundTrip(sha1: seq<byte> -> Sha1Digest, prefix: string, code: string, format: string)
    ensures ParseOutputName(OutputName(sha1, prefix, code, format), prefix, format) == Some(NameDigest(sha1, code))
  {
    var d := NameDigest(sha1, code);
    var h := HexDigest(d);
    var name := OutputName(sha1, prefix, code, format);
    var n := |prefix|;
    assert name == prefix + "-" + h + "." + format;
    assert name[..n] == prefix;
    assert name[n + 1..n + 41] == h;
    assert name[n + 42..] == format;
    UnHexHexDigest(d);
  }

  /** With the prefix and the format fixed, two codes share an output name
      exactly when their digests agree: the name is content-addressed, and only
      a SHA-1 collision can make two different codes share a file. */
  lemma OutputNameCollision(sha1: seq<byte> -> Sha1Digest, prefix: string, c1: string, c2: string, format: string)
    ensures OutputName(sha1, prefix, c1, format) == OutputName(sha1, prefix, c2, format)
            <==> NameDigest(sha1, c1) == NameDigest(sha1, c2)
  {
    ParseOutputNameRoundTrip(sha1, prefix, c1, format);
    ParseOutputNameRoundTrip(sha1, prefix, c2, format);
  }

  /* --------------------------------------------------------------- paths */

  /** `posixpath.join(a, b)`: an absolute `b` replaces `a`; otherwise `b` is
      appended, with a slash unless `a` is empty or already ends in one. */
  function PathJoin(a: string, b: string): (r: string)
    ensures |b| <= |r| && r[|r| - |b|..] == b
  {
    if b != [] && b[0] == '/' then b
    else if a == [] || a[|a| - 1] == '/' then a + b
    else a + "/" + b
  }

  /** Under one directory, relative names give equal paths only when equal. */
  lemma PathJoinInjective(a: string, b1: string, b2: string)
    requires b1 == [] || b1[0] != '/'
    requires b2 == [] || b2[0] != '/'
    ensures PathJoin(a, b1) == PathJoin(a, b2) <==> b1 == b2
  {
    if PathJoin(a, b1) == PathJoin(a, b2) {
      var p := if a == [] || a[|a| - 1] == '/' then a else a + "/";
      assert PathJoin(a, b1) == p + b1 && PathJoin(a, b2) == p + b2;
      assert b1 == (p + b1)[|p|..] && b2 == (p + b2)[|p|..];
    }
  }

  predicate IsSlash(c: char) {
    c == '/'
  }

  predicate NotSlash(c: char) {
    c != '/'
  }

  /** `posixpath.dirname(p)`: everything up to the last slash, with trailing
      slashes removed unless the head is made of slashes only. */
  function Dirname(p: string): (r: string)
    ensures |r| <= |p| && r == p[..|r|]
  {
    var head := p[..|p| - TrailLength(p, NotSlash)];
    var slashes := TrailLength(head, IsSlash);
    if slashes < |head| then head[..|head| - slashes] else head
  }

  /** The directory of a name joined under a directory is that directory
      again, when the name holds no slash and the directory does not end in
      one. */
  lemma DirnameJoin(dir: string, name: string)
    requires dir != [] && dir[|dir| - 1] != '/'
    requires '/' !in name
    ensures Dirname(PathJoin(dir, name)) == dir
  {
    var p := PathJoin(dir, name);
    assert p == dir + "/" + name;
    TrailLengthAt(p, NotSlash, |name|);
    var head := p[..|p| - |name|];
    assert head == dir + "/";
    assert head[|dir| - 1] != '/';
    TrailLengthAt(head, IsSlash, 1);
    assert head[..|dir|] == dir;
  }

  /** `relfn`: where the document links the image from. */
  function RelFn(imgpath: string, fname: string): string {
    PathJoin(imgpath, fname)
  }

  /** `outfn`: where the image file is written; `path.join(outdir, imagedir,
      fname)`. */
  function OutFn(outdir: string, imagedir: string, fname: string): string {
    PathJoin(PathJoin(outdir, imagedir), fname)
  }

  /** Two codes are written to the same output file exactly when their digests
      agree (for a prefix that does not start with a slash). */
  lemma OutFnCollision(sha1: seq<byte> -> Sha1Digest, outdir: string, imagedir: string,
                       prefix: string, c1: string, c2: string, format: string)
    requires prefix == [] || prefix[0] != '/'
    ensures OutFn(outdir, imagedir, OutputName(sha1, prefix, c1, format))
              == OutFn(outdir, imagedir, OutputName(sha1, prefix, c2, format))
            <==> NameDigest(sha1, c1) == NameDigest(sha1, c2)
  {
    var n1 := OutputName(sha1, prefix, c1, format);
    var n2 := OutputName(sha1, prefix, c2, format);
    assert n1[0] == (if prefix == [] then '-' else prefix[0]);
    assert n2[0] == (if prefix == [] then '-' else prefix[0]);
    PathJoinInjective(PathJoin(outdir, imagedir), n1, n2);
    OutputNameCollision(sha1, prefix, c1, c2, format);
  }
}
