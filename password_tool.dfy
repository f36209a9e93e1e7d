/**
  Salted password hashing (PasswordTool): the salt is a prefix of a random
  UUID's text, the hash is the lower-case hexadecimal form of the SHA-256
  digest of password + salt, and verification recomputes and compares.
  SHA-256 over the UTF-8 bytes is a function parameter; its bytes are Java's
  signed bytes.
*/
module PasswordHashing {
  import opened Wrappers
  import opened Failures
  import opened JavaText
  import opened UuidText

  /** A Java byte. */
  newtype JByte = b: int | -128 <= b < 128

  /** The digest of a string's UTF-8 bytes. */
  type Digest = string -> seq<JByte>

  /** Formatter's %x of a negative byte adds 2^8. */
  function Unsigned(b: JByte): (u: nat)
    ensures u < 256 && u % 256 == (b as int) % 256
  {
    if b < 0 then b as int + 256 else b as int
  }

  function HexDigit(d: nat): (c: char)
    requires d < 16
    ensures IsLowerHex(c)
  {
    if d < 10 then ('0' as int + d) as char else ('a' as int + d - 10) as char
  }

  function HexValue(c: char): (d: nat)
    requires IsLowerHex(c)
    ensures d < 16
  {
    if '0' <= c <= '9' then c as int - '0' as int else c as int - 'a' as int + 10
  }

  /** String.format("%02x", b). */
  function HexByte(b: JByte): string {
    [HexDigit(Unsigned(b) / 16), HexDigit(Unsigned(b) % 16)]
  }

  /** The StringBuilder after appending every byte's two digits, in order. */
  function Hex(bytes: seq<JByte>): (s: string)
    ensures |s| == 2 * |bytes|
    ensures forall i :: 0 <= i < |s| ==> IsLowerHex(s[i])
  {
    if bytes == [] then [] else Hex(bytes[..|bytes| - 1]) + HexByte(bytes[|bytes| - 1])
  }

  /** The byte two lower-case hex digits stand for, as Java's signed byte. */
  function ByteOf(hi: char, lo: char): JByte
    requires IsLowerHex(hi) && IsLowerHex(lo)
  {
    var u := HexValue(hi) * 16 + HexValue(lo);
    if u >= 128 then (u - 256) as JByte else u as JByte
  }

  /** Reading a hex string back, two digits per byte. */
  function HexDecode(s: string): (bytes: seq<JByte>)
    requires |s| % 2 == 0
    requires forall i :: 0 <= i < |s| ==> IsLowerHex(s[i])
    ensures |bytes| == |s| / 2
  {
    if s == [] then [] else HexDecode(s[..|s| - 2]) + [ByteOf(s[|s| - 2], s[|s| - 1])]
  }

  lemma HexDigitValue(d: nat)
    requires d < 16
    ensures HexValue(HexDigit(d)) == d
  {
  }

  lemma ByteRoundTrip(b: JByte)
    ensures ByteOf(HexByte(b)[0], HexByte(b)[1]) == b
  {
    var u := Unsigned(b);
    HexDigitValue(u / 16);
    HexDigitValue(u % 16);
    assert HexValue(HexByte(b)[0]) * 16 + HexValue(HexByte(b)[1]) == u;
  }

  /** The hex loop loses nothing: decoding its output gives the digest back. */
  lemma {:induction false} HexRoundTrip(bytes: seq<JByte>)
    ensures HexDecode(Hex(bytes)) == bytes
  {
    if bytes != [] {
      var init := bytes[..|bytes| - 1];
      var s := Hex(bytes);
      assert s[..|s| - 2] == Hex(init);
      assert s[|s| - 2..] == HexByte(bytes[|bytes| - 1]);
      HexRoundTrip(init);
      ByteRoundTrip(bytes[|bytes| - 1]);
    }
  }

  /** So different digests never give the same hash text. */
  lemma HexInjective(a: seq<JByte>, b: seq<JByte>)
    requires Hex(a) == Hex(b)
    ensures a == b
  {
    HexRoundTrip(a);
    HexRoundTrip(b);
  }

  /** generateSalt(length): the first `length` characters of the UUID text;
      a length outside 0..36 is a StringIndexOutOfBoundsException. */
  function GenerateSalt(length: int, uuid: Uuid): (r: Result<string, Failure>)
    ensures r.Ok? <==> 0 <= length <= 36
    ensures r.Ok? ==> |r.value| == length && r.value <= uuid
    ensures r.Err? ==> r.error == IndexOutOfBounds
  {
    if length < 0 || length > 36 then Err(IndexOutOfBounds) else Ok(uuid[..length])
  }

  /** generateSalt(): 32 characters, including the UUID's four hyphens. */
  function GenerateDefaultSalt(uuid: Uuid): (salt: string)
    ensures |salt| == 32 && salt <= uuid
    ensures forall i :: 0 <= i < 32 ==> (salt[i] == '-' <==> i in {8, 13, 18, 23})
  {
    GenerateSalt(32, uuid).value
  }

  /** hashPassword: the digest of password + salt, each byte as two lower-case
      hex digits. A null password or salt joins in as "null". */
  method HashPassword(password: Option<string>, salt: Option<string>, sha256: Digest) returns (hash: string)
    ensures hash == Hex(sha256(Show(password) + Show(salt)))
    ensures |hash| == 2 * |sha256(Show(password) + Show(salt))|
  {
    var saltedPassword := Show(password) + Show(salt);
    var hashedBytes := sha256(saltedPassword);
    var sb := "";
    for i := 0 to |hashedBytes|
      invariant sb == Hex(hashedBytes[..i])
    {
      assert hashedBytes[..i + 1][..i] == hashedBytes[..i];
      sb := sb + HexByte(hashedBytes[i]);
    }
    assert hashedBytes[..|hashedBytes|] == hashedBytes;
    hash := sb;
  }

  /** verifyPassword: recompute with the stored salt and compare with the
      stored hash (a null stored hash never matches). */
  method VerifyPassword(rawPassword: Option<string>, storedHash: Option<string>, storedSalt: Option<string>,
                        sha256: Digest)
    returns (ok: bool)
    ensures ok <==> storedHash == Some(Hex(sha256(Show(rawPassword) + Show(storedSalt))))
  {
    var computedHash := HashPassword(rawPassword, storedSalt, sha256);
    ok := storedHash == Some(computedHash);
  }

  /** Against a hash made from `password` and `salt`, a candidate passes
      exactly when its digest with that salt equals the original's. */
  lemma VerifyMatchesDigest(password: Option<string>, candidate: Option<string>, salt: Option<string>,
                            sha256: Digest)
    ensures Hex(sha256(Show(candidate) + Show(salt))) == Hex(sha256(Show(password) + Show(salt)))
            <==> sha256(Show(candidate) + Show(salt)) == sha256(Show(password) + Show(salt))
  {
    if Hex(sha256(Show(candidate) + Show(salt))) == Hex(sha256(Show(password) + Show(salt))) {
      HexInjective(sha256(Show(candidate) + Show(salt)), sha256(Show(password) + Show(salt)));
    }
  }
}
