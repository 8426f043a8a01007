/**
 * `Password.Hash`: a password is sent as the hexadecimal rendering of its
 * MD5 digest. MD5 over the ASCII bytes of the password is not modelled; it is
 * the parameter `md5`, any function that yields 16 bytes.
 */
module Password {
  import opened Wrappers

  newtype byte = x: int | 0 <= x < 256

  type Digest = s: seq<byte> | |s| == 16 witness [0, 0, 0, 0, 0, 0, 0, 0, 0, 0, 0, 0, 0, 0, 0, 0]

  /** One hexadecimal digit as `ToString("X2")` prints it: upper case. */
  function UpperDigit(n: int): (c: char)
    requires 0 <= n < 16
    ensures IsUpperHexChar(c)
  {
    if n < 10 then ('0' as int + n) as char else ('A' as int + n - 10) as char
  }

  /** `b.ToString("X2")` */
  function X2(b: byte): (s: string)
    ensures |s| == 2 && IsUpperHexChar(s[0]) && IsUpperHexChar(s[1])
  {
    [UpperDigit((b / 16) as int), UpperDigit((b % 16) as int)]
  }

  predicate IsUpperHexChar(c: char) {
    '0' <= c <= '9' || 'A' <= c <= 'F'
  }

  predicate IsLowerHexChar(c: char) {
    '0' <= c <= '9' || 'a' <= c <= 'f'
  }

  predicate IsLowerHex(s: string) {
    forall i :: 0 <= i < |s| ==> IsLowerHexChar(s[i])
  }

  predicate IsUpperHex(s: string) {
    forall i :: 0 <= i < |s| ==> IsUpperHexChar(s[i])
  }

  /** `ToLower` on one character; only ASCII letters change. */
  function LowerChar(c: char): char {
    if 'A' <= c <= 'Z' then (c as int + 32) as char else c
  }

  /** `string.ToLower`, on the ASCII letters that hexadecimal digits use. */
  function ToLower(s: string): (r: string)
    ensures |r| == |s|
    ensures forall i :: 0 <= i < |s| ==> r[i] == LowerChar(s[i])
  {
    seq(|s|, i requires 0 <= i < |s| => LowerChar(s[i]))
  }

  /** `string.Join("", bytes.Select(b => b.ToString("X2").ToLower()))` */
  function LowerHex(bytes: seq<byte>): (s: string)
    ensures |s| == 2 * |bytes|
    ensures IsLowerHex(s)
  {
    if bytes == [] then "" else ToLower(X2(bytes[0])) + LowerHex(bytes[1..])
  }

  /** `string.Join("", bytes.Select(b => b.ToString("X2")))` */
  function UpperHex(bytes: seq<byte>): (s: string)
    ensures |s| == 2 * |bytes|
    ensures IsUpperHex(s)
  {
    if bytes == [] then "" else X2(bytes[0]) + UpperHex(bytes[1..])
  }

  /** The value of one hexadecimal digit of either case. */
  function DigitValue(c: char): (n: int)
    ensures 0 <= n < 16
  {
    if '0' <= c <= '9' then c as int - '0' as int
    else if 'a' <= c <= 'f' then c as int - 'a' as int + 10
    else if 'A' <= c <= 'F' then c as int - 'A' as int + 10
    else 0
  }

  /** Reads a hexadecimal rendering back into bytes, two digits per byte. */
  function ParseHex(s: string): (bytes: seq<byte>)
    requires |s| % 2 == 0
    ensures |bytes| == |s| / 2
  {
    if s == [] then []
    else [(16 * DigitValue(s[0]) + DigitValue(s[1])) as byte] + ParseHex(s[2..])
  }

  /** `Password.Hash`: null or empty gives "", anything else its lower-case hex digest. */
  function Hash(md5: string -> Digest, password: Option<string>): (h: string)
    ensures IsNullOrEmpty(password) ==> h == ""
    ensures !IsNullOrEmpty(password) ==> |h| == 32 && IsLowerHex(h)
  {
    if IsNullOrEmpty(password) then "" else LowerHex(md5(password.value))
  }

  /** Lower-case hex loses nothing: it reads back to the bytes it renders. */
  lemma {:induction false} LowerHexRoundTrip(bytes: seq<byte>)
    ensures ParseHex(LowerHex(bytes)) == bytes
  {
    if bytes != [] {
      var b := bytes[0];
      var s := LowerHex(bytes);
      assert s == ToLower(X2(b)) + LowerHex(bytes[1..]);
      assert s[2..] == LowerHex(bytes[1..]);
      LowerHexRoundTrip(bytes[1..]);
      assert DigitValue(s[0]) == (b / 16) as int;
      assert DigitValue(s[1]) == (b % 16) as int;
    }
  }

  /** Upper-case hex reads back to the bytes it renders. */
  lemma {:induction false} UpperHexRoundTrip(bytes: seq<byte>)
    ensures ParseHex(UpperHex(bytes)) == bytes
  {
    if bytes != [] {
      var b := bytes[0];
      var s := UpperHex(bytes);
      assert s[2..] == UpperHex(bytes[1..]);
      UpperHexRoundTrip(bytes[1..]);
      assert DigitValue(s[0]) == (b / 16) as int;
      assert DigitValue(s[1]) == (b % 16) as int;
    }
  }

  /** A non-empty password hashes to exactly the digest, written in lower-case hex. */
  lemma HashIsDigest(md5: string -> Digest, password: string)
    requires password != ""
    ensures ParseHex(Hash(md5, Some(password))) == md5(password)
  {
    LowerHexRoundTrip(md5(password));
  }

  /**
   * A non-empty password never comes back unchanged unless it already has
   * the shape of a digest (32 lower-case hex digits), e.g. "123".
   */
  lemma HashDiffersFromPassword(md5: string -> Digest, password: string)
    requires password != ""
    requires |password| != 32 || !IsLowerHex(password)
    ensures Hash(md5, Some(password)) != password
    ensures Hash(md5, Some(password)) != ""
  {
  }

  /** The lower-case rendering is the upper-case rendering passed through `ToLower`. */
  lemma {:induction false} LowerHexIsLoweredUpperHex(bytes: seq<byte>)
    ensures LowerHex(bytes) == ToLower(UpperHex(bytes))
  {
    if bytes != [] {
      LowerHexIsLoweredUpperHex(bytes[1..]);
      var u := UpperHex(bytes);
      assert u == X2(bytes[0]) + UpperHex(bytes[1..]);
      assert ToLower(u) == ToLower(X2(bytes[0])) + ToLower(UpperHex(bytes[1..]));
    }
  }
}
