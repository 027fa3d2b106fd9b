/** The 128-bit identifiers of catalogues and events, and their canonical text
    form: the string Python's `str(uuid)` produces and that the session cache
    uses as a dictionary key. That text is 32 lower-case hexadecimal digits of
    the 128-bit value, most significant first, split 8-4-4-4-12 by dashes. */
module Uuids {

  import opened Wrappers

  function Pow16(k: nat): (r: nat)
    ensures r > 0
  {
    if k == 0 then 1 else 16 * Pow16(k - 1)
  }

  /** Number of hexadecimal digits of a UUID. */
  const UUID_DIGITS: nat := 32

  /** A UUID is its 128-bit integer value. */
  type Uuid = n: nat | n < Pow16(UUID_DIGITS)

  /** Number of characters of a UUID key. */
  const UUID_KEY_LENGTH: nat := 36

  predicate IsHexDigit(ch: char) {
    ('0' <= ch <= '9') || ('a' <= ch <= 'f')
  }

  predicate AllHexDigits(s: string) {
    forall i :: 0 <= i < |s| ==> IsHexDigit(s[i])
  }

  /** The lower-case hexadecimal digit for `d`. */
  function HexDigit(d: nat): (ch: char)
    requires d < 16
    ensures IsHexDigit(ch)
  {
    if d < 10 then (48 + d) as char else (87 + d) as char
  }

  /** The value of a hexadecimal digit. */
  function DigitValue(ch: char): (d: nat)
    requires IsHexDigit(ch)
    ensures d < 16 && HexDigit(d) == ch
  {
    if ch <= '9' then ch as int - 48 else ch as int - 87
  }

  lemma DigitRoundTrip(d: nat)
    requires d < 16
    ensures DigitValue(HexDigit(d)) == d
  {
  }

  /** The low `k` hexadecimal digits of `n`, zero-padded, most significant
      first (Python's `'%0kx' % n` for `n < 16^k`). */
  function Hex(n: nat, k: nat): (s: string)
    ensures |s| == k && AllHexDigits(s)
  {
    if k == 0 then "" else Hex(n / 16, k - 1) + [HexDigit(n % 16)]
  }

  /** The number whose hexadecimal digits are `s`, most significant first. */
  function ParseHex(s: string): (n: nat)
    requires AllHexDigits(s)
    ensures n < Pow16(|s|)
  {
    if s == [] then 0
    else
      var init := s[..|s| - 1];
      assert AllHexDigits(init) by {
        forall i | 0 <= i < |init| ensures IsHexDigit(init[i]) {
          assert init[i] == s[i];
        }
      }
      var high := ParseHex(init);
      var d := DigitValue(s[|s| - 1]);
      assert high * 16 + d < Pow16(|s|) by {
        assert high <= Pow16(|s| - 1) - 1;
        assert high * 16 <= Pow16(|s|) - 16;
      }
      high * 16 + d
  }

  /** Parsing undoes printing: `k` digits represent every `n < 16^k`. */
  lemma {:induction false} HexRoundTrip(n: nat, k: nat)
    requires n < Pow16(k)
    ensures ParseHex(Hex(n, k)) == n
  {
    if k > 0 {
      var h := Hex(n, k);
      var high := Hex(n / 16, k - 1);
      assert h == high + [HexDigit(n % 16)];
      assert h[..|h| - 1] == high;
      assert n / 16 < Pow16(k - 1);
      HexRoundTrip(n / 16, k - 1);
      DigitRoundTrip(n % 16);
    }
  }

  /** `str(uuid)`: the canonical text of a UUID, used as a cache key. */
  function UuidKey(u: Uuid): (s: string)
    ensures |s| == UUID_KEY_LENGTH
  {
    var h := Hex(u, UUID_DIGITS);
    h[..8] + "-" + h[8..12] + "-" + h[12..16] + "-" + h[16..20] + "-" + h[20..]
  }

  /** The key has dashes at positions 8, 13, 18 and 23, and without them is
      the 32 hexadecimal digits of the value. */
  lemma UuidKeyShape(u: Uuid)
    ensures var s := UuidKey(u);
      s[8] == '-' && s[13] == '-' && s[18] == '-' && s[23] == '-' && Undash(s) == Hex(u, UUID_DIGITS)
  {
    var h, s := Hex(u, UUID_DIGITS), UuidKey(u);
    assert s[..8] == h[..8];
    assert s[9..13] == h[8..12];
    assert s[14..18] == h[12..16];
    assert s[19..23] == h[16..20];
    assert s[24..] == h[20..];
    assert h == h[..8] + h[8..12] + h[12..16] + h[16..20] + h[20..];
  }

  /** The 32 digits of a key-shaped string, with its four dashes removed. */
  function Undash(s: string): (h: string)
    requires |s| == UUID_KEY_LENGTH
    ensures |h| == UUID_DIGITS
  {
    s[..8] + s[9..13] + s[14..18] + s[19..23] + s[24..]
  }

  /** Reads a key in the canonical lower-case form back as a UUID; `None`
      for any other string. */
  function ParseUuidKey(s: string): (r: Option<Uuid>)
    ensures r.Some? ==> |s| == UUID_KEY_LENGTH
  {
    if |s| == UUID_KEY_LENGTH && s[8] == '-' && s[13] == '-' && s[18] == '-' && s[23] == '-'
       && AllHexDigits(Undash(s))
    then Some(ParseHex(Undash(s)))
    else None
  }

  /** The key of a UUID reads back as that UUID. */
  lemma UuidKeyRoundTrip(u: Uuid)
    ensures ParseUuidKey(UuidKey(u)) == Some(u)
  {
    UuidKeyShape(u);
    HexRoundTrip(u, UUID_DIGITS);
  }

  /** Distinct UUIDs have distinct keys. */
  lemma UuidKeyInjective(a: Uuid, b: Uuid)
    ensures UuidKey(a) == UuidKey(b) <==> a == b
  {
    if UuidKey(a) == UuidKey(b) {
      UuidKeyRoundTrip(a);
      UuidKeyRoundTrip(b);
    }
  }

  /** A string that is not 36 characters long is no UUID's key. */
  lemma NotAKey(s: string, u: Uuid)
    requires |s| != UUID_KEY_LENGTH
    ensures UuidKey(u) != s
  {
  }
}
