/** The credential primitives the library borrows from PHP: `password_hash`
    with PASSWORD_BCRYPT, `password_verify`, and `bin2hex(random_bytes(n))`.
    The hash is abstract: it remembers the secret and the random salt it was
    drawn with, and verification compares secrets. Random bytes are supplied
    by the caller. */
module Vault {

  import opened Wrappers

  type Byte = b: int | 0 <= b < 256

  /** `random_bytes(64)` in SessionManager::login and User::generateNewApiKey. */
  const TokenBytes := 64

  /** `random_bytes(20)` in User::resetPassword. */
  const PasswordBytes := 20

  /** A salted one-way hash; two hashes of one secret differ in their salt. */
  datatype Hash = Hashed(secret: string, salt: seq<Byte>)

  /** `password_hash(secret, PASSWORD_BCRYPT)`, with the salt it draws. */
  function PasswordHash(secret: string, salt: seq<Byte>): (h: Hash)
    ensures Matches(secret, h)
    ensures forall other :: Matches(other, h) ==> other == secret
  {
    Hashed(secret, salt)
  }

  /** `password_verify(secret, h)` on a NOT NULL column. */
  predicate Matches(secret: string, h: Hash)
  {
    h.secret == secret
  }

  /** `password_verify(secret, column)` on a nullable column: NULL never
      verifies; a stored hash verifies iff it is a hash of `secret`. */
  function Verify(secret: string, column: Option<Hash>): (verified: bool)
    ensures column.None? ==> !verified
    ensures verified <==> exists salt :: column == Some(Hashed(secret, salt))
  {
    column.Some? && Matches(secret, column.value)
  }

  /** Fresh salts give distinct hashes of the same secret, and each of them
      still verifies that secret. */
  lemma HashesAreSalted(secret: string, salt1: seq<Byte>, salt2: seq<Byte>)
    requires salt1 != salt2
    ensures PasswordHash(secret, salt1) != PasswordHash(secret, salt2)
    ensures Matches(secret, PasswordHash(secret, salt1)) && Matches(secret, PasswordHash(secret, salt2))
  {
  }

  /** A hash verifies its own secret and no other one; a NULL column verifies nothing. */
  lemma VerifyExactlyTheSecret(secret: string, other: string, salt: seq<Byte>)
    ensures Verify(other, Some(PasswordHash(secret, salt))) <==> other == secret
    ensures !Verify(other, None)
  {
  }

  // ---------------------------------------------------------------------
  // bin2hex: lower-case hexadecimal, two digits per byte, high nibble first

  predicate IsHexDigit(c: char)
  {
    '0' <= c <= '9' || 'a' <= c <= 'f'
  }

  function HexDigit(d: nat): (c: char)
    requires d < 16
    ensures IsHexDigit(c)
  {
    if d < 10 then ('0' as int + d) as char else ('a' as int + d - 10) as char
  }

  /** The nibble a hex digit stands for: the inverse of HexDigit. */
  function DigitValue(c: char): (d: nat)
    requires IsHexDigit(c)
    ensures d < 16 && HexDigit(d) == c
  {
    if c <= '9' then c as int - '0' as int else c as int - 'a' as int + 10
  }

  lemma DigitValueOfHexDigit(d: nat)
    requires d < 16
    ensures DigitValue(HexDigit(d)) == d
  {
  }

  /** `bin2hex(bytes)`: twice as many characters as bytes, all hex digits. */
  function Hex(bytes: seq<Byte>): (s: string)
    ensures |s| == 2 * |bytes|
    ensures forall i :: 0 <= i < |s| ==> IsHexDigit(s[i])
  {
    if bytes == [] then ""
    else [HexDigit(bytes[0] / 16), HexDigit(bytes[0] % 16)] + Hex(bytes[1..])
  }

  /** The inverse of Hex that the proofs below use: the bytes a lower-case
      hex string spells, or None when it is not one. */
  function Unhex(s: string): (bytes: Option<seq<Byte>>)
    ensures bytes.Some? ==> |s| == 2 * |bytes.value|
    decreases |s|
  {
    if s == [] then Some([])
    else if |s| == 1 || !IsHexDigit(s[0]) || !IsHexDigit(s[1]) then None
    else match Unhex(s[2..])
      case None => None
      case Some(rest) => Some([DigitValue(s[0]) * 16 + DigitValue(s[1])] + rest)
  }

  /** bin2hex loses nothing: the token spells out exactly the random bytes. */
  lemma {:induction false} UnhexHex(bytes: seq<Byte>)
    ensures Unhex(Hex(bytes)) == Some(bytes)
  {
    if bytes != [] {
      var b := bytes[0];
      var s := Hex(bytes);
      assert s[2..] == Hex(bytes[1..]);
      DigitValueOfHexDigit(b / 16);
      DigitValueOfHexDigit(b % 16);
      assert DigitValue(s[0]) * 16 + DigitValue(s[1]) == b;
      UnhexHex(bytes[1..]);
      assert [b] + bytes[1..] == bytes;
    }
  }

  /** Distinct random bytes give distinct tokens, and equal ones equal tokens. */
  lemma HexInjective(a: seq<Byte>, b: seq<Byte>)
    ensures Hex(a) == Hex(b) <==> a == b
  {
    UnhexHex(a);
    UnhexHex(b);
  }
}
