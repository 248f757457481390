/**
  The password hashing helpers `createHash` and `compareHash`, kept abstract.
  Both work on strings, as in the source: a digest is itself a string, so a
  digest can be hashed again, and any string can be offered as a password.
  A digest is the injective image of its input, marked by a fixed header;
  salting and the cost factor of the real primitive are not modelled.
 */
module PasswordHash {

  /** The header every digest starts with (the algorithm tag of a real digest). */
  const DigestHeader: string := "$2b$"

  /** A string has the shape of a digest. */
  predicate IsDigest(s: string) {
    DigestHeader <= s
  }

  /** `createHash`: the digest of a string. It never equals its input. */
  function Hash(p: string): (h: string)
    ensures IsDigest(h)
    ensures h != p
  {
    DigestHeader + p
  }

  /** `compareHash(plaintext, stored)`: does `stored` hold the digest of `plain`? */
  function CompareHash(plain: string, stored: string): (ok: bool)
    ensures ok ==> IsDigest(stored)
    ensures ok ==> stored != plain
  {
    stored == Hash(plain)
  }

  /** Distinct strings have distinct digests. */
  lemma HashInjective(p: string, q: string)
    ensures Hash(p) == Hash(q) <==> p == q
  {
    if Hash(p) == Hash(q) {
      assert p == Hash(p)[|DigestHeader|..];
    }
  }

  /**
    A digest verifies against the string it was made from, and against no
    other string.
   */
  lemma CompareHashRoundTrip(p: string, q: string)
    ensures CompareHash(p, Hash(p))
    ensures CompareHash(q, Hash(p)) <==> q == p
  {
    HashInjective(q, p);
  }

  /**
    The forms a stored password takes in this core: a digest, or the empty
    string (which `updateProfile` persists unhashed, see its model).
   */
  predicate Sealed(s: string) {
    IsDigest(s) || s == ""
  }
}
