/** The password hash the store relies on (bcryptjs `genSalt`, `hash` and
    `compare`), reduced to what the portal needs: a salt that records its cost,
    a digest that embeds its salt, and a comparison that rehashes the candidate
    under that salt. The checksum below is a concrete stand-in for the
    adaptive hash; the one law the portal uses is `CompareHash`. */
module Bcrypt {

  /** A salt as `genSalt(rounds)` produces it; `nonce` is the random part. */
  datatype Salt = Salt(rounds: nat, nonce: seq<bv8>)

  /** A hash as `hash(password, salt)` produces it: the salt travels with it. */
  datatype Digest = Digest(salt: Salt, checksum: seq<int>)

  /** `genSalt(rounds)`, with the random bytes supplied by the caller. */
  function GenSalt(rounds: nat, nonce: seq<bv8>): Salt
  {
    Salt(rounds, nonce)
  }

  /** Mixes one character with the salt and its position from the end; every
      value lies above the largest character code. */
  function Mix(c: char, salt: Salt, n: nat): int
  {
    c as int + 0x11_0000 * (1 + salt.rounds + |salt.nonce| + n)
  }

  function Checksum(p: string, salt: Salt): seq<int>
  {
    if p == [] then [] else [Mix(p[0], salt, |p|)] + Checksum(p[1..], salt)
  }

  function Hash(password: string, salt: Salt): (d: Digest)
    ensures d.salt == salt
  {
    Digest(salt, Checksum(password, salt))
  }

  /** `compare(candidate, hash)`: rehash the candidate with the salt read back
      from the hash and compare digests. */
  predicate Compare(candidate: string, hash: Digest)
  {
    Hash(candidate, hash.salt) == hash
  }

  /** Under one salt, different passwords have different checksums. */
  lemma {:induction false} ChecksumInjective(p: string, q: string, salt: Salt)
    requires Checksum(p, salt) == Checksum(q, salt)
    ensures p == q
  {
    ChecksumLength(p, salt);
    ChecksumLength(q, salt);
    if p != [] {
      var cp, cq := Checksum(p, salt), Checksum(q, salt);
      assert cp[0] == Mix(p[0], salt, |p|) && cq[0] == Mix(q[0], salt, |q|);
      assert cp[1..] == Checksum(p[1..], salt) && cq[1..] == Checksum(q[1..], salt);
      ChecksumInjective(p[1..], q[1..], salt);
      assert p == [p[0]] + p[1..] && q == [q[0]] + q[1..];
    }
  }

  lemma {:induction false} ChecksumLength(p: string, salt: Salt)
    ensures |Checksum(p, salt)| == |p|
  {
    if p != [] {
      ChecksumLength(p[1..], salt);
    }
  }

  /** A candidate matches a stored hash exactly when it is the password that
      was hashed. */
  lemma CompareHash(candidate: string, password: string, salt: Salt)
    ensures Compare(candidate, Hash(password, salt)) <==> candidate == password
  {
    if Compare(candidate, Hash(password, salt)) {
      ChecksumInjective(candidate, password, salt);
    }
  }
}
