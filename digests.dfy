/**
  The hashing primitives of the sparkl filter and the digests built from them.

  SHA-256, RIPEMD-160 and `JSON.dump` are not modelled bit by bit: they are
  fields of a `Primitives` value, total functions whose only properties are
  the ones a lemma states as a precondition. A digest is a Ruby String, here
  a `string`; a raw SHA-256 digest is the byte string of its 32 bytes.
 */
module Digests {
  import opened Wrappers
  import opened Canonical

  datatype Primitives = Primitives(
    jsonDump: Value -> string,       // JSON.dump
    sha256Digest: string -> string,  // Digest::SHA256#digest: the raw bytes
    sha256Hex: string -> string,     // Digest::SHA256#hexdigest
    rmd160Hex: string -> string)     // Digest::RMD160#hexdigest

  /**
    What the inner SHA-256 round hands to the outer `hexdigest` round: the
    raw digest (what the filter computes) or its hex spelling (what the
    test's chain check computes).
   */
  datatype FoldKind = RawInner | HexInner

  /** hex(SHA256(inner(SHA256(prev ++ input)))): one step of every running or chain digest. */
  function Fold(p: Primitives, kind: FoldKind, prev: string, input: string): string
  {
    var inner := if kind == RawInner then p.sha256Digest(prev + input) else p.sha256Hex(prev + input);
    p.sha256Hex(inner)
  }

  /** `SparklFilter.mangle`: the JSON text of the canonical tree. */
  function MangleJson(p: Primitives, v: Value): string
  {
    p.jsonDump(Mangle(v))
  }

  /** The running digest over record bodies, folded oldest first from "". */
  function RunDigest(p: Primitives, kind: FoldKind, bodies: seq<Value>): string
    decreases |bodies|
  {
    if bodies == [] then ""
    else Fold(p, kind, RunDigest(p, kind, bodies[..|bodies| - 1]), MangleJson(p, bodies[|bodies| - 1]))
  }

  /** Two fold kinds compute the same digests under `p`. */
  ghost predicate FoldsMatch(p: Primitives, kind: FoldKind, other: FoldKind)
  {
    forall prev, input :: Fold(p, kind, prev, input) == Fold(p, other, prev, input)
  }

  /** Running digests depend on the fold only through the values it computes. */
  lemma {:induction false} RunDigestFoldsMatch(p: Primitives, kind: FoldKind, other: FoldKind, bodies: seq<Value>)
    requires FoldsMatch(p, kind, other)
    ensures RunDigest(p, kind, bodies) == RunDigest(p, other, bodies)
    decreases |bodies|
  {
    if bodies != [] {
      RunDigestFoldsMatch(p, kind, other, bodies[..|bodies| - 1]);
    }
  }

  /** If hashing the raw and the hex inner digest agree, the two fold kinds agree. */
  lemma InnerAgreementMatchesFolds(p: Primitives)
    requires forall s :: p.sha256Hex(p.sha256Digest(s)) == p.sha256Hex(p.sha256Hex(s))
    ensures FoldsMatch(p, HexInner, RawInner)
  {
    forall prev, input ensures Fold(p, HexInner, prev, input) == Fold(p, RawInner, prev, input) {
      assert p.sha256Hex(p.sha256Digest(prev + input)) == p.sha256Hex(p.sha256Hex(prev + input));
    }
  }

  // ---------------------------------------------------------------------------
  // Integer#to_s, and the anchor commitment
  // ---------------------------------------------------------------------------

  function DigitChar(d: nat): char
    requires d < 10
  {
    "0123456789"[d]
  }

  /** Decimal spelling of a natural number, most significant digit first. */
  function NatToString(n: nat): (r: string)
    ensures |r| > 0
    ensures forall i :: 0 <= i < |r| ==> '0' <= r[i] <= '9'
    decreases n
  {
    if n < 10 then [DigitChar(n)] else NatToString(n / 10) + [DigitChar(n % 10)]
  }

  /** `Integer#to_s` */
  function IntToString(n: int): string
  {
    if n < 0 then "-" + NatToString(-n) else NatToString(n)
  }

  /** `to_s` of an index slot that may hold nil (`nil.to_s` is the empty string). */
  function OptIntToString(o: Option<int>): string
  {
    match o
    case None => ""
    case Some(n) => IntToString(n)
  }

  /** Reading a decimal spelling back. */
  function ParseNat(s: string): nat
    requires forall i :: 0 <= i < |s| ==> '0' <= s[i] <= '9'
    decreases |s|
  {
    if s == [] then 0 else 10 * ParseNat(s[..|s| - 1]) + (s[|s| - 1] - '0') as nat
  }

  /** The decimal spelling of a block index reads back as that index. */
  lemma {:induction false} NatToStringRoundTrip(n: nat)
    ensures ParseNat(NatToString(n)) == n
    decreases n
  {
    if n >= 10 {
      var s := NatToString(n);
      NatToStringRoundTrip(n / 10);
      assert s[..|s| - 1] == NatToString(n / 10);
      assert "0123456789"[n % 10] - '0' == (n % 10) as char - 0 as char by {
        var d := n % 10;
        assert d == 0 || d == 1 || d == 2 || d == 3 || d == 4 || d == 5 || d == 6 || d == 7 || d == 8 || d == 9;
      }
    } else {
      assert n == 0 || n == 1 || n == 2 || n == 3 || n == 4 || n == 5 || n == 6 || n == 7 || n == 8 || n == 9;
    }
  }

  /** Distinct block indices spell differently, so they give distinct commitment keys' inputs. */
  lemma NatToStringInjective(m: nat, n: nat)
    requires NatToString(m) == NatToString(n)
    ensures m == n
  {
    NatToStringRoundTrip(m);
    NatToStringRoundTrip(n);
  }

  /**
    The data recorded on the ledger for an anchored block:
    `rmd160(first ++ index.to_s) ++ rmd160(last)`, as hex.
   */
  function AnchorPayload(p: Primitives, first: string, index: Option<int>, last: string): string
  {
    p.rmd160Hex(first + OptIntToString(index)) + p.rmd160Hex(last)
  }

  // ---------------------------------------------------------------------------
  // The JSON text of the canonical tree
  // ---------------------------------------------------------------------------

  ghost predicate InjectiveDump(p: Primitives)
  {
    forall a, b :: p.jsonDump(a) == p.jsonDump(b) ==> a == b
  }

  /** Records with the same slots in another insertion order have the same JSON text. */
  lemma MangleJsonOrderInsensitive(p: Primitives, a: seq<Entry>, b: seq<Entry>)
    requires DistinctKeys(a) && multiset(a) == multiset(b)
    ensures MangleJson(p, Hash(a)) == MangleJson(p, Hash(b))
  {
    MangleOrderInsensitive(a, b);
  }

  /**
    A slot holding nil is not the same as a missing slot: with an injective
    JSON serialiser, `{k => nil}` and `{}` have different texts.
   */
  lemma MangleJsonNilNotElided(p: Primitives, k: string)
    requires InjectiveDump(p)
    ensures MangleJson(p, Hash([Entry(k, Nil)])) != MangleJson(p, Hash([]))
  {
    assert |Mangle(Hash([Entry(k, Nil)])).items| == 1;
    assert |Mangle(Hash([])).items| == 0;
  }
}
