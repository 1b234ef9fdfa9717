/** Byte strings and the Python truthiness and prefix tests the validators use. */
module Primitives {

  type Byte = b: int | 0 <= b < 256

  /** Python `bytes`. */
  type Bytes = seq<Byte>

  /** `s.startswith(prefix)` on bytes. */
  predicate StartsWith(s: Bytes, prefix: Bytes) {
    |prefix| <= |s| && s[..|prefix|] == prefix
  }

  /** `bool(n)` for a Python int. */
  predicate IntTruthy(n: int) {
    n != 0
  }

  /** `bool(b)` for Python bytes: only the empty string is false. */
  predicate BytesTruthy(b: Bytes) {
    |b| > 0
  }

  /** `any(xs)` over a list of byte strings. */
  predicate AnyTruthy(xs: seq<Bytes>) {
    exists i :: 0 <= i < |xs| && BytesTruthy(xs[i])
  }

  predicate IsLatin1(s: string) {
    forall i :: 0 <= i < |s| ==> s[i] as int < 256
  }

  /** The byte string with the same code points as a text string (`b"buy"` for `"buy"`). */
  function Latin1(s: string): Bytes
    requires IsLatin1(s)
  {
    seq(|s|, i requires 0 <= i < |s| => s[i] as int)
  }

  /** Distinct text tags give distinct byte tags. */
  lemma Latin1Injective(s: string, t: string)
    requires IsLatin1(s) && IsLatin1(t)
    ensures Latin1(s) == Latin1(t) <==> s == t
  {
    if Latin1(s) == Latin1(t) {
      assert |s| == |t|;
      forall i | 0 <= i < |s| ensures s[i] == t[i] {
        assert Latin1(s)[i] == Latin1(t)[i];
      }
    }
  }
}
