/** The TypeScript client and the Rust services hash and sign the same bytes. */
module SameBytes {
  import opened Basics
  import opened Unicode
  import opened Json
  import opened Jcs
  import opened JcsWriters
  import opened RequestSize
  import opened RequestDigests
  import opened Digest

  lemma UnitsOfEncode(c: Code, rest: Text)
    requires !Surrogate(c)
    ensures Lead(UnitsOf(c) + rest) == |UnitsOf(c)| && First(UnitsOf(c) + rest) == Utf8Of(c)
  {
    var s := UnitsOf(c) + rest;
    if c >= 0x10000 {
      var n := c - 0x10000;
      assert n == n / 1024 * 1024 + n % 1024 && n / 1024 < 1024;
      assert s[0] == 0xD800 + n / 1024 && s[1] == 0xDC00 + n % 1024;
    } else {
      assert s[0] == c;
    }
  }

  /** A Rust string's UTF-8 is what `TextEncoder` makes of its JavaScript form. */
  lemma {:induction false} TextEncodeOfUtf16(s: Text)
    requires Scalars(s)
    ensures TextEncode(Utf16(s)) == Utf8(s)
  {
    if s != [] {
      UnitsOfEncode(s[0], Utf16(s[1..]));
      TextEncodeOfUtf16(s[1..]);
      assert Utf16(s)[|UnitsOf(s[0])|..] == Utf16(s[1..]);
    }
  }

  /** Both languages canonicalize one value to the same bytes, whatever its member order in either. */
  lemma CanonicalBytesAgree(v: Json)
    requires RustValue(v)
    ensures TextEncode(Canonical(InUtf16(v))) == Utf8(Canonical(v))
  {
    CanonRust(v);
    PrintScalars(Canon(v));
    PrintersAgree(v);
    TextEncodeOfUtf16(Canonical(v));
  }

  /** So their domain-separated digests of it are one digest. */
  lemma DigestsAgree(hash: Bytes -> Bytes, domain: string, v: Json)
    requires Plain(domain) && RustValue(v)
    ensures DomainSeparatedHash(hash, domain, TextEncode(Canonical(InUtf16(v))))
         == DomainSeparatedHash(hash, domain, Utf8(Canonical(v)))
  {
    CanonicalBytesAgree(v);
  }
}
