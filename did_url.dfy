/**
 * DID URL handling: the `did:` scheme test, `url.split(/[;|\/|\?|#]/)`
 * and the identifiers the tests build (cryptonym DIDs and key ids).
 */
module DidUrl {

  /** The characters of the class `[;|\/|\?|#]`: the `|` written between the
      alternatives is itself a member of the class. */
  predicate IsDelimiter(c: char)
  {
    c == ';' || c == '|' || c == '/' || c == '?' || c == '#'
  }

  predicate NoDelimiter(s: string)
  {
    forall i :: 0 <= i < |s| ==> !IsDelimiter(s[i])
  }

  /** `s.startsWith(prefix)` */
  predicate StartsWith(s: string, prefix: string)
  {
    |prefix| <= |s| && s[..|prefix|] == prefix
  }

  /** The delimiter characters of `s`, in order. */
  function Delimiters(s: string): (d: string)
    ensures |d| <= |s|
    ensures forall i :: 0 <= i < |d| ==> IsDelimiter(d[i])
  {
    if s == [] then []
    else (if IsDelimiter(s[0]) then [s[0]] else []) + Delimiters(s[1..])
  }

  /** `s.split(splitRegex)`: the pieces between delimiters. The class matches
      one character and never the empty string, so "" splits to [""] and two
      adjacent delimiters leave an empty piece between them. */
  function Split(s: string): (parts: seq<string>)
    ensures |parts| == |Delimiters(s)| + 1
    ensures forall i :: 0 <= i < |parts| ==> NoDelimiter(parts[i])
  {
    if s == [] then [[]]
    else
      var rest := Split(s[1..]);
      if IsDelimiter(s[0]) then [[]] + rest
      else [[s[0]] + rest[0]] + rest[1..]
  }

  /** Puts the delimiters back between the pieces. */
  function Interleave(parts: seq<string>, delims: string): string
    requires |parts| == |delims| + 1
  {
    if delims == [] then parts[0]
    else parts[0] + [delims[0]] + Interleave(parts[1..], delims[1..])
  }

  /** Splitting loses nothing: the pieces with the delimiters between them
      give back the URL. */
  lemma {:induction false} SplitRoundTrip(s: string)
    ensures Interleave(Split(s), Delimiters(s)) == s
  {
    if s != [] {
      var t := s[1..];
      var p, d := Split(t), Delimiters(t);
      SplitRoundTrip(t);
      if IsDelimiter(s[0]) {
        assert Split(s) == [[]] + p;
        assert Delimiters(s) == [s[0]] + d;
        assert ([[]] + p)[1..] == p;
        assert ([s[0]] + d)[1..] == d;
        assert s == [s[0]] + t;
      } else {
        assert Split(s) == [[s[0]] + p[0]] + p[1..];
        assert Delimiters(s) == d;
        if d == [] {
          assert s == [s[0]] + t;
        } else {
          assert ([[s[0]] + p[0]] + p[1..])[1..] == p[1..];
          assert t == p[0] + [d[0]] + Interleave(p[1..], d[1..]);
          assert s == [s[0]] + t;
        }
      }
    }
  }

  /** Index of the first delimiter of `s`, or `|s|` when there is none. */
  function FirstDelimiterIndex(s: string): (i: nat)
    ensures i <= |s|
    ensures NoDelimiter(s[..i])
    ensures i < |s| ==> IsDelimiter(s[i])
  {
    if s == [] || IsDelimiter(s[0]) then 0
    else
      var j := FirstDelimiterIndex(s[1..]);
      assert s[..j + 1] == [s[0]] + s[1..][..j];
      j + 1
  }

  /** `const [did] = url.split(splitRegex)` */
  function DidOf(url: string): string
  {
    Split(url)[0]
  }

  /** The DID of a URL is its prefix up to the first `;`, `|`, `/`, `?` or
      `#`, or the whole URL when none occurs. */
  lemma {:induction false} DidIsPrefixBeforeDelimiter(url: string)
    ensures DidOf(url) == url[..FirstDelimiterIndex(url)]
  {
    if url != [] && !IsDelimiter(url[0]) {
      DidIsPrefixBeforeDelimiter(url[1..]);
      var j := FirstDelimiterIndex(url[1..]);
      assert url[..j + 1] == [url[0]] + url[1..][..j];
    }
  }

  /** The first delimiter of a delimiter-free prefix followed by a delimiter
      (or by nothing) sits right after that prefix. */
  lemma FirstDelimiterAfterPrefix(did: string, rest: string)
    requires NoDelimiter(did)
    requires rest == [] || IsDelimiter(rest[0])
    ensures FirstDelimiterIndex(did + rest) == |did|
  {
    var s := did + rest;
    assert forall k :: 0 <= k < |did| ==> s[k] == did[k];
    assert |s| > |did| ==> s[|did|] == rest[0];
  }

  /** A delimiter-free DID followed by any suffix that starts with a
      delimiter splits back to that DID. */
  lemma DidOfSuffixed(did: string, rest: string)
    requires NoDelimiter(did)
    requires rest == [] || IsDelimiter(rest[0])
    ensures DidOf(did + rest) == did
  {
    FirstDelimiterAfterPrefix(did, rest);
    DidIsPrefixBeforeDelimiter(did + rest);
    assert (did + rest)[..|did|] == did;
  }

  /** `_generateKeyId`: the DID, then `#`, then the multibase prefix `z` and
      the key fingerprint. */
  function KeyId(did: string, fingerprint: string): (id: string)
    ensures '#' in id
    ensures StartsWith(id, did)
  {
    var id := did + "#z" + fingerprint;
    assert id[|did|] == '#';
    assert id[..|did|] == did;
    id
  }

  /** A key id made from a delimiter-free DID splits back to that DID. */
  lemma KeyIdRecoversDid(did: string, fingerprint: string)
    requires NoDelimiter(did)
    ensures DidOf(KeyId(did, fingerprint)) == did
  {
    assert KeyId(did, fingerprint) == did + ("#z" + fingerprint);
    DidOfSuffixed(did, "#z" + fingerprint);
  }

  /** The base58 (Bitcoin) alphabet used for key fingerprints. */
  predicate IsBase58Char(c: char)
  {
    ('1' <= c <= '9') || ('A' <= c <= 'H') || ('J' <= c <= 'N') || ('P' <= c <= 'Z')
    || ('a' <= c <= 'k') || ('m' <= c <= 'z')
  }

  predicate IsBase58(s: string)
  {
    forall i :: 0 <= i < |s| ==> IsBase58Char(s[i])
  }

  /** The test DID `did:v1:test:nym:z<fingerprint>` of `_generateDid`. */
  function CryptonymDid(fingerprint: string): (did: string)
    ensures StartsWith(did, "did:")
    ensures IsBase58(fingerprint) ==> NoDelimiter(did)
  {
    var did := "did:v1:test:nym:z" + fingerprint;
    assert did[..4] == "did:";
    assert forall i :: 17 <= i < |did| ==> did[i] == fingerprint[i - 17];
    did
  }
}
