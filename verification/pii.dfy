/** Pseudonymisation helpers: unsalted text hashing, case-insensitive username hashing,
    e-mail masking and the analytical summary that replaces a bio. */
module Pii {
  import opened Results
  import opened Digests
  import opened Text
  import opened Multiplicity

  /** `hash_text`: the empty text stays empty; any other text becomes the SHA-256 hex digest
      of its UTF-8 encoding. No salt: equal texts always give equal hashes. */
  function HashText(o: Oracles, s: string): (r: string)
    ensures WellBehaved(o) ==> (r == [] <==> s == [])
    ensures WellBehaved(o) && s != [] ==> |r| == 64 && IsLowerHex(r)
  {
    if s == [] then [] else o.sha256Hex(s)
  }

  /** `hash_username`: usernames are case-folded before hashing. */
  function HashUsername(o: Oracles, s: string): (r: string)
    ensures WellBehaved(o) ==> (r == [] <==> s == [])
    ensures WellBehaved(o) && s != [] ==> |r| == 64 && IsLowerHex(r)
  {
    HashText(o, Lower(s))
  }

  /** Usernames that differ only in the case of ASCII letters hash identically. */
  lemma {:induction false} HashUsernameIgnoresCase(o: Oracles, s: string, t: string)
    requires |s| == |t|
    requires forall i :: 0 <= i < |s| ==> LowerChar(s[i]) == LowerChar(t[i])
    ensures HashUsername(o, s) == HashUsername(o, t)
  {
    assert Lower(s) == Lower(t);
  }

  lemma AliceIsAlice(o: Oracles)
    ensures HashUsername(o, "Alice") == HashUsername(o, "alice")
  {
    HashUsernameIgnoresCase(o, "Alice", "alice");
  }

  /** `s.split('@', 1)`: the part before the first '@' and everything after it. */
  function SplitAtFirstAt(s: string): Option<(string, string)> {
    if '@' in s then
      var i := FirstIndex(s, '@');
      Some((s[..i], s[i + 1..]))
    else None
  }

  /** Splitting at the first '@' loses only that '@'. */
  lemma SplitAtFirstAtJoins(s: string)
    requires '@' in s
    ensures SplitAtFirstAt(s).Some?
    ensures SplitAtFirstAt(s).value.0 + "@" + SplitAtFirstAt(s).value.1 == s
    ensures '@' !in SplitAtFirstAt(s).value.0
  {
    var i := FirstIndex(s, '@');
    assert s == s[..i] + "@" + s[i + 1..];
  }

  /** `mask_email`: text without '@' (including the empty text) is returned unchanged;
      otherwise the local part is replaced by its MD5 hex digest and the domain, which
      may itself contain '@', is kept verbatim. */
  function MaskEmail(o: Oracles, email: string): (r: string)
    ensures '@' !in email ==> r == email
    ensures '@' in email ==>
      var domain := email[FirstIndex(email, '@') + 1..];
      |r| > |domain| && r[|r| - |domain|..] == domain
  {
    match SplitAtFirstAt(email)
    case None => email
    case Some((local, domain)) => o.md5Hex(local) + "@" + domain
  }

  /** Splitting a masked address at its first '@' gives back the digest of the original
      local part and the original domain. */
  lemma {:induction false} MaskEmailKeepsDomain(o: Oracles, email: string)
    requires WellBehaved(o)
    requires '@' in email
    ensures SplitAtFirstAt(email).Some?
    ensures SplitAtFirstAt(MaskEmail(o, email))
         == Some((o.md5Hex(SplitAtFirstAt(email).value.0), SplitAtFirstAt(email).value.1))
  {
    SplitAtFirstAtJoins(email);
    var (local, domain) := SplitAtFirstAt(email).value;
    var digest := o.md5Hex(local);
    var r := digest + "@" + domain;
    assert '@' !in digest by {
      forall i | 0 <= i < |digest| ensures digest[i] != '@' {
        assert digest[i] in HexDigits;
      }
    }
    assert r[32] == '@';
    assert r[..32] == digest;
    assert '@' !in r[..32];
    FirstIndexUnique(r, '@', 32);
    assert r[33..] == domain;
  }

  /** The analytical summary that stands in for a bio. */
  datatype BioSummary = BioSummary(length: nat, wordCount: nat, hasUrl: bool, hasEmail: bool, hasHashtags: bool)

  /** `anonymize_bio`: an absent or empty bio gives the all-zero summary. */
  function AnonymizeBio(bio: Option<string>): (r: BioSummary)
    ensures bio == None || bio == Some("") ==> r == BioSummary(0, 0, false, false, false)
    ensures bio.Some? ==> r.length == |bio.value|
    ensures bio.Some? ==> r.wordCount == WordStarts(bio.value, true)
    ensures bio.Some? ==> (r.hasUrl <==> Contains(bio.value, "http") || Contains(bio.value, "www."))
    ensures bio.Some? ==> (r.hasEmail <==> '@' in bio.value && '.' in bio.value)
    ensures bio.Some? ==> (r.hasHashtags <==> '#' in bio.value)
  {
    if bio == None || bio == Some("") then BioSummary(0, 0, false, false, false)
    else
      var s := bio.value;
      var words := Words(s);
      WordCountIsWordStarts(s);
      UrlInSomeWord(s);
      BioSummary(|s|, |words|, HasUrl(words), '@' in s && '.' in s, '#' in s)
  }

  /** Some word contains "http" or "www.". */
  predicate HasUrl(words: seq<string>) {
    exists k :: 0 <= k < |words| && (Contains(words[k], "http") || Contains(words[k], "www."))
  }

  lemma UrlMarkersHaveNoSpace()
    ensures NoSpace("http") && NoSpace("www.")
  {
    forall i | 0 <= i < 4 ensures !IsSpace("http"[i]) && !IsSpace("www."[i]) {
      assert "http"[i] in {'h', 't', 'p'} && "www."[i] in {'w', '.'};
    }
  }

  /** Looking for URL markers word by word finds exactly the markers in the whole bio. */
  lemma UrlInSomeWord(s: string)
    ensures HasUrl(Words(s)) <==> Contains(s, "http") || Contains(s, "www.")
  {
    UrlMarkersHaveNoSpace();
    ContainsIffSomeWord(s, "http");
    ContainsIffSomeWord(s, "www.");
  }
}
