/** Recognising an armored OpenPGP message in a chat message, by the armor header line of
    section 6.2 of RFC 4880. */
module Armor {

  const MessageHeader := "-----BEGIN PGP MESSAGE-----"

  /** `pat` occurs in `s` starting at index `i`. */
  predicate OccursAt(s: string, pat: string, i: int)
  {
    0 <= i && i + |pat| <= |s| && s[i..i + |pat|] == pat
  }

  /** Occurrences in `s[1..]` are the occurrences in `s` shifted by one. */
  lemma OccursShift(s: string, pat: string)
    requires |s| > 0
    ensures forall j :: OccursAt(s[1..], pat, j) ==> OccursAt(s, pat, j + 1)
    ensures forall i :: OccursAt(s, pat, i) && i > 0 ==> OccursAt(s[1..], pat, i - 1)
  {
    forall j | OccursAt(s[1..], pat, j)
      ensures OccursAt(s, pat, j + 1)
    {
      assert s[1..][j..j + |pat|] == s[j + 1..j + 1 + |pat|];
    }
    forall i | OccursAt(s, pat, i) && i > 0
      ensures OccursAt(s[1..], pat, i - 1)
    {
      assert s[1..][i - 1..i - 1 + |pat|] == s[i..i + |pat|];
    }
  }

  /** JavaScript's `s.includes(pat)`. */
  function Includes(s: string, pat: string): (r: bool)
    ensures r <==> exists i :: OccursAt(s, pat, i)
    decreases |s|
  {
    if |s| < |pat| then false
    else if s[..|pat|] == pat then assert OccursAt(s, pat, 0); true
    else OccursShift(s, pat); Includes(s[1..], pat)
  }

  /** The context menu offers "Decrypt PGP Message" exactly for content holding the header. */
  function OffersDecrypt(content: string): (r: bool)
    ensures r <==> exists i :: OccursAt(content, MessageHeader, i)
  {
    Includes(content, MessageHeader)
  }

  /** Content holding an armored message anywhere is offered for decryption. */
  lemma ArmoredContentIsOffered(before: string, after: string)
    ensures OffersDecrypt(before + MessageHeader + after)
  {
    var s := before + MessageHeader + after;
    assert s[|before|..|before| + |MessageHeader|] == MessageHeader;
    assert OccursAt(s, MessageHeader, |before|);
  }

  /** Content shorter than the header line is never offered. */
  lemma ShortContentIsNotOffered(content: string)
    requires |content| < |MessageHeader|
    ensures !OffersDecrypt(content)
  {
  }
}
