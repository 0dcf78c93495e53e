/** The human-readable order identifier: "ORD-" followed by the first
    dash-separated group of a random UUID, upper-cased. The UUID itself is a
    parameter: the random source is outside the model. */
module OrderIds {

  const Prefix: string := "ORD-"

  /** `s.split('-')[0]`: the longest dash-free prefix of `s`. */
  function BeforeFirstDash(s: string): (r: string)
    ensures r <= s
    ensures '-' !in r
    ensures |r| < |s| ==> s[|r|] == '-'
  {
    if |s| == 0 || s[0] == '-' then "" else [s[0]] + BeforeFirstDash(s[1..])
  }

  predicate IsLowerAscii(c: char) {
    'a' <= c <= 'z'
  }

  /** `toUpperCase` on one character, ASCII letters only. */
  function UpperChar(c: char): char {
    if IsLowerAscii(c) then (c as int - 32) as char else c
  }

  function ToUpper(s: string): (r: string)
    ensures |r| == |s|
    ensures forall i :: 0 <= i < |s| ==> r[i] == UpperChar(s[i])
  {
    if |s| == 0 then "" else [UpperChar(s[0])] + ToUpper(s[1..])
  }

  /** `ORD-${uuid.split('-')[0].toUpperCase()}`. */
  function FormatOrderId(uuid: string): (id: string)
    ensures |id| == |Prefix| + |BeforeFirstDash(uuid)|
    ensures id[..|Prefix|] == Prefix
    ensures forall i :: |Prefix| <= i < |id| ==> id[i] != '-' && !IsLowerAscii(id[i])
    ensures forall i :: 0 <= i < |BeforeFirstDash(uuid)| ==> id[|Prefix| + i] == UpperChar(uuid[i])
  {
    Prefix + ToUpper(BeforeFirstDash(uuid))
  }

  predicate IsHexDigit(c: char) {
    '0' <= c <= '9' || 'a' <= c <= 'f' || 'A' <= c <= 'F'
  }

  predicate IsUpperHexDigit(c: char) {
    '0' <= c <= '9' || 'A' <= c <= 'F'
  }

  /** A UUID in canonical text form begins with eight hex digits and a dash. */
  predicate HasCanonicalHead(uuid: string) {
    |uuid| > 8 && uuid[8] == '-' && forall i :: 0 <= i < 8 ==> IsHexDigit(uuid[i])
  }

  /** A canonical UUID yields a twelve-character id made of the prefix and
      its first eight characters upper-cased, all upper-case hex digits. */
  lemma {:induction false} CanonicalOrderId(uuid: string)
    requires HasCanonicalHead(uuid)
    ensures BeforeFirstDash(uuid) == uuid[..8]
    ensures |FormatOrderId(uuid)| == 12
    ensures forall i :: 0 <= i < 8 ==> FormatOrderId(uuid)[4 + i] == UpperChar(uuid[i])
    ensures forall i :: 4 <= i < 12 ==> IsUpperHexDigit(FormatOrderId(uuid)[i])
  {
    var head := BeforeFirstDash(uuid);
    assert |head| == 8;
    assert head == uuid[..8];
    var id := FormatOrderId(uuid);
    forall i | 4 <= i < 12
      ensures IsUpperHexDigit(id[i])
    {
      assert id[i] == UpperChar(head[i - 4]);
      assert head[i - 4] == uuid[i - 4];
    }
  }

  /** The head of a dash-joined string is its first part. */
  lemma HeadOfJoin(a: string, b: string)
    requires '-' !in a
    ensures BeforeFirstDash(a + "-" + b) == a
  {
    var s := a + "-" + b;
    var r := BeforeFirstDash(s);
    assert s[|a|] == '-';
    assert forall i :: 0 <= i < |a| ==> s[i] == a[i];
    assert forall i :: 0 <= i < |r| ==> r[i] == s[i];
    assert |r| == |a|;
    assert r == s[..|a|] == a;
  }

  /** The id keeps only the first group of a canonical UUID: two UUIDs
      that share it give the same id, whatever follows. */
  lemma SameHeadSameId(u1: string, u2: string)
    requires HasCanonicalHead(u1) && HasCanonicalHead(u2)
    requires u1[..8] == u2[..8]
    ensures FormatOrderId(u1) == FormatOrderId(u2)
  {
    CanonicalOrderId(u1);
    CanonicalOrderId(u2);
  }

  const SampleUuid1: string := "1a2b3c4d-0000-4000-8000-000000000000"
  const SampleUuid2: string := "1a2b3c4d-ffff-4fff-bfff-ffffffffffff"

  /** Two distinct lower-case version-4 UUIDs that give the same order id. */
  lemma DistinctUuidsMayCollide()
    ensures SampleUuid1 != SampleUuid2
    ensures FormatOrderId(SampleUuid1) == FormatOrderId(SampleUuid2)
  {
    assert SampleUuid1[9] != SampleUuid2[9];
    assert HasCanonicalHead(SampleUuid1) && HasCanonicalHead(SampleUuid2);
    assert SampleUuid1[..8] == SampleUuid2[..8];
    SameHeadSameId(SampleUuid1, SampleUuid2);
  }
}
