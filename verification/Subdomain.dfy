/** Subdomain names: the regular expressions of the parser, their meaning, and the
    language they accept together. */
module Subdomains {

  // ---------------------------------------------------------------- regular expressions

  /** A character class, as an inclusive-range list; Any is the dot (every character but newline). */
  datatype Class = Ranges(ranges: seq<(char, char)>) | Any

  predicate InClass(k: Class, c: char) {
    match k
    case Ranges(rs) => exists i :: 0 <= i < |rs| && rs[i].0 <= c <= rs[i].1
    case Any => c != '\n'
  }

  /** The fragment of the regexp syntax that the patterns use. Rest is an unanchored end. */
  datatype Regex =
    | Rep(of: Class, min: nat, max: nat)       // [..]{min,max}
    | Plus(of: Class)                          // [..]+
    | Opt(body: Regex)                         // (..)?
    | Cat(first: Regex, second: Regex)
    | Alt(words: seq<string>)                  // (a|b|..)
    | Rest

  /** Whole-string matching. */
  predicate Matches(re: Regex, s: string) {
    match re
    case Rep(k, lo, hi) => lo <= |s| <= hi && forall i :: 0 <= i < |s| ==> InClass(k, s[i])
    case Plus(k) => |s| >= 1 && forall i :: 0 <= i < |s| ==> InClass(k, s[i])
    case Opt(body) => s == "" || Matches(body, s)
    case Cat(a, b) => exists n :: 0 <= n <= |s| && Matches(a, s[..n]) && Matches(b, s[n..])
    case Alt(words) => s in words
    case Rest => true
  }

  const Alnum := Ranges([('a', 'z'), ('0', '9')])
  const AlnumHyphen := Ranges([('a', 'z'), ('0', '9'), ('-', '-')])
  const Hex := Ranges([('0', '9'), ('a', 'f')])
  const Digit := Ranges([('0', '9')])
  const Hyphen := Ranges([('-', '-')])

  /** ^[a-z0-9]([a-z0-9-]{0,61}[a-z0-9])?$ */
  const SubdomainPattern := Cat(Rep(Alnum, 1, 1), Opt(Cat(Rep(AlnumHyphen, 0, 61), Rep(Alnum, 1, 1))))

  const HexPattern := Rep(Hex, 16, 16)                                       // ^[0-9a-f]{16}$
  const ReservedLabelPattern := Cat(Rep(Any, 2, 2), Cat(Rep(Hyphen, 2, 2), Rest)) // ^..--
  const ReservedWordPattern := Alt(["www", "api", "admin", "auth"])          // ^(www|api|admin|auth)$
  const PreviewSlotPattern := Cat(Alt(["s"]), Plus(Digit))                   // ^s[0-9]+$

  const RejectedPatterns := [HexPattern, ReservedLabelPattern, ReservedWordPattern, PreviewSlotPattern]

  // ---------------------------------------------------------------- the accepted language

  predicate IsAlnum(c: char) { 'a' <= c <= 'z' || '0' <= c <= '9' }
  predicate IsHex(c: char) { '0' <= c <= '9' || 'a' <= c <= 'f' }
  predicate IsDigit(c: char) { '0' <= c <= '9' }

  /** An LDH label in the sense of section 2.3.1 of RFC 5890, in lower case: letters, digits and
      hyphens, at most 63 of them, neither the first nor the last a hyphen. */
  predicate LdhLabel(s: string) {
    1 <= |s| <= 63 &&
    (forall i :: 0 <= i < |s| ==> IsAlnum(s[i]) || s[i] == '-') &&
    s[0] != '-' && s[|s| - 1] != '-'
  }

  /** A reserved LDH label: hyphens in the third and fourth positions. */
  predicate ReservedLdh(s: string) { |s| >= 4 && s[2] == '-' && s[3] == '-' }

  predicate PublicIdShaped(s: string) { |s| == 16 && forall i :: 0 <= i < |s| ==> IsHex(s[i]) }

  predicate PreviewSlot(s: string) {
    |s| >= 2 && s[0] == 's' && forall i :: 1 <= i < |s| ==> IsDigit(s[i])
  }

  predicate ReservedWord(s: string) { s == "www" || s == "api" || s == "admin" || s == "auth" }

  predicate ValidSubdomain(s: string) {
    LdhLabel(s) && !ReservedLdh(s) && !PublicIdShaped(s) && !ReservedWord(s) && !PreviewSlot(s)
  }

  // ---------------------------------------------------------------- each pattern's language

  lemma ClassMeaning(c: char)
    ensures InClass(Alnum, c) <==> IsAlnum(c)
    ensures InClass(AlnumHyphen, c) <==> IsAlnum(c) || c == '-'
    ensures InClass(Hex, c) <==> IsHex(c)
    ensures InClass(Digit, c) <==> IsDigit(c)
    ensures InClass(Hyphen, c) <==> c == '-'
  {
    assert Alnum.ranges[0] == ('a', 'z') && Alnum.ranges[1] == ('0', '9');
    assert AlnumHyphen.ranges[0] == ('a', 'z') && AlnumHyphen.ranges[1] == ('0', '9') && AlnumHyphen.ranges[2] == ('-', '-');
    assert Hex.ranges[0] == ('0', '9') && Hex.ranges[1] == ('a', 'f');
    assert Digit.ranges[0] == ('0', '9');
    assert Hyphen.ranges[0] == ('-', '-');
  }

  lemma CatIntro(a: Regex, b: Regex, s: string, n: nat)
    requires n <= |s| && Matches(a, s[..n]) && Matches(b, s[n..])
    ensures Matches(Cat(a, b), s)
  {
  }

  /** [a-z0-9-]{0,61}[a-z0-9] */
  lemma TailMeaning(s: string)
    ensures Matches(Cat(Rep(AlnumHyphen, 0, 61), Rep(Alnum, 1, 1)), s) <==>
            1 <= |s| <= 62 && IsAlnum(s[|s| - 1]) && forall i :: 0 <= i < |s| - 1 ==> IsAlnum(s[i]) || s[i] == '-'
  {
    forall c ensures InClass(Alnum, c) <==> IsAlnum(c) ensures InClass(AlnumHyphen, c) <==> IsAlnum(c) || c == '-' {
      ClassMeaning(c);
    }
    var inner, last := Rep(AlnumHyphen, 0, 61), Rep(Alnum, 1, 1);
    if Matches(Cat(inner, last), s) {
      var m :| 0 <= m <= |s| && Matches(inner, s[..m]) && Matches(last, s[m..]);
      assert m == |s| - 1 && s[m..][0] == s[m];
      forall i | 0 <= i < m ensures IsAlnum(s[i]) || s[i] == '-' { assert s[..m][i] == s[i]; }
    }
    if 1 <= |s| <= 62 && IsAlnum(s[|s| - 1]) && forall i :: 0 <= i < |s| - 1 ==> IsAlnum(s[i]) || s[i] == '-' {
      CatIntro(inner, last, s, |s| - 1);
    }
  }

  lemma SubdomainPatternMeaning(s: string)
    ensures Matches(SubdomainPattern, s) <==> LdhLabel(s)
  {
    var head, tail := Rep(Alnum, 1, 1), Cat(Rep(AlnumHyphen, 0, 61), Rep(Alnum, 1, 1));
    assert SubdomainPattern == Cat(head, Opt(tail));
    if s == "" {
      assert s[..0] == "";
    } else {
      ClassMeaning(s[0]);
      var rest := s[1..];
      TailMeaning(rest);
      if Matches(SubdomainPattern, s) {
        var n :| 0 <= n <= |s| && Matches(head, s[..n]) && Matches(Opt(tail), s[n..]);
        assert n == 1 && s[..1][0] == s[0];
        assert forall i :: 1 <= i < |s| ==> s[i] == rest[i - 1];
      }
      if LdhLabel(s) {
        assert Matches(head, s[..1]);
        CatIntro(head, Opt(tail), s, 1);
      }
    }
  }

  lemma HexPatternMeaning(s: string)
    ensures Matches(HexPattern, s) <==> PublicIdShaped(s)
  {
    forall c ensures InClass(Hex, c) <==> IsHex(c) { ClassMeaning(c); }
  }

  /** ..-- */
  lemma ReservedLabelOnly(s: string)
    requires Matches(ReservedLabelPattern, s)
    ensures ReservedLdh(s)
  {
    forall c ensures InClass(Hyphen, c) <==> c == '-' { ClassMeaning(c); }
    var dots, hyphens := Rep(Any, 2, 2), Rep(Hyphen, 2, 2);
    var tail := Cat(hyphens, Rest);
    assert ReservedLabelPattern == Cat(dots, tail);
    var n :| 0 <= n <= |s| && Matches(dots, s[..n]) && Matches(tail, s[n..]);
    var rest := s[n..];
    var m :| 0 <= m <= |rest| && Matches(hyphens, rest[..m]) && Matches(Rest, rest[m..]);
    assert rest[..m][0] == s[2] && rest[..m][1] == s[3];
  }

  lemma ReservedLabelPatternMeaning(s: string)
    requires LdhLabel(s)
    ensures Matches(ReservedLabelPattern, s) <==> ReservedLdh(s)
  {
    if Matches(ReservedLabelPattern, s) { ReservedLabelOnly(s); }
    if ReservedLdh(s) {
      forall c ensures InClass(Hyphen, c) <==> c == '-' { ClassMeaning(c); }
      var dots, hyphens := Rep(Any, 2, 2), Rep(Hyphen, 2, 2);
      var rest := s[2..];
      assert ReservedLabelPattern == Cat(dots, Cat(hyphens, Rest));
      assert Matches(hyphens, rest[..2]);
      CatIntro(hyphens, Rest, rest, 2);
      forall i | 0 <= i < 2 ensures InClass(Any, s[..2][i]) { assert IsAlnum(s[i]) || s[i] == '-'; }
      CatIntro(dots, Cat(hyphens, Rest), s, 2);
    }
  }

  lemma PreviewSlotPatternMeaning(s: string)
    ensures Matches(PreviewSlotPattern, s) <==> PreviewSlot(s)
  {
    forall c ensures InClass(Digit, c) <==> IsDigit(c) { ClassMeaning(c); }
    var a, b := Alt(["s"]), Plus(Digit);
    assert PreviewSlotPattern == Cat(a, b);
    if Matches(PreviewSlotPattern, s) {
      var n :| 0 <= n <= |s| && Matches(a, s[..n]) && Matches(b, s[n..]);
      assert s[..n] == "s" && s[..n][0] == 's';
      forall i | 1 <= i < |s| ensures IsDigit(s[i]) { assert s[n..][i - 1] == s[i]; }
    }
    if PreviewSlot(s) {
      assert s[..1] == "s";
      CatIntro(a, b, s, 1);
    }
  }

  lemma RejectedMeaning(s: string)
    requires LdhLabel(s)
    ensures (exists i :: 0 <= i < |RejectedPatterns| && Matches(RejectedPatterns[i], s)) <==>
            PublicIdShaped(s) || ReservedLdh(s) || ReservedWord(s) || PreviewSlot(s)
  {
    HexPatternMeaning(s);
    ReservedLabelPatternMeaning(s);
    PreviewSlotPatternMeaning(s);
    assert Matches(ReservedWordPattern, s) <==> ReservedWord(s) by {
      var words := ReservedWordPattern.words;
      assert words[0] == "www" && words[1] == "api" && words[2] == "admin" && words[3] == "auth";
    }
    assert RejectedPatterns[0] == HexPattern && RejectedPatterns[1] == ReservedLabelPattern;
    assert RejectedPatterns[2] == ReservedWordPattern && RejectedPatterns[3] == PreviewSlotPattern;
  }

  // ---------------------------------------------------------------- the parser

  datatype Parsed = Accepted(value: string) | Invalid

  /** ParseSubdomain: match the label pattern, then refuse on the first rejecting pattern. The
      match verdicts come from the regexp engine, whose meaning Matches gives. */
  method ParseSubdomain(s: string) returns (r: Parsed)
    ensures r == if ValidSubdomain(s) then Accepted(s) else Invalid
  {
    SubdomainPatternMeaning(s);
    if !Matches(SubdomainPattern, s) {
      return Invalid;
    }
    RejectedMeaning(s);
    for k := 0 to |RejectedPatterns|
      invariant forall i :: 0 <= i < k ==> !Matches(RejectedPatterns[i], s)
    {
      if Matches(RejectedPatterns[k], s) {
        return Invalid;
      }
    }
    return Accepted(s);
  }

  // ---------------------------------------------------------------- public IDs

  const HexDigits := "0123456789abcdef"

  /** hex.EncodeToString: two digits a byte, high nibble first. */
  function HexEncode(bytes: seq<nat>): (r: string)
    requires forall i :: 0 <= i < |bytes| ==> bytes[i] < 256
    ensures |r| == 2 * |bytes|
    ensures forall i :: 0 <= i < |r| ==> IsHex(r[i])
  {
    if bytes == [] then ""
    else [HexDigits[bytes[0] / 16], HexDigits[bytes[0] % 16]] + HexEncode(bytes[1..])
  }

  function HexValue(c: char): nat
    requires IsHex(c)
  {
    if c <= '9' then c as nat - '0' as nat else c as nat - 'a' as nat + 10
  }

  /** hex.DecodeString on encoded text. */
  function HexDecode(s: string): seq<nat>
    requires |s| % 2 == 0 && forall i :: 0 <= i < |s| ==> IsHex(s[i])
  {
    if s == "" then [] else [HexValue(s[0]) * 16 + HexValue(s[1])] + HexDecode(s[2..])
  }

  /** Distinct bytes have distinct public IDs. */
  lemma {:induction false} HexRoundTrip(bytes: seq<nat>)
    requires forall i :: 0 <= i < |bytes| ==> bytes[i] < 256
    ensures HexDecode(HexEncode(bytes)) == bytes
  {
    if bytes != [] {
      var s := HexEncode(bytes);
      HexRoundTrip(bytes[1..]);
      assert s[2..] == HexEncode(bytes[1..]);
      DigitValue(bytes[0] / 16);
      DigitValue(bytes[0] % 16);
    }
  }

  lemma DigitValue(n: nat)
    requires n < 16
    ensures IsHex(HexDigits[n]) && HexValue(HexDigits[n]) == n
  {
    assert HexDigits[0] == '0' && HexDigits[1] == '1' && HexDigits[2] == '2' && HexDigits[3] == '3' && HexDigits[4] == '4' &&
           HexDigits[5] == '5' && HexDigits[6] == '6' && HexDigits[7] == '7' && HexDigits[8] == '8' && HexDigits[9] == '9' &&
           HexDigits[10] == 'a' && HexDigits[11] == 'b' && HexDigits[12] == 'c' && HexDigits[13] == 'd' && HexDigits[14] == 'e' &&
           HexDigits[15] == 'f';
  }

  /** No subdomain can be mistaken for a public ID: NewPublicID encodes eight random bytes. */
  lemma PublicIdsAreNotSubdomains(bytes: seq<nat>)
    requires |bytes| == 8 && forall i :: 0 <= i < |bytes| ==> bytes[i] < 256
    ensures !ValidSubdomain(HexEncode(bytes))
  {
    assert PublicIdShaped(HexEncode(bytes));
  }
}
