/**
 * Qualifiers and qualified names of environments. A qualifier is built from
 * ASCII letters, ASCII digits and the underscore; anything else, accented
 * letters and punctuation included, is rejected.
 */
module Qualifiers {

  /** A character a qualifier may contain. */
  predicate QualifierChar(c: char) {
    ('a' <= c <= 'z') || ('A' <= c <= 'Z') || ('0' <= c <= '9') || c == '_'
  }

  /** A non-empty string made only of qualifier characters. */
  predicate IsAValidQualifier(s: string) {
    |s| > 0 && forall i :: 0 <= i < |s| ==> QualifierChar(s[i])
  }

  /** The name and qualifier of an environment, which together identify it. */
  datatype QualifiedName = QualifiedName(name: string, qualifier: string)

  /** Both parts of the qualified name are valid qualifiers. */
  predicate ValidQualifiedName(q: QualifiedName) {
    IsAValidQualifier(q.name) && IsAValidQualifier(q.qualifier)
  }

  /** Checks a string character by character, as a matcher of the character
      class anchored at both ends would. */
  method MatchQualifier(s: string) returns (ok: bool)
    ensures ok <==> IsAValidQualifier(s)
  {
    if |s| == 0 {
      return false;
    }
    var i := 0;
    while i < |s|
      invariant 0 <= i <= |s|
      invariant forall j :: 0 <= j < i ==> QualifierChar(s[j])
    {
      if !QualifierChar(s[i]) {
        return false;
      }
      i := i + 1;
    }
    return true;
  }

  /** One character outside the class is enough to reject a string. */
  lemma OneBadCharRejects(s: string, i: int)
    requires 0 <= i < |s| && !QualifierChar(s[i])
    ensures !IsAValidQualifier(s)
  {
  }

  /** Valid qualifiers joined by an underscore form a valid qualifier. */
  lemma JoinedQualifiersValid(a: string, b: string)
    requires IsAValidQualifier(a) && IsAValidQualifier(b)
    ensures IsAValidQualifier(a + "_" + b)
  {
  }

  /** Letters of either case, digits and underscores are accepted in any mix. */
  lemma AcceptedQualifiers()
    ensures IsAValidQualifier("aa_bb")
    ensures IsAValidQualifier("AA_BB")
    ensures IsAValidQualifier("11_22")
    ensures IsAValidQualifier("aaAA11_aaBB11")
    ensures IsAValidQualifier("aa_BB")
    ensures IsAValidQualifier("aa_11")
    ensures IsAValidQualifier("11_bb")
    ensures IsAValidQualifier("11_BB")
  {
  }

  /** A dash is not a qualifier character. */
  lemma DashRejected()
    ensures !IsAValidQualifier("a-b")
  {
    OneBadCharRejects("a-b", 1);
  }

  /** Upper-case letters with a lower-case qualifier, and digits with digits,
      form valid qualified names. */
  lemma AcceptedQualifiedNames()
    ensures ValidQualifiedName(QualifiedName("ABCDEFGHIJKLMNOPQRSTUVWXYZ", "abcdefghijklmnopqrstuvwxyz"))
    ensures ValidQualifiedName(QualifiedName("0123456789", "0123456789"))
  {
  }

  /** A single accented letter as the name makes the qualified name invalid. */
  lemma AccentedNamesRejected()
    ensures !ValidQualifiedName(QualifiedName("\U{E0}", "0123456789"))  // a grave
    ensures !ValidQualifiedName(QualifiedName("\U{E9}", "0123456789"))  // e acute
    ensures !ValidQualifiedName(QualifiedName("\U{F9}", "0123456789"))  // u grave
    ensures !ValidQualifiedName(QualifiedName("\U{E8}", "0123456789"))  // e grave
    ensures !ValidQualifiedName(QualifiedName("\U{E7}", "0123456789"))  // c cedilla
  {
    OneBadCharRejects("\U{E0}", 0);
    OneBadCharRejects("\U{E9}", 0);
    OneBadCharRejects("\U{F9}", 0);
    OneBadCharRejects("\U{E8}", 0);
    OneBadCharRejects("\U{E7}", 0);
  }

  /** A single punctuation character as the name makes the qualified name invalid. */
  lemma PunctuationNamesRejected()
    ensures !ValidQualifiedName(QualifiedName("!", "0123456789"))
    ensures !ValidQualifiedName(QualifiedName("-", "0123456789"))
    ensures !ValidQualifiedName(QualifiedName("&", "0123456789"))
    ensures !ValidQualifiedName(QualifiedName("#", "0123456789"))
  {
    OneBadCharRejects("!", 0);
    OneBadCharRejects("-", 0);
    OneBadCharRejects("&", 0);
    OneBadCharRejects("#", 0);
  }
}
