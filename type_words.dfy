/**
 * The case-insensitive recognition of a record's `type` column, common to
 * src/csv.rs and src/core.rs: the word is lower-cased and matched against the
 * five transaction words.
 */
module TypeWords {
  import opened Wrappers

  /** ASCII case folding of one character. */
  function AsciiLower(c: char): (d: char)
    ensures !('A' <= d <= 'Z')
  {
    if 'A' <= c <= 'Z' then (c as int + 32) as char else c
  }

  /** Lower-cases a string character by character. */
  function Lower(s: string): (r: string)
    ensures |r| == |s|
    ensures forall i :: 0 <= i < |s| ==> r[i] == AsciiLower(s[i])
  {
    if s == [] then [] else [AsciiLower(s[0])] + Lower(s[1..])
  }

  /** A string with no upper-case ASCII letter is its own lower case. */
  lemma LowerOfLowerCase(s: string)
    requires forall i :: 0 <= i < |s| ==> !('A' <= s[i] <= 'Z')
    ensures Lower(s) == s
  {
  }

  /** Lower-casing twice is lower-casing once. */
  lemma LowerIdempotent(s: string)
    ensures Lower(Lower(s)) == Lower(s)
  {
  }

  /** The five kinds of record the conversion recognises. */
  datatype Kind = DepositKind | WithdrawalKind | DisputeKind | ResolveKind | ChargeBackKind

  /** The lower-case word that names each kind. */
  function Word(k: Kind): string
  {
    match k
    case DepositKind => "deposit"
    case WithdrawalKind => "withdrawal"
    case DisputeKind => "dispute"
    case ResolveKind => "resolve"
    case ChargeBackKind => "chargeback"
  }

  /** Every kind word is already lower case. */
  lemma WordIsLower(k: Kind)
    ensures Lower(Word(k)) == Word(k)
  {
    LowerOfLowerCase(Word(k));
  }

  /**
   * The dispatch on the lower-cased type word: a kind when the word names
   * one, `None` for any other word.
   */
  function KindOf(t: string): (r: Option<Kind>)
    ensures r.Some? ==> Lower(t) == Word(r.value)
    ensures r.None? ==> forall k: Kind :: Lower(t) != Word(k)
  {
    match Lower(t)
    case "deposit" => Some(DepositKind)
    case "withdrawal" => Some(WithdrawalKind)
    case "dispute" => Some(DisputeKind)
    case "resolve" => Some(ResolveKind)
    case "chargeback" => Some(ChargeBackKind)
    case _ => None
  }

  /** A word is recognised as `k` exactly when it lower-cases to `k`'s word. */
  lemma KindOfIff(t: string, k: Kind)
    ensures KindOf(t) == Some(k) <==> Lower(t) == Word(k)
  {
  }

  /** Any two spellings with the same lower case are recognised alike. */
  lemma KindOfIgnoresCase(a: string, b: string)
    requires Lower(a) == Lower(b)
    ensures KindOf(a) == KindOf(b)
  {
  }

  /** Recognising the lower-cased word gives what recognising the word gives. */
  lemma KindOfLowered(t: string)
    ensures KindOf(Lower(t)) == KindOf(t)
  {
    LowerIdempotent(t);
  }

  /** An upper-case spelling is recognised. */
  lemma KindOfUpperCase()
    ensures KindOf("DEPOSIT") == Some(DepositKind)
  {
    assert Lower("DEPOSIT") == "deposit";
  }

  /** A mixed-case spelling is recognised. */
  lemma KindOfMixedCase()
    ensures KindOf("ChargeBack") == Some(ChargeBackKind)
  {
    assert Lower("ChargeBack") == "chargeback";
  }

  /** Surrounding blanks are not trimmed: such a word is unknown. */
  lemma KindOfDoesNotTrim()
    ensures KindOf(" deposit") == None
  {
    assert Lower(" deposit") == " deposit";
  }
}
