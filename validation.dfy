/**
 * Field validation as the `Configuration` constructor performs it on each
 * value it is given: a value of the declared type is kept, a few other
 * values are converted to it (environment variables are always text), and
 * anything else is rejected.
 */
module Validation {
  import opened Wrappers
  import opened Schema
  import Ascii

  /** Texts read as False by a `bool` field, compared without regard to letter case. */
  const FalseWords: seq<string> := ["0", "off", "f", "false", "n", "no"]

  /** Texts read as True by a `bool` field, compared without regard to letter case. */
  const TrueWords: seq<string> := ["1", "on", "t", "true", "y", "yes"]

  predicate IsWordIn(s: string, words: seq<string>)
  {
    exists i :: 0 <= i < |words| && Ascii.EqualsIgnoreCase(s, words[i])
  }

  /** Each False word differs from each True word in length or in its first character. */
  lemma FalseAndTrueWordsDiffer(i: nat, j: nat)
    requires i < |FalseWords| && j < |TrueWords|
    ensures |FalseWords[i]| != |TrueWords[j]|
         || Ascii.ToLower(FalseWords[i][0]) != Ascii.ToLower(TrueWords[j][0])
  {
  }

  /** No text reads as both True and False. */
  lemma TrueAndFalseWordsDisjoint(s: string)
    ensures !(IsWordIn(s, FalseWords) && IsWordIn(s, TrueWords))
  {
    if IsWordIn(s, FalseWords) && IsWordIn(s, TrueWords) {
      var i :| 0 <= i < |FalseWords| && Ascii.EqualsIgnoreCase(s, FalseWords[i]);
      var j :| 0 <= j < |TrueWords| && Ascii.EqualsIgnoreCase(s, TrueWords[j]);
      FalseAndTrueWordsDiffer(i, j);
      assert false;
    }
  }

  /** The truth value a text stands for, if it is one of the accepted words. */
  function BoolFromText(s: string): (r: Option<bool>)
    ensures r == Some(false) <==> IsWordIn(s, FalseWords)
    ensures r == Some(true) <==> IsWordIn(s, TrueWords)
  {
    TrueAndFalseWordsDisjoint(s);
    if IsWordIn(s, FalseWords) then Some(false)
    else if IsWordIn(s, TrueWords) then Some(true)
    else None
  }

  /**
   * The value a field of declared type `k` holds when given `v`, or None when
   * the constructor rejects `v`. A value already of the declared type is kept
   * unchanged, and whatever is accepted has the declared type.
   */
  function Validate(k: Kind, v: Value): (r: Option<Value>)
    ensures r.Some? ==> Conforms(k, r.value)
    ensures Conforms(k, v) ==> r == Some(v)
    ensures k.ChoiceKind? ==> (r.Some? <==> v.VStr? && v.s in k.allowed)
    ensures k == StrKind ==> (r.Some? <==> v.VStr?)
  {
    match k
    case StrKind =>
      if v.VStr? then Some(v) else None
    case OptionalStrKind =>
      if v.VStr? || v.VNone? then Some(v) else None
    case ChoiceKind(allowed) =>
      if v.VStr? && v.s in allowed then Some(v) else None
    case IntKind => IntFrom(v)
    case BoolKind => BoolFrom(v)
  }

  /** An `int` field accepts an int, a bool (as 0 or 1) or integer text. */
  function IntFrom(v: Value): (r: Option<Value>)
    ensures r.Some? ==> r.value.VInt?
  {
    match v
    case VInt(_) => Some(v)
    case VBool(b) => Some(VInt(if b then 1 else 0))
    case VStr(s) =>
      (match Ascii.ParseInteger(s)
       case Some(n) => Some(VInt(n))
       case None => None)
    case _ => None
  }

  /** A `bool` field accepts a bool, the int 0 or 1, or one of the truth words. */
  function BoolFrom(v: Value): (r: Option<Value>)
    ensures r.Some? ==> r.value.VBool?
  {
    match v
    case VBool(_) => Some(v)
    case VInt(n) => if n == 0 || n == 1 then Some(VBool(n == 1)) else None
    case VStr(s) =>
      (match BoolFromText(s)
       case Some(b) => Some(VBool(b))
       case None => None)
    case _ => None
  }

  /** Integer text given to an `int` field becomes the integer it writes. */
  lemma IntegerTextIsAcceptedAsInt(s: string, n: int)
    requires Ascii.ParseInteger(s) == Some(n)
    ensures Validate(IntKind, VStr(s)) == Some(VInt(n))
  {
  }

  /**
   * In particular the decimal text of a natural number gives back that
   * number, unless the text is too long to be read as an integer at all.
   */
  lemma DecimalTextIsAcceptedAsInt(n: nat)
    ensures Validate(IntKind, VStr(Ascii.Decimal(n)))
         == if |Ascii.Decimal(n)| <= Ascii.MaxIntegerTextLength then Some(VInt(n)) else None
  {
    Ascii.ParseDecimal(n);
    if |Ascii.Decimal(n)| <= Ascii.MaxIntegerTextLength {
      IntegerTextIsAcceptedAsInt(Ascii.Decimal(n), n);
    }
  }

  /** Integer text longer than the library's limit is refused by an `int` field. */
  lemma OverlongIntegerTextRejected(s: string)
    requires |s| > Ascii.MaxIntegerTextLength
    ensures Validate(IntKind, VStr(s)) == None
  {
  }

  /** "true" and "false" given to a `bool` field become True and False. */
  lemma BoolWordsAreAccepted()
    ensures Validate(BoolKind, VStr("true")) == Some(VBool(true))
    ensures Validate(BoolKind, VStr("false")) == Some(VBool(false))
  {
    assert Ascii.EqualsIgnoreCase("false", FalseWords[3]);
    assert Ascii.EqualsIgnoreCase("true", TrueWords[3]);
    TrueAndFalseWordsDisjoint("true");
  }
}
