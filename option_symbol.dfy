/** The OCC option symbol (OCC Options Symbology Initiative) as `_get_option_symbol` builds it:
    root, expiry YYMMDD, one C/P character and the strike in thousandths. */
module OptionSymbol {
  import opened Wrappers
  import opened Exceptions
  import opened Text

  /** Width the root is left-aligned in. */
  const RootWidth: nat := 6
  /** Width the strike in thousandths is zero-padded to. */
  const StrikeWidth: nat := 8

  /** An expiration date written `YYYY-MM-DD`. */
  predicate IsIsoDate(d: string) {
    && |d| == 10 && d[4] == '-' && d[7] == '-'
    && (forall i :: 0 <= i < 10 && i != 4 && i != 7 ==> IsDigit(d[i]))
  }

  /** The root field: the underlying upper-cased, left-aligned to width 6; a longer root is kept whole. */
  function RootField(underlying: string): string {
    PadRight(Upper(underlying), RootWidth)
  }

  /** The date field: the expiration with every '-' removed, then its first two characters dropped
      (a Python slice `[2:]`, so a shorter remainder gives the empty string). */
  function DateField(expiration: string): string {
    var compact := RemoveAll(expiration, '-');
    if |compact| >= 2 then compact[2..] else []
  }

  /** The type character: the first character of the upper-cased option type;
      indexing an empty string raises IndexError. */
  function TypeChar(optionType: string): (r: Result<char, Exception>)
    ensures r.Failure? <==> optionType == []
    ensures r.Failure? ==> r.error.IndexError?
    ensures r.Success? ==> r.value == UpperChar(optionType[0])
  {
    var upper := Upper(optionType);
    if upper == [] then Failure(IndexError("string index out of range")) else Success(upper[0])
  }

  /** The strike field `f"{n:08d}"` of a strike of n thousandths: at least 8 characters,
      zero-padded, with a leading '-' inside the width for a negative n. */
  function StrikeField(strikeMilli: int): string {
    if strikeMilli < 0 then
      "-" + ZeroPad(Digits(-strikeMilli), StrikeWidth - 1)
    else
      ZeroPad(Digits(strikeMilli), StrikeWidth)
  }

  /** The four fields laid end to end. */
  function Format(underlying: string, expiration: string, kind: char, strikeMilli: int): string {
    RootField(underlying) + DateField(expiration) + [kind] + StrikeField(strikeMilli)
  }

  /** `_get_option_symbol(underlying, expiration, option_type, strike)`, the strike given in thousandths. */
  function Symbol(underlying: string, expiration: string, optionType: string, strikeMilli: int)
    : (r: Result<string, Exception>)
    ensures r.Failure? <==> optionType == []
    ensures r.Success? ==> r.value == Format(underlying, expiration, UpperChar(optionType[0]), strikeMilli)
  {
    var kind :- TypeChar(optionType);
    Success(Format(underlying, expiration, kind, strikeMilli))
  }

  /** The fields read back from a symbol: the root with its padding trimmed, the six expiry
      characters, the type character and the strike in thousandths. */
  datatype Fields = Fields(root: string, expiry: string, kind: char, strikeMilli: nat)

  /** Reads a symbol back: the last 15 characters are expiry, type and strike, the rest is the root. */
  function Decode(s: string): (r: Option<Fields>)
    ensures r.Some? ==> |r.value.expiry| == 6 && (r.value.root == [] || r.value.root[|r.value.root| - 1] != ' ')
  {
    if |s| >= 15 && AllDigits(s[|s| - 8..]) then
      Some(Fields(TrimRight(s[..|s| - 15]), s[|s| - 15..|s| - 9], s[|s| - 9], DecimalValue(s[|s| - 8..])))
    else
      None
  }

  /** The root field is the upper-cased underlying left-aligned in width 6, never truncated. */
  lemma RootFieldShape(underlying: string)
    ensures |RootField(underlying)| == Max(|underlying|, RootWidth)
    ensures RootField(underlying)[..|underlying|] == Upper(underlying)
    ensures forall i :: |underlying| <= i < |RootField(underlying)| ==> RootField(underlying)[i] == ' '
  {
  }

  /** The strike field is at least 8 characters; a negative strike starts with '-', and a
      non-negative one is all digits and reads back as the strike. */
  lemma StrikeFieldShape(strikeMilli: int)
    ensures |StrikeField(strikeMilli)| >= StrikeWidth
    ensures strikeMilli < 0 ==> StrikeField(strikeMilli)[0] == '-'
    ensures 0 <= strikeMilli ==> AllDigits(StrikeField(strikeMilli)) && DecimalValue(StrikeField(strikeMilli)) == strikeMilli
  {
    if 0 <= strikeMilli {
      ZeroPadRoundTrip(strikeMilli, StrikeWidth);
    }
  }

  /** For a `YYYY-MM-DD` expiration the date field is `YYMMDD`. */
  lemma DateFieldOfIsoDate(d: string)
    requires IsIsoDate(d)
    ensures DateField(d) == d[2..4] + d[5..7] + d[8..10]
    ensures |DateField(d)| == 6 && AllDigits(DateField(d))
  {
    assert d == d[..4] + "-" + d[5..7] + "-" + d[8..];
    RemoveAllAppend(d[..4] + "-" + d[5..7] + "-", d[8..], '-');
    RemoveAllAppend(d[..4] + "-" + d[5..7], "-", '-');
    RemoveAllAppend(d[..4] + "-", d[5..7], '-');
    RemoveAllAppend(d[..4], "-", '-');
    RemoveAllAbsent(d[..4], '-');
    RemoveAllAbsent(d[5..7], '-');
    RemoveAllAbsent(d[8..], '-');
    assert RemoveAll("-", '-') == [];
    var compact := RemoveAll(d, '-');
    assert compact == d[..4] + d[5..7] + d[8..];
    assert compact[2..] == d[2..4] + d[5..7] + d[8..10];
  }

  /** The type character is the capital of the first character of the option type:
      'C' and 'c' give a call, 'P' and 'p' a put, and an empty type is an error. */
  lemma TypeCharExamples()
    ensures TypeChar("C") == Success('C') && TypeChar("c") == Success('C')
    ensures TypeChar("P") == Success('P') && TypeChar("p") == Success('P')
    ensures TypeChar("put") == Success('P')
    ensures TypeChar("").Failure?
  {
  }

  /** An underlying of at most 6 characters, a `YYYY-MM-DD` expiration and a strike below
      10^8 thousandths give a symbol of exactly 6 + 6 + 1 + 8 = 21 characters. */
  lemma SymbolLength(underlying: string, expiration: string, optionType: string, strikeMilli: int)
    requires |underlying| <= RootWidth && IsIsoDate(expiration) && optionType != []
    requires 0 <= strikeMilli < Pow10(StrikeWidth)
    ensures Symbol(underlying, expiration, optionType, strikeMilli).Success?
    ensures |Symbol(underlying, expiration, optionType, strikeMilli).value| == 21
  {
    DateFieldOfIsoDate(expiration);
    DigitsLength(strikeMilli, StrikeWidth);
  }

  /** Every symbol starts with the root field followed by the date field, whatever the inputs. */
  lemma SymbolPrefix(underlying: string, expiration: string, optionType: string, strikeMilli: int)
    requires optionType != []
    ensures var s := Symbol(underlying, expiration, optionType, strikeMilli).value;
      var prefix := RootField(underlying) + DateField(expiration);
      |prefix| < |s| && s[..|prefix|] == prefix && s[|prefix|] == UpperChar(optionType[0])
  {
  }

  /** The formatted fields start with the root field followed by the date field. */
  lemma FormatPrefix(underlying: string, expiration: string, kind: char, strikeMilli: int)
    ensures var s := Format(underlying, expiration, kind, strikeMilli);
      var prefix := RootField(underlying) + DateField(expiration);
      |prefix| < |s| && s[..|prefix|] == prefix && s[|prefix|] == kind
  {
  }

  /** A longer root is not truncated: the symbol starts with the whole upper-cased underlying. */
  lemma LongRootKept(underlying: string, expiration: string, optionType: string, strikeMilli: int)
    requires optionType != [] && |underlying| > RootWidth
    ensures var s := Symbol(underlying, expiration, optionType, strikeMilli).value;
      |underlying| <= |s| && s[..|underlying|] == Upper(underlying)
  {
    var s := Symbol(underlying, expiration, optionType, strikeMilli).value;
    assert s[..|underlying|] == RootField(underlying)[..|underlying|];
  }

  /** Reading a strike of 0 .. 10^8 - 1 thousandths back from the last 8 characters gives that strike. */
  lemma StrikeRoundTrip(strikeMilli: int)
    requires 0 <= strikeMilli < Pow10(StrikeWidth)
    ensures |StrikeField(strikeMilli)| == 8
    ensures AllDigits(StrikeField(strikeMilli)) && DecimalValue(StrikeField(strikeMilli)) == strikeMilli
  {
    DigitsLength(strikeMilli, StrikeWidth);
    StrikeFieldShape(strikeMilli);
  }

  /** Decoding a concatenation of a root, six date characters, a type character and eight digits
      splits it back into those parts. */
  lemma DecodeParts(root: string, date: string, kind: char, strike: string)
    requires |date| == 6 && |strike| == StrikeWidth && AllDigits(strike)
    ensures Decode(root + date + [kind] + strike) == Some(Fields(TrimRight(root), date, kind, DecimalValue(strike)))
  {
    var s := root + date + [kind] + strike;
    assert s[|s| - 8..] == strike;
    assert s[..|s| - 15] == root;
    assert s[|s| - 15..|s| - 9] == date;
    assert s[|s| - 9] == kind;
  }

  /** Decoding the formatted fields gives back the upper-cased underlying, `YYMMDD`, the type
      character and the strike, for any root length (the root must not itself end in a space). */
  lemma FormatRoundTrip(underlying: string, expiration: string, kind: char, strikeMilli: int)
    requires underlying == [] || underlying[|underlying| - 1] != ' '
    requires IsIsoDate(expiration)
    requires 0 <= strikeMilli < Pow10(StrikeWidth)
    ensures Decode(Format(underlying, expiration, kind, strikeMilli))
         == Some(Fields(Upper(underlying), DateField(expiration), kind, strikeMilli))
  {
    DateFieldOfIsoDate(expiration);
    StrikeRoundTrip(strikeMilli);
    DecodeParts(RootField(underlying), DateField(expiration), kind, StrikeField(strikeMilli));
    TrimRightPadRight(Upper(underlying), RootWidth);
  }

  /** Round trip: decoding a symbol returns the fields it was built from. */
  lemma SymbolRoundTrip(underlying: string, expiration: string, optionType: string, strikeMilli: int)
    requires underlying == [] || underlying[|underlying| - 1] != ' '
    requires IsIsoDate(expiration) && optionType != []
    requires 0 <= strikeMilli < Pow10(StrikeWidth)
    ensures Decode(Symbol(underlying, expiration, optionType, strikeMilli).value)
         == Some(Fields(Upper(underlying), DateField(expiration), UpperChar(optionType[0]), strikeMilli))
  {
    FormatRoundTrip(underlying, expiration, UpperChar(optionType[0]), strikeMilli);
  }
}
