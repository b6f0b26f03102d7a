/**
 * The four lines of text on a sign. A Java String[] that may be null is an
 * Option of a sequence of strings.
 */
module SignText {
  import opened Wrappers
  import opened SignCodec

  const LineCount := 4

  /**
   * The text the sign constructors store: no text (null or an empty array)
   * becomes four empty lines, up to four lines are kept in order and padded
   * with empty lines, more than four are rejected.
   */
  function NormalizedText(text: Option<seq<string>>): (r: Result<seq<string>, Error>)
    ensures r.Success? <==> text.None? || |text.value| <= LineCount
    ensures r.Failure? ==> r.error == TooManyLines(|text.value|)
    ensures r.Success? ==> |r.value| == LineCount
    ensures r.Success? && text.Some? ==> r.value[..|text.value|] == text.value
    ensures r.Success? ==> forall i :: (if text.None? then 0 else |text.value|) <= i < LineCount ==> r.value[i] == ""
  {
    if text.None? || |text.value| == 0 then Success(seq(LineCount, _ => ""))
    else if |text.value| > LineCount then Failure(TooManyLines(|text.value|))
    else if |text.value| == LineCount then Success(text.value)
    else Success(text.value + seq(LineCount - |text.value|, _ => ""))
  }

  /**
   * The constructors' copy: a fresh array of four lines filled with empty
   * strings, into whose first slots the given lines are copied.
   */
  method PadLines(lines: seq<string>) returns (t: seq<string>)
    requires |lines| <= LineCount
    ensures |t| == LineCount
    ensures t[..|lines|] == lines
    ensures forall i :: |lines| <= i < LineCount ==> t[i] == ""
  {
    var a := new string[LineCount](_ => "");
    for i := 0 to |lines|
      invariant forall k :: 0 <= k < i ==> a[k] == lines[k]
      invariant forall k :: i <= k < LineCount ==> a[k] == ""
    {
      a[i] := lines[i];
    }
    t := a[..];
  }

  /** The branches of the sign constructors that build the stored text. */
  method NewText(text: Option<seq<string>>) returns (r: Result<seq<string>, Error>)
    ensures r == NormalizedText(text)
  {
    if text.None? || |text.value| == 0 {
      var blank := PadLines([]);
      assert blank == seq(LineCount, _ => "");
      r := Success(blank);
    } else if |text.value| > LineCount {
      r := Failure(TooManyLines(|text.value|));
    } else if |text.value| == LineCount {
      r := Success(text.value);
    } else {
      var padded := PadLines(text.value);
      assert padded == text.value + seq(LineCount - |text.value|, _ => "") by {
        assert padded == padded[..|text.value|] + padded[|text.value|..];
      }
      r := Success(padded);
    }
  }

  /** Sign.setText accepts only a non-null array of exactly four lines. */
  function ReplacementText(text: Option<seq<string>>): (r: Result<seq<string>, Error>)
    ensures r.Success? <==> text.Some? && |text.value| == LineCount
    ensures r.Success? ==> r.value == text.value
    ensures r.Failure? ==> r.error == TextNotFourLines
  {
    if text.None? || |text.value| != LineCount then Failure(TextNotFourLines) else Success(text.value)
  }
}
