/**
 * The GS1 `ss` linter: checks that an AI component is a "seconds within a
 * minute" value, i.e. exactly two ASCII decimal digits whose value is 00 to 59.
 * On failure it reports one of four error codes together with an error span
 * (pos, len) that a caller uses to highlight the bad part of the data.
 *
 * `data` stands for the bytes of the C string before its terminator: one
 * `char` is one C byte (a value 1 to 255, see `IsCString`), so C's
 * `strlen(data)` is `|data|` and every position and length counts bytes.
 */
module LintSs {

  /** The failure codes the `ss` linter can return (success is `LintResult.Ok`). */
  datatype LintError = SecondTooShort | SecondTooLong | NonDigitCharacter | IllegalSecond

  /** The outcome of one lint: success, or a failure code with its error span. */
  datatype LintResult = Ok | Failure(error: LintError, pos: nat, len: nat)

  /** An optional value; `None` stands for a NULL out-pointer. */
  datatype Option<T> = None | Some(value: T)

  /** The accept set handed to `strspn` by the linter. */
  const Digits: seq<char> := "0123456789"

  /** The bytes of a NUL-terminated C string before the terminator: no NUL, each a byte. */
  predicate IsCString(s: seq<char>) {
    forall i :: 0 <= i < |s| ==> 0 < s[i] as int < 256
  }

  /** An ASCII decimal digit. */
  predicate IsDigit(c: char) {
    '0' <= c <= '9'
  }

  /** The numeric value of a digit character. */
  function DigitValue(c: char): (d: nat)
    requires IsDigit(c)
    ensures d < 10
    ensures c == ('0' as int + d) as char
  {
    c as int - '0' as int
  }

  /** Membership in the linter's accept set is exactly being an ASCII digit. */
  lemma DigitsAreDigits(c: char)
    ensures c in Digits <==> IsDigit(c)
  {
  }

  /**
   * C's `strspn(s, accept)`: the length of the longest prefix of `s` made
   * only of characters that occur in `accept`.
   */
  function Strspn(s: seq<char>, accept: seq<char>): (n: nat)
    ensures n <= |s|
    ensures forall i :: 0 <= i < n ==> s[i] in accept
    ensures n < |s| ==> s[n] !in accept
  {
    if |s| == 0 || s[0] !in accept then 0 else 1 + Strspn(s[1..], accept)
  }

  /**
   * The digit scan of the linter: every character before the span length is a
   * digit, and the character at it, if there is one, is not.
   */
  lemma DigitSpan(s: seq<char>)
    ensures forall i :: 0 <= i < Strspn(s, Digits) ==> IsDigit(s[i])
    ensures Strspn(s, Digits) < |s| ==> !IsDigit(s[Strspn(s, Digits)])
  {
    var n := Strspn(s, Digits);
    forall i | 0 <= i < n
      ensures IsDigit(s[i])
    {
      DigitsAreDigits(s[i]);
    }
    if n < |s| {
      DigitsAreDigits(s[n]);
    }
  }

  /** Specification: `s` is a valid SS value, two digits with value at most 59. */
  predicate IsValidSecond(s: seq<char>) {
    |s| == 2 && IsDigit(s[0]) && IsDigit(s[1]) && 10 * DigitValue(s[0]) + DigitValue(s[1]) <= 59
  }

  /**
   * The `ss` linter. The checks run in a fixed order (length, then character
   * class, then range) and the first one that fails decides the result.
   */
  function LintSs(data: seq<char>): (r: LintResult)
    requires IsCString(data)
    // success exactly for valid SS values
    ensures r.Ok? <==> IsValidSecond(data)
    // length check: the whole data is the span
    ensures |data| < 2 ==> r == Failure(SecondTooShort, 0, |data|)
    ensures |data| > 2 ==> r == Failure(SecondTooLong, 0, |data|)
    // character check: the span is the first non-digit
    ensures r.Failure? && r.error == NonDigitCharacter <==>
              |data| == 2 && !(IsDigit(data[0]) && IsDigit(data[1]))
    ensures r.Failure? && r.error == NonDigitCharacter ==>
              r.len == 1 && r.pos < |data| && !IsDigit(data[r.pos]) &&
              forall i :: 0 <= i < r.pos ==> IsDigit(data[i])
    // range check: two digits above 59, the whole field is the span
    ensures r.Failure? && r.error == IllegalSecond <==>
              |data| == 2 && IsDigit(data[0]) && IsDigit(data[1]) &&
              10 * DigitValue(data[0]) + DigitValue(data[1]) > 59
    ensures r.Failure? && r.error == IllegalSecond ==> r.pos == 0 && r.len == 2
    // every span lies inside the data
    ensures r.Failure? ==> r.pos + r.len <= |data|
  {
    var len := |data|;
    if len != 2 then
      Failure(if len < 2 then SecondTooShort else SecondTooLong, 0, len)
    else
      var pos := Strspn(data, Digits);
      DigitSpan(data);
      if pos != len then
        Failure(NonDigitCharacter, pos, 1)
      else if DigitValue(data[0]) * 10 + DigitValue(data[1]) > 59 then
        Failure(IllegalSecond, 0, 2)
      else
        Ok
  }

  /** What a C call leaves behind: the return code (`None` is OK) and the two out-pointers' storage. */
  datatype Call = Call(code: Option<LintError>, errPos: Option<nat>, errLen: Option<nat>)

  /**
   * The linter with its C calling convention: `errPos` and `errLen` are the
   * storage behind the two out-pointers before the call (`None` for NULL), and
   * the result gives that storage after the call.
   */
  function CallWithOutPointers(data: seq<char>, errPos: Option<nat>, errLen: Option<nat>): (c: Call)
    requires IsCString(data)
    // OK is returned exactly for valid SS values, and then nothing is written
    ensures c.code.None? <==> IsValidSecond(data)
    ensures c.code.None? ==> c.errPos == errPos && c.errLen == errLen
    // a NULL out-pointer is never written through
    ensures errPos.None? ==> c.errPos.None?
    ensures errLen.None? ==> c.errLen.None?
    // on failure, supplied storage receives a span inside the data
    ensures c.code.Some? && errPos.Some? && errLen.Some? ==>
              c.errPos.Some? && c.errLen.Some? && c.errPos.value + c.errLen.value <= |data|
    // on failure, the code returned and the values written are the linter's failure and span
    ensures LintSs(data).Failure? ==>
              c.code == Some(LintSs(data).error) &&
              (errPos.Some? ==> c.errPos == Some(LintSs(data).pos)) &&
              (errLen.Some? ==> c.errLen == Some(LintSs(data).len))
  {
    match LintSs(data)
    case Ok => Call(None, errPos, errLen)
    case Failure(e, pos, len) =>
      Call(Some(e),
           if errPos.Some? then Some(pos) else None,
           if errLen.Some? then Some(len) else None)
  }

  /** The two-character rendering of a second 0 to 59, with a leading zero. */
  function FormatSecond(m: nat): (s: seq<char>)
    requires m < 60
    ensures |s| == 2 && IsDigit(s[0]) && IsDigit(s[1]) && IsCString(s)
    ensures 10 * DigitValue(s[0]) + DigitValue(s[1]) == m
  {
    [('0' as int + m / 10) as char, ('0' as int + m % 10) as char]
  }

  /** The linter accepts exactly the strings "00" to "59". */
  lemma {:induction false} OkExactlyFormattedSeconds(s: seq<char>)
    requires IsCString(s)
    ensures LintSs(s) == Ok <==> exists m :: 0 <= m < 60 && FormatSecond(m) == s
  {
    if LintSs(s) == Ok {
      var m := 10 * DigitValue(s[0]) + DigitValue(s[1]);
      assert m / 10 == DigitValue(s[0]) && m % 10 == DigitValue(s[1]);
      assert FormatSecond(m) == s;
    }
    if exists m :: 0 <= m < 60 && FormatSecond(m) == s {
      var m :| 0 <= m < 60 && FormatSecond(m) == s;
      assert DigitValue(s[0]) == m / 10 && DigitValue(s[1]) == m % 10;
      assert IsValidSecond(s);
    }
  }

  /**
   * The length check comes first: for a wrong length the result depends on the
   * length alone, so no character of the data can change it.
   */
  lemma {:induction false} LengthCheckTakesPrecedence(s: seq<char>, t: seq<char>)
    requires IsCString(s) && IsCString(t) && |s| == |t| && |s| != 2
    ensures LintSs(s) == LintSs(t)
    ensures LintSs(s).Failure? && LintSs(s).error in {SecondTooShort, SecondTooLong}
  {
  }

  /**
   * The character check comes before the range check: a non-digit is reported
   * whatever the other character is, and `IllegalSecond` never names a non-digit.
   */
  lemma {:induction false} DigitCheckTakesPrecedence(s: seq<char>)
    requires IsCString(s) && |s| == 2 && (!IsDigit(s[0]) || !IsDigit(s[1]))
    ensures LintSs(s) == Failure(NonDigitCharacter, if IsDigit(s[0]) then 1 else 0, 1)
  {
  }

  /** Vectors for the order of the checks: length before characters before range. */
  lemma {:induction false} PrecedenceVectors()
    ensures LintSs("x") == Failure(SecondTooShort, 0, 1)
    ensures LintSs("6x") == Failure(NonDigitCharacter, 1, 1)
    ensures LintSs("x9") == Failure(NonDigitCharacter, 0, 1)
  {
  }

  /** The vectors of the linter's own unit test. */
  lemma {:induction false} UnitTestVectors()
    ensures LintSs("00") == Ok
    ensures LintSs("59") == Ok
    ensures LintSs("60") == Failure(IllegalSecond, 0, 2)
    ensures LintSs("x0") == Failure(NonDigitCharacter, 0, 1)
    ensures LintSs("0x") == Failure(NonDigitCharacter, 1, 1)
    ensures LintSs("") == Failure(SecondTooShort, 0, 0)
    ensures LintSs("1") == Failure(SecondTooShort, 0, 1)
    ensures LintSs("111") == Failure(SecondTooLong, 0, 3)
  {
  }
}
