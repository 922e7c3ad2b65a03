# GS1 `ss` linter — a Dafny model

This project models `gs1_lint_ss`, the GS1 Syntax Dictionary linter that checks
an AI component is a "seconds within a minute" value: exactly two ASCII decimal
digits whose value is 00 to 59. The checks run in a fixed order: length, then
character class (via `strspn` over `"0123456789"`), then range. The first
failing check decides the result. Each failure carries one of four error codes
and an error span `(pos, len)` that a caller uses to highlight the bad data.

All of it is in `lint_ss.dfy`, module `LintSs`. The C function is pure, so the
model is a set of functions and lemmas:

- `LintSs` returns `Ok` or `Failure(error, pos, len)`, carrying the span in the result.
- `CallWithOutPointers` models the C calling convention. Each NULL-able
  out-pointer is an `Option<nat>` holding its storage, and the function returns
  the return code and the storage after the call.
- `Strspn` models C's `strspn`.
- `IsValidSecond` is the independent specification. `FormatSecond` renders
  a second 0–59 as two digits whose value is that second. It is a
  specification helper with no counterpart in the C code, and it is the partner
  for the acceptance round trip.

The input `data` is the bytes of the C string before its terminator. One Dafny
`char` stands for one C byte, a value from 1 to 255: the predicate `IsCString`
says so, and every linting member requires it. So `strlen(data)` is `|data|`,
the input holds no NUL, and every error position and length counts bytes.
Text in a multi-byte encoding is given as its bytes, one `char` each.

## Model

| member | source | states |
|---|---|---|
| `LintSs.LintSs` | src/lint_ss.c:53-94 | OK exactly when the data is a valid SS value. Length < 2 gives `SecondTooShort` with span (0, len). Length > 2 gives `SecondTooLong` with span (0, len). A length-2 value with a non-digit gives `NonDigitCharacter` at the first non-digit, with length 1. Two digits worth more than 59 give `IllegalSecond` with span (0, 2). Every span lies inside the data. |
| `LintSs.Strspn` | src/lint_ss.c:76 | The result is at most the length. Every character before it is in the accept set. The character at it, if there is one, is not. |
| `LintSs.DigitSpan` | src/lint_ss.c:76-80 | For the accept set `"0123456789"`, the prefix that `strspn` measures is all ASCII digits, and the character that stops it is not a digit. |
| `LintSs.DigitsAreDigits` | src/lint_ss.c:76 | A character is in the linter's accept set exactly when it is an ASCII digit. |
| `LintSs.DigitValue` | src/lint_ss.c:86 | The value of a digit character, below 10, and the character is `'0'` plus that value. |
| `LintSs.CallWithOutPointers` | src/lint_ss.c:66-92 | OK is returned exactly for valid SS values, and then both out-pointers' storage is left untouched. A NULL out-pointer is never written through. On failure, the code returned is the linter's failure code, and each supplied out-pointer receives that failure's position or length, a span inside the data. |
| `LintSs.OkExactlyFormattedSeconds` | src/lint_ss.c:66-92 | The linter returns OK exactly for the strings "00" to "59": the two-digit renderings of 0 to 59. |
| `LintSs.LengthCheckTakesPrecedence` | src/lint_ss.c:66-70 | For a length other than 2, the result depends only on the length and is a length error, whatever the characters are. |
| `LintSs.DigitCheckTakesPrecedence` | src/lint_ss.c:76-90 | A length-2 value with a non-digit gets `NonDigitCharacter` at the first non-digit, never `IllegalSecond`. |
| `LintSs.PrecedenceVectors` | src/lint_ss.c:66-90 | "x" gives `SecondTooShort` (0, 1), not a character error. "6x" gives `NonDigitCharacter` (1, 1), not a range error. "x9" gives `NonDigitCharacter` (0, 1). |
| `LintSs.UnitTestVectors` | src/lint_ss.c:104-113 | The unit-test vectors: "00" and "59" pass. "60" gives `IllegalSecond` (0, 2). "x0" gives `NonDigitCharacter` (0, 1). "0x" gives `NonDigitCharacter` (1, 1). "" gives `SecondTooShort` (0, 0). "1" gives `SecondTooShort` (0, 1). "111" gives `SecondTooLong` (0, 3). |

## Left out

- `assert(data)` (src/lint_ss.c:58): the input is a non-optional sequence, so a NULL `data` cannot be expressed.
- Character encodings: the model works on bytes, so a multi-byte character counts as several positions, exactly as `strlen` and `strspn` count them.
- C string mechanics: the NUL terminator, `strlen`, and the promotion of `char` to `int` in the range check. The value is computed over naturals, and only after both characters are known to be digits.
- The `gs1_lint_err_t` enumeration and the `GS1_SYNTAX_DICTIONARY_API` export macro: `gs1syntaxdictionary.h` is not part of this model. Only the five codes this linter returns are declared, with OK as `LintResult.Ok` (and `None` in `Call.code`).
- The unit-test harness macros and their `*...*` span notation: `unittest.h` is not part of this model. Its vectors appear as lemmas with the span written as (pos, len).
- The doc comment at src/lint_ss.c:47-48 says "MM format". It describes no behaviour and is not modelled.
