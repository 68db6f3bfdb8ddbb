/** The parts of Python and Django behaviour that the shop's code relies on:
    optional values and results, the exceptions its views let escape, the values
    that arrive in request bodies and keyword arguments, and the string and
    integer operations (isdigit, startswith, strip, lower, int()) it applies. */
module Common {

  datatype Option<T> = None | Some(value: T)

  datatype Result<T, E> = Ok(value: T) | Err(error: E)

  /** An exception that a view does not catch; Django turns it into a server error. */
  datatype PyError =
    | KeyError
    | AttributeError
    | TypeError
    | ValueError
    | DoesNotExist
    | IntegrityError
    | NotImplementedError
    | ValidationError
    | OverflowError

  /** A Python value as it arrives in a JSON body, in POST data or in keyword arguments.
      PyFloat holds a finite float as an exact real; PyNonFinite is the float
      that json.loads gives for Infinity, -Infinity or a number beyond the
      double range (isNaN false; the sign plays no part here), or for NaN.
      PyContainer stands for any list or dict. */
  datatype PyValue =
    | PyNone
    | PyBool(b: bool)
    | PyInt(i: int)
    | PyFloat(x: real)
    | PyNonFinite(isNaN: bool)
    | PyStr(s: string)
    | PyContainer

  // ---------------------------------------------------------------------------
  // Characters and strings
  // ---------------------------------------------------------------------------

  predicate IsAsciiDigit(c: char) {
    '0' <= c <= '9'
  }

  /** str.isdigit(): true for a non-empty string of digits. */
  predicate IsDigits(s: string) {
    |s| > 0 && forall i :: 0 <= i < |s| ==> IsAsciiDigit(s[i])
  }

  /** str.startswith(prefix). */
  predicate StartsWith(s: string, prefix: string) {
    |prefix| <= |s| && s[..|prefix|] == prefix
  }

  /** The whitespace int() skips around a literal: space and the five
      control characters tab through carriage return. */
  predicate IsAsciiSpace(c: char) {
    c == ' ' || c == '\t' || c == '\n' || c == '\r' || c == '\U{000B}' || c == '\U{000C}'
  }

  /** The four information separators U+001C..U+001F, which str.isspace()
      counts as whitespace but int() does not. */
  predicate IsSeparator(c: char) {
    '\U{001C}' <= c <= '\U{001F}'
  }

  /** The whitespace characters str.strip() removes, restricted to ASCII. */
  predicate IsSpace(c: char) {
    IsAsciiSpace(c) || IsSeparator(c)
  }

  /** str.lstrip(): the suffix left after dropping leading whitespace. */
  function StripLeft(s: string): (r: string)
    ensures |r| <= |s|
  {
    if s != [] && IsSpace(s[0]) then StripLeft(s[1..]) else s
  }

  /** str.rstrip(): the prefix left after dropping trailing whitespace. */
  function StripRight(s: string): (r: string)
    ensures |r| <= |s|
  {
    if s != [] && IsSpace(s[|s| - 1]) then StripRight(s[..|s| - 1]) else s
  }

  /** str.strip(). */
  function Strip(s: string): string {
    StripRight(StripLeft(s))
  }

  lemma {:induction false} StripLeftDropsSpaces(s: string)
    ensures StripLeft(s) == s[|s| - |StripLeft(s)|..]
    ensures forall i :: 0 <= i < |s| - |StripLeft(s)| ==> IsSpace(s[i])
  {
    if s != [] && IsSpace(s[0]) {
      StripLeftDropsSpaces(s[1..]);
    }
  }

  lemma {:induction false} StripRightDropsSpaces(s: string)
    ensures StripRight(s) == s[..|StripRight(s)|]
    ensures forall i :: |StripRight(s)| <= i < |s| ==> IsSpace(s[i])
  {
    if s != [] && IsSpace(s[|s| - 1]) {
      StripRightDropsSpaces(s[..|s| - 1]);
    }
  }

  lemma StripKeepsChar(s: string, i: nat)
    requires i < |s| && !IsSpace(s[i])
    ensures s[i] in Strip(s)
  {
    var l := StripLeft(s);
    StripLeftDropsSpaces(s);
    var j := i - (|s| - |l|);
    assert 0 <= j && l[j] == s[i];
    StripRightDropsSpaces(l);
    assert j < |Strip(s)|;
    assert Strip(s)[j] == s[i];
  }

  lemma StripAddsNothing(s: string, j: nat)
    requires j < |Strip(s)|
    ensures Strip(s)[j] in s
  {
    var l := StripLeft(s);
    StripLeftDropsSpaces(s);
    StripRightDropsSpaces(l);
    assert Strip(s)[j] == l[j] == s[j + (|s| - |l|)];
  }

  /** Stripping only removes whitespace, so a character that is not
      whitespace occurs in a string exactly when it occurs in the stripped one. */
  lemma StripKeepsNonSpace(s: string, c: char)
    requires !IsSpace(c)
    ensures c in s <==> c in Strip(s)
  {
    if c in s {
      var i :| 0 <= i < |s| && s[i] == c;
      StripKeepsChar(s, i);
    }
    if c in Strip(s) {
      var j :| 0 <= j < |Strip(s)| && Strip(s)[j] == c;
      StripAddsNothing(s, j);
    }
  }

  /** str.lower() on one character; only ASCII letters are mapped. */
  function LowerChar(c: char): char {
    if 'A' <= c <= 'Z' then (c as int - 'A' as int + 'a' as int) as char else c
  }

  /** str.lower(). */
  function Lower(s: string): (r: string)
    ensures |r| == |s|
    ensures forall i :: 0 <= i < |s| ==> r[i] == LowerChar(s[i])
  {
    if s == [] then [] else [LowerChar(s[0])] + Lower(s[1..])
  }

  lemma LowerCharIdempotent(c: char)
    ensures LowerChar(LowerChar(c)) == LowerChar(c)
    ensures !('A' <= LowerChar(c) <= 'Z')
  {
  }

  lemma LowerIdempotent(s: string)
    ensures Lower(Lower(s)) == Lower(s)
    ensures forall i :: 0 <= i < |s| ==> !('A' <= Lower(s)[i] <= 'Z')
  {
    forall i | 0 <= i < |s|
      ensures Lower(Lower(s))[i] == Lower(s)[i] && !('A' <= Lower(s)[i] <= 'Z')
    {
      LowerCharIdempotent(s[i]);
    }
  }

  lemma {:induction false} LowerConcat(a: string, b: string)
    ensures Lower(a + b) == Lower(a) + Lower(b)
  {
    if a != [] {
      assert (a + b)[1..] == a[1..] + b;
      LowerConcat(a[1..], b);
    }
  }

  /** The last index at which c occurs in s, as str.rsplit(c, 1) finds it. */
  function LastIndexOf(s: string, c: char): (r: Option<nat>)
    ensures r.None? <==> c !in s
    ensures r.Some? ==> r.value < |s| && s[r.value] == c && c !in s[r.value + 1..]
  {
    if s == [] then None
    else if s[|s| - 1] == c then Some(|s| - 1)
    else
      var t := s[..|s| - 1];
      assert s == t + [s[|s| - 1]];
      var r := LastIndexOf(t, c);
      assert r.Some? ==> s[r.value + 1..] == t[r.value + 1..] + [s[|s| - 1]];
      r
  }

  // ---------------------------------------------------------------------------
  // Integers
  // ---------------------------------------------------------------------------

  /** int(a / b) in Python for an integer a and a positive integer b: the exact
      quotient truncated toward zero (for a negative a this differs from
      Dafny's Euclidean division). */
  function TruncDiv(a: int, b: int): (r: int)
    requires b > 0
    ensures a >= 0 ==> r * b <= a < r * b + b
    ensures a < 0 ==> r * b - b < a <= r * b
  {
    if a >= 0 then a / b else -((-a) / b)
  }

  /** int(x) for a float x: truncation toward zero. */
  function TruncReal(x: real): (r: int)
    ensures x >= 0.0 ==> r as real <= x < r as real + 1.0
    ensures x < 0.0 ==> r as real - 1.0 < x <= r as real
  {
    if x >= 0.0 then x.Floor else -((-x).Floor)
  }

  /** The value of a non-empty string of ASCII digits. */
  function DigitsValue(s: string): (r: nat)
    requires forall i :: 0 <= i < |s| ==> IsAsciiDigit(s[i])
  {
    if s == [] then 0
    else
      assert IsAsciiDigit(s[|s| - 1]);
      DigitsValue(s[..|s| - 1]) * 10 + (s[|s| - 1] as int - '0' as int)
  }

  /** int(s) for a string: surrounding whitespace, an optional sign, then digits.
      None stands for the ValueError Python raises otherwise. int() skips only
      the ASCII spaces, so a string holding an information separator is never
      a literal: the separator is neither a digit nor space that int() skips. */
  function ParseIntLiteral(s: string): (r: Option<int>)
    ensures (exists i :: 0 <= i < |s| && IsSeparator(s[i])) ==> r.None?
  {
    var t := Strip(s);
    if exists i :: 0 <= i < |s| && IsSeparator(s[i]) then None
    else if t == [] then None
    else if t[0] == '+' || t[0] == '-' then
      var body := t[1..];
      var magnitude: int := if IsDigits(body) then DigitsValue(body) else 0;
      if IsDigits(body) then Some(if t[0] == '-' then -magnitude else magnitude) else None
    else if IsDigits(t) then Some(DigitsValue(t))
    else None
  }

  /** int(v) for the values a request body can carry. int() of an infinite
      float raises OverflowError and of NaN ValueError. */
  function IntOf(v: PyValue): (r: Result<int, PyError>)
    ensures r == Err(OverflowError) <==> v == PyNonFinite(false)
    ensures r.Err? ==> r.error in {TypeError, ValueError, OverflowError}
  {
    match v
    case PyNone => Err(TypeError)
    case PyBool(b) => Ok(if b then 1 else 0)
    case PyInt(i) => Ok(i)
    case PyFloat(x) => Ok(TruncReal(x))
    case PyNonFinite(isNaN) => if isNaN then Err(ValueError) else Err(OverflowError)
    case PyStr(s) =>
      (match ParseIntLiteral(s)
       case Some(n) => Ok(n)
       case None => Err(ValueError))
    case PyContainer => Err(TypeError)
  }

  // ---------------------------------------------------------------------------
  // Django form fields
  // ---------------------------------------------------------------------------

  datatype CharError = Required | TooLong | NullCharacter

  /** A required forms.CharField: the submitted value is stripped, must be
      non-empty, may have at most maxLength characters (MaxLengthValidator)
      and may not contain a NUL character (ProhibitNullCharactersValidator,
      which every CharField carries). When both validators fail, only the
      length error is reported here. */
  function CleanCharField(raw: Option<string>, maxLength: nat): (r: Result<string, CharError>)
    ensures r.Ok? <==> raw.Some? && Strip(raw.value) != [] && |Strip(raw.value)| <= maxLength && '\0' !in Strip(raw.value)
    ensures r.Ok? ==> r.value == Strip(raw.value)
    ensures raw.None? ==> r == Err(Required)
  {
    if raw.None? then Err(Required)
    else
      var v := Strip(raw.value);
      if v == [] then Err(Required)
      else if |v| > maxLength then Err(TooLong)
      else if '\0' in v then Err(NullCharacter)
      else Ok(v)
  }

  /** A NUL character inside the value is refused even when the value is
      short enough, and one at the edge is not stripped away. */
  /** str.strip() removes a trailing information separator, so padding of
      that kind does not push a value over the length limit, while int()
      refuses the same padding. */
  lemma SeparatorStripped()
    ensures CleanCharField(Some("09123456789\U{001C}"), 11) == Ok("09123456789")
    ensures ParseIntLiteral("5\U{001C}") == None
  {
    assert StripLeft("09123456789\U{001C}") == "09123456789\U{001C}";
    assert StripRight("09123456789\U{001C}") == "09123456789" by {
      assert "09123456789\U{001C}"[..11] == "09123456789";
    }
    assert IsSeparator("5\U{001C}"[1]);
  }

  lemma NullCharacterRefused()
    ensures CleanCharField(Some("a\0b"), 100) == Err(NullCharacter)
    ensures CleanCharField(Some("\0"), 100) == Err(NullCharacter)
  {
    assert Strip("a\0b") == "a\0b";
    assert Strip("\0") == "\0";
  }
}
