/** Shared vocabulary of the backend and the client: optional values, the
    JavaScript string operations the source relies on (trim, split on one
    character, integer text), validation errors and the third-party
    validators that the model treats as given functions. */
module Common {

  datatype Option<T> = None | Some(value: T)

  /** A value, or the message of the error raised instead. */
  datatype Result<T> = Success(value: T) | Failure(error: string)

  /** JavaScript truthiness of a string that may be `undefined` or `null`:
      present and not empty. */
  predicate Truthy(v: Option<string>)
  {
    v.Some? && v.value != ""
  }

  /** A required field that is `undefined` is validated as the empty string. */
  function TextOrEmpty(v: Option<string>): string
  {
    if v.Some? then v.value else ""
  }

  type UserId = nat
  type TaskId = nat

  /** A `{field, message}` entry of a "Validation failed" response. */
  datatype FieldError = FieldError(field: string, message: string)

  /** One validator of a chain: no error when `ok`, otherwise exactly one. */
  function Check(ok: bool, field: string, message: string): (r: seq<FieldError>)
    ensures ok <==> r == []
    ensures !ok ==> r == [FieldError(field, message)]
  {
    if ok then [] else [FieldError(field, message)]
  }

  /** The library validators and normalisers the source calls by name. Their
      internals are not modelled; each is an arbitrary total function. */
  datatype Validators = Validators(
    isEmail: string -> bool,
    normalizeEmail: string -> string,
    isUrl: string -> bool,
    isIso8601: string -> bool)

  // ---------------------------------------------------------------------
  // Whitespace and trimming

  /** The white space removed by `String.prototype.trim` and matched by `\s`. */
  predicate IsSpace(c: char)
  {
    c == ' ' || c == '\t' || c == '\n' || c == '\U{000B}' || c == '\U{000C}' || c == '\r'
    || c == '\U{00A0}' || c == '\U{1680}' || ('\U{2000}' <= c <= '\U{200A}')
    || c == '\U{2028}' || c == '\U{2029}' || c == '\U{202F}' || c == '\U{205F}'
    || c == '\U{3000}' || c == '\U{FEFF}'
  }

  predicate AllSpace(s: string)
  {
    forall i :: 0 <= i < |s| ==> IsSpace(s[i])
  }

  /** No white space at either end. */
  predicate Trimmed(s: string)
  {
    s == [] || (!IsSpace(s[0]) && !IsSpace(s[|s| - 1]))
  }

  /** JavaScript `trim()`: white space removed from both ends. */
  function Trim(s: string): (r: string)
    ensures |r| <= |s| && Trimmed(r)
  {
    if s == [] then []
    else if IsSpace(s[0]) then Trim(s[1..])
    else if IsSpace(s[|s| - 1]) then Trim(s[..|s| - 1])
    else s
  }

  /** What `Trim` removes is white space at the two ends and nothing else:
      the result is the infix of `s` at some `i`, with only white space
      before and after it. */
  lemma {:induction false} TrimInfix(s: string) returns (i: nat)
    ensures i + |Trim(s)| <= |s| && Trim(s) == s[i..i + |Trim(s)|]
    ensures forall k :: 0 <= k < i ==> IsSpace(s[k])
    ensures forall k :: i + |Trim(s)| <= k < |s| ==> IsSpace(s[k])
  {
    if s == [] {
      i := 0;
    } else if IsSpace(s[0]) {
      var j := TrimInfix(s[1..]);
      i := j + 1;
      assert forall k :: 1 <= k < |s| ==> s[k] == s[1..][k - 1];
    } else if IsSpace(s[|s| - 1]) {
      i := TrimInfix(s[..|s| - 1]);
      assert forall k :: 0 <= k < |s| - 1 ==> s[k] == s[..|s| - 1][k];
    } else {
      i := 0;
    }
  }

  /** A string with nothing to trim is left as it is. */
  lemma TrimNoop(s: string)
    requires Trimmed(s)
    ensures Trim(s) == s
  {
  }

  /** Trimming twice is trimming once (the store re-trims what the
      validators already trimmed). */
  lemma TrimIdempotent(s: string)
    ensures Trim(Trim(s)) == Trim(s)
  {
    TrimNoop(Trim(s));
  }

  /** A string that is only white space trims to the empty string. */
  lemma {:induction false} TrimAllSpace(s: string)
    requires AllSpace(s)
    ensures Trim(s) == []
  {
    if s != [] {
      TrimAllSpace(s[1..]);
    }
  }

  // ---------------------------------------------------------------------
  // Splitting on one character

  /** JavaScript `s.split(sep)` for a one-character separator: the pieces
      between separators, always at least one. */
  function Split(s: string, sep: char): (r: seq<string>)
    ensures |r| >= 1
    ensures forall k :: 0 <= k < |r| ==> sep !in r[k]
  {
    if s == [] then [""]
    else
      var rest := Split(s[1..], sep);
      if s[0] == sep then [""] + rest
      else [[s[0]] + rest[0]] + rest[1..]
  }

  /** JavaScript `parts.join(sep)`. */
  function Join(parts: seq<string>, sep: char): string
    requires |parts| >= 1
  {
    if |parts| == 1 then parts[0] else parts[0] + [sep] + Join(parts[1..], sep)
  }

  /** Splitting loses nothing: joining the pieces back gives the input. */
  lemma {:induction false} JoinSplit(s: string, sep: char)
    ensures Join(Split(s, sep), sep) == s
  {
    if s != [] {
      var rest := Split(s[1..], sep);
      JoinSplit(s[1..], sep);
      if s[0] != sep && |rest| > 1 {
        assert Split(s, sep)[1..] == rest[1..];
      }
    }
  }

  /** The text before the first `sep`: `s.split(sep)[0]`. */
  function BeforeFirst(s: string, sep: char): (r: string)
    ensures sep !in r
    ensures |r| <= |s| && r == s[..|r|]
    ensures |r| < |s| ==> s[|r|] == sep
  {
    var parts := Split(s, sep);
    JoinSplit(s, sep);
    if |parts| == 1 then parts[0]
    else
      assert s == parts[0] + [sep] + Join(parts[1..], sep);
      parts[0]
  }

  // ---------------------------------------------------------------------
  // Integer text

  predicate IsDigit(c: char) { '0' <= c <= '9' }

  predicate AllDigits(s: string)
  {
    forall i :: 0 <= i < |s| ==> IsDigit(s[i])
  }

  function DigitsValue(s: string): nat
    requires AllDigits(s)
  {
    if s == [] then 0
    else DigitsValue(s[..|s| - 1]) * 10 + (s[|s| - 1] as int - '0' as int)
  }

  function Unsigned(s: string): string
  {
    if |s| > 0 && (s[0] == '+' || s[0] == '-') then s[1..] else s
  }

  /** What validator.js `isInt` accepts when leading zeros are allowed (the
      default): an optional sign followed by at least one digit. */
  predicate IsIntText(s: string)
  {
    var d := Unsigned(s); |d| > 0 && AllDigits(d)
  }

  /** `isInt` on a few telling inputs: leading zeros and a sign are
      accepted; the empty string, a bare sign and a fraction are not. */
  lemma IsIntTextExamples()
    ensures IsIntText("007") && IsIntText("-3") && IsIntText("+12")
    ensures !IsIntText("") && !IsIntText("-") && !IsIntText("1.5") && !IsIntText("1e3")
  {
    assert Unsigned("-3") == "3";
    assert Unsigned("+12") == "12";
    assert Unsigned("-") == "";
    assert !IsDigit("1.5"[1]);
    assert !IsDigit("1e3"[1]);
  }

  /** `parseInt(s)` on a string that `isInt` accepted: the digits' value,
      negated after a minus sign. */
  function IntValue(s: string): (r: int)
    requires IsIntText(s)
    ensures r >= 0 <==> !(s[0] == '-') || DigitsValue(Unsigned(s)) == 0
    ensures r == 0 <==> DigitsValue(Unsigned(s)) == 0
    ensures s[0] != '-' ==> r == DigitsValue(Unsigned(s))
  {
    var v: int := DigitsValue(Unsigned(s));
    if |s| > 0 && s[0] == '-' then -v else v
  }
}
