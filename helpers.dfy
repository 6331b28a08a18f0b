/** The string utilities of client/src/utils/helpers.js. */
module Helpers {
  import opened Values
  import Text
  import Seqs

  /** `truncateText(text, length)`: texts up to `length` characters come back
      unchanged, longer ones are cut to `length` characters and get "...".
      `substring` treats a negative length as 0. */
  function TruncateText(text: string, length: int): (r: string)
    ensures |text| <= length ==> r == text
    ensures |text| > length && length >= 0 ==>
      |r| == length + 3 && r[..length] == text[..length] && r[length..] == "..."
    ensures length < 0 ==> r == "..."
    ensures |r| <= if |text| <= length then |text| else (if length < 0 then 0 else length) + 3
  {
    if |text| <= length then text
    else
      var n := if length < 0 then 0 else length;
      text[..n] + "..."
  }

  /** The characters JavaScript's `\s` class matches. */
  predicate IsSpace(c: char)
  {
    c in {'\t', '\n', '\U{B}', '\U{C}', '\r', ' ', '\U{A0}', '\U{1680}', '\U{2028}',
          '\U{2029}', '\U{202F}', '\U{205F}', '\U{3000}', '\U{FEFF}'}
    || ('\U{2000}' <= c <= '\U{200A}')
  }

  /** The class `[^\s@]`. */
  predicate Plain(c: char)
  {
    c != '@' && !IsSpace(c)
  }

  predicate AllPlain(s: string)
  {
    forall k :: 0 <= k < |s| ==> Plain(s[k])
  }

  /** What `/^[^\s@]+@[^\s@]+\.[^\s@]+$/` matches: a non-empty plain local
      part, one '@', a non-empty plain name, a '.', and a non-empty plain rest. */
  ghost predicate EmailShape(e: string)
  {
    exists i, j :: 0 < i && i + 1 < j && j + 1 < |e| && e[i] == '@' && e[j] == '.'
      && AllPlain(e[..i]) && AllPlain(e[i + 1..j]) && AllPlain(e[j + 1..])
  }

  /** Index of the first `c` in `s`, or `|s|` when there is none. */
  function IndexOf(s: string, c: char): (k: nat)
    ensures k <= |s|
    ensures k < |s| ==> s[k] == c
    ensures forall m :: 0 <= m < k ==> s[m] != c
  {
    if s == [] then 0
    else if s[0] == c then 0
    else 1 + IndexOf(s[1..], c)
  }

  lemma {:induction false} IndexOfFirst(s: string, c: char, i: nat)
    requires i < |s| && s[i] == c && forall m :: 0 <= m < i ==> s[m] != c
    ensures IndexOf(s, c) == i
  {
    if i > 0 {
      IndexOfFirst(s[1..], c, i - 1);
    }
  }

  /** `validateEmail(email)`, computed the way the regular expression is
      matched: locate the '@', check both sides, then look for an inner '.'
      in the domain. */
  function ValidateEmail(email: string): bool
  {
    var a := IndexOf(email, '@');
    0 < a < |email| && AllPlain(email[..a]) && DomainOk(email[a + 1..])
  }

  /** The part after the '@': plain characters with a '.' that is neither
      first nor last. */
  predicate DomainOk(d: string)
  {
    AllPlain(d) && |d| >= 3 && '.' in d[1..|d| - 1]
  }

  lemma AllPlainSlice(s: string, lo: int, hi: int)
    requires 0 <= lo <= hi <= |s| && AllPlain(s)
    ensures AllPlain(s[lo..hi])
  {
    assert forall k :: 0 <= k < hi - lo ==> s[lo..hi][k] == s[lo + k];
  }

  lemma AllPlainConcat(a: string, b: string)
    requires AllPlain(a) && AllPlain(b)
    ensures AllPlain(a + b)
  {
    assert forall k :: 0 <= k < |a + b| ==> (a + b)[k] == if k < |a| then a[k] else b[k - |a|];
  }

  /** Every string `validateEmail` accepts has the shape of the regular expression. */
  lemma ValidateEmailSound(e: string)
    requires ValidateEmail(e)
    ensures EmailShape(e)
  {
    var a := IndexOf(e, '@');
    var d := e[a + 1..];
    var m :| 0 <= m < |d[1..|d| - 1]| && d[1..|d| - 1][m] == '.';
    var j := a + 2 + m;
    assert e[j] == d[m + 1] == '.';
    assert e[a + 1..j] == d[..m + 1];
    assert e[j + 1..] == d[m + 2..];
    AllPlainSlice(d, 0, m + 1);
    AllPlainSlice(d, m + 2, |d|);
    assert d[m + 2..|d|] == d[m + 2..];
    assert 0 < a && a + 1 < j && j + 1 < |e| && e[a] == '@' && e[j] == '.'
      && AllPlain(e[..a]) && AllPlain(e[a + 1..j]) && AllPlain(e[j + 1..]);
  }

  /** Every string of the regular expression's shape is accepted. */
  lemma ValidateEmailComplete(e: string)
    requires EmailShape(e)
    ensures ValidateEmail(e)
  {
    var i, j :| 0 < i && i + 1 < j && j + 1 < |e| && e[i] == '@' && e[j] == '.'
      && AllPlain(e[..i]) && AllPlain(e[i + 1..j]) && AllPlain(e[j + 1..]);
    NoAtIn(e, i);
    IndexOfFirst(e, '@', i);
    DomainOfShape(e[i + 1..j], e[j + 1..]);
    SplitAround(e, i + 1, j);
  }

  lemma NoAtIn(e: string, i: nat)
    requires i <= |e| && AllPlain(e[..i])
    ensures forall m :: 0 <= m < i ==> e[m] != '@'
  {
    assert forall m :: 0 <= m < i ==> e[m] == e[..i][m];
  }

  lemma SplitAround(e: string, lo: nat, j: nat)
    requires lo <= j < |e|
    ensures e[lo..] == e[lo..j] + [e[j]] + e[j + 1..]
  {
  }

  lemma DomainOfShape(name: string, rest: string)
    requires |name| > 0 && |rest| > 0 && AllPlain(name) && AllPlain(rest)
    ensures DomainOk(name + ['.'] + rest)
  {
    var d := name + ['.'] + rest;
    AllPlainConcat(name, ['.']);
    AllPlainConcat(name + ['.'], rest);
    assert d[1..|d| - 1][|name| - 1] == '.';
  }

  /** `validateEmail` accepts exactly the strings the regular expression describes. */
  lemma ValidateEmailIff(email: string)
    ensures ValidateEmail(email) <==> EmailShape(email)
  {
    if ValidateEmail(email) {
      ValidateEmailSound(email);
    }
    if EmailShape(email) {
      ValidateEmailComplete(email);
    }
  }

  /** `phone.replace(/\D/g, '')`: the decimal digits of `phone`, in order. */
  function DigitsOnly(phone: string): (r: string)
    ensures forall k :: 0 <= k < |r| ==> Text.IsDigit(r[k])
  {
    if phone == [] then ""
    else (if Text.IsDigit(phone[0]) then [phone[0]] else "") + DigitsOnly(phone[1..])
  }

  /** Stripping keeps the digits of `phone` and nothing else, in their
      order: it is `phone` filtered by the digit test. */
  lemma {:induction false} DigitsOnlyFilter(phone: string)
    ensures DigitsOnly(phone) == Seqs.Filter(phone, Text.IsDigit)
  {
    if phone != [] {
      DigitsOnlyFilter(phone[1..]);
    }
  }

  /** Number of decimal digits in `s`. */
  function DigitCount(s: string): nat
  {
    if s == [] then 0 else (if Text.IsDigit(s[0]) then 1 else 0) + DigitCount(s[1..])
  }

  /** `validatePhone(phone)`: strip the non-digits, then test `/^[0-9]{10}$/`. */
  function ValidatePhone(phone: string): (ok: bool)
    ensures ok <==> DigitCount(phone) == 10
  {
    var d := DigitsOnly(phone);
    DigitsOnlyLength(phone);
    |d| == 10 && forall k :: 0 <= k < |d| ==> Text.IsDigit(d[k])
  }

  lemma {:induction false} DigitsOnlyLength(phone: string)
    ensures |DigitsOnly(phone)| == DigitCount(phone)
  {
    if phone != [] {
      DigitsOnlyLength(phone[1..]);
    }
  }

  /** The parts of an axios error that `getErrorMessage` looks at. */
  datatype ResponseData = ResponseData(message: Option<string>)
  datatype ErrorResponse = ErrorResponse(data: Option<ResponseData>)
  datatype AppError = AppError(response: Option<ErrorResponse>, message: Option<string>)

  const DefaultErrorMessage := "An unexpected error occurred"

  /** A string property is truthy when present and non-empty. */
  predicate Truthy(s: Option<string>)
  {
    s.Some? && s.value != ""
  }

  function ResponseMessage(e: AppError): Option<string>
  {
    if e.response.Some? && e.response.value.data.Some? then e.response.value.data.value.message
    else None
  }

  /** `getErrorMessage(error)`: the server's message if any, else the error's
      own message, else the fixed fallback text; the result is never empty. */
  function GetErrorMessage(e: AppError): (m: string)
    ensures Truthy(ResponseMessage(e)) ==> m == ResponseMessage(e).value
    ensures !Truthy(ResponseMessage(e)) && Truthy(e.message) ==> m == e.message.value
    ensures !Truthy(ResponseMessage(e)) && !Truthy(e.message) ==> m == DefaultErrorMessage
    ensures m != ""
  {
    if Truthy(ResponseMessage(e)) then ResponseMessage(e).value
    else if Truthy(e.message) then e.message.value
    else DefaultErrorMessage
  }

  /** `isEmpty(obj)`: `Object.keys(obj).length === 0`. */
  function IsEmpty<V>(obj: map<string, V>): (r: bool)
    ensures r <==> forall k :: k !in obj
  {
    |obj.Keys| == 0
  }
}
