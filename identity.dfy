/** Identity resolution: the `User-Id` request header becomes an optional
    integer, and a handler accepts the caller only when that integer is
    present and non-zero (the handlers test it with `if not user_id`).

    The header text goes through Python's `int()`: surrounding whitespace
    is stripped, one optional sign is allowed, and the digits may be
    grouped by single underscores (`"1_000"`). */
module Identity {
  import opened Wrappers

  /** The ASCII characters for which Python's `str.isspace()` holds. */
  predicate IsSpace(c: char) {
    (9 <= c as int <= 13) || (28 <= c as int <= 32)
  }

  predicate IsDigit(c: char) {
    '0' <= c <= '9'
  }

  function DigitOf(c: char): nat
    requires IsDigit(c)
  {
    c as int - '0' as int
  }

  function TrimStart(s: string): (r: string)
    ensures |r| <= |s| && r == s[|s| - |r|..]
    ensures r == [] || !IsSpace(r[0])
  {
    if s != [] && IsSpace(s[0]) then TrimStart(s[1..]) else s
  }

  function TrimEnd(s: string): (r: string)
    ensures |r| <= |s| && r == s[..|r|]
    ensures r == [] || !IsSpace(r[|r| - 1])
  {
    if s != [] && IsSpace(s[|s| - 1]) then TrimEnd(s[..|s| - 1]) else s
  }

  /** `str.strip()` restricted to ASCII whitespace. */
  function Strip(s: string): string {
    TrimEnd(TrimStart(s))
  }

  lemma {:induction false} TrimStartAllSpace(s: string)
    ensures TrimStart(s) == [] <==> forall i :: 0 <= i < |s| ==> IsSpace(s[i])
  {
    if s != [] && IsSpace(s[0]) {
      TrimStartAllSpace(s[1..]);
      assert forall i :: 0 <= i < |s[1..]| ==> s[1..][i] == s[i + 1];
      if forall i :: 0 <= i < |s[1..]| ==> IsSpace(s[1..][i]) {
        forall i | 0 <= i < |s| ensures IsSpace(s[i]) {
          if i > 0 {
            assert s[1..][i - 1] == s[i];
          }
        }
      }
    }
  }

  /** `strip()` leaves a stretch of the text with no whitespace at either
      end: empty exactly when the text is all whitespace, and the text
      itself when it has no whitespace at its ends. */
  lemma StripShape(s: string)
    ensures |Strip(s)| <= |s|
    ensures Strip(s) != [] ==> !IsSpace(Strip(s)[0]) && !IsSpace(Strip(s)[|Strip(s)| - 1])
    ensures Strip(s) == [] <==> forall i :: 0 <= i < |s| ==> IsSpace(s[i])
    ensures s != [] && !IsSpace(s[0]) && !IsSpace(s[|s| - 1]) ==> Strip(s) == s
  {
    var t := TrimStart(s);
    var r := TrimEnd(t);
    assert r == [] <==> t == [] by {
      if t != [] {
        TrimEndKeepsFirst(t);
      }
    }
    assert r != [] ==> !IsSpace(r[0]) by {
      if r != [] {
        assert r[0] == t[0];
      }
    }
    TrimStartAllSpace(s);
  }

  /** Trimming the end of text that starts with a non-space leaves it. */
  lemma {:induction false} TrimEndKeepsFirst(t: string)
    requires t != [] && !IsSpace(t[0])
    ensures TrimEnd(t) != []
  {
    if IsSpace(t[|t| - 1]) {
      assert |t| > 1;
      TrimEndKeepsFirst(t[..|t| - 1]);
    }
  }

  /** A digit run as `int()` accepts it: digits and underscores only,
      starting and ending with a digit, never two underscores in a row
      (so every underscore sits between two digits). */
  predicate WellFormedDigits(s: string) {
    && |s| > 0
    && IsDigit(s[0])
    && IsDigit(s[|s| - 1])
    && (forall i :: 0 <= i < |s| ==> IsDigit(s[i]) || s[i] == '_')
    && (forall i, j :: 0 <= i < |s| && 0 <= j < |s| && j == i + 1 ==> IsDigit(s[i]) || IsDigit(s[j]))
  }

  /** The decimal value of the digits of `s`, underscores skipped. */
  function DigitsValue(s: string): nat {
    if s == [] then 0
    else if IsDigit(s[|s| - 1]) then 10 * DigitsValue(s[..|s| - 1]) + DigitOf(s[|s| - 1])
    else DigitsValue(s[..|s| - 1])
  }

  /** `int()` on text already stripped: an optional sign, then digits. */
  function ParseSigned(t: string): (r: Option<int>)
    requires t != []
    ensures r.Some? ==> var at := if t[0] == '-' || t[0] == '+' then 1 else 0; at < |t| && IsDigit(t[at])
  {
    var signed := t[0] == '-' || t[0] == '+';
    var digits := if signed then t[1..] else t;
    if !WellFormedDigits(digits) then None
    else
      var v: int := DigitsValue(digits);
      Some(if t[0] == '-' then -v else v)
  }

  /** `int()` fails on stripped text exactly when what follows the
      optional sign is not a well-formed digit run, and only a leading '-'
      gives a negative value. */
  lemma SignedShape(t: string)
    requires t != []
    ensures ParseSigned(t).Some? <==> WellFormedDigits(if t[0] == '-' || t[0] == '+' then t[1..] else t)
    ensures ParseSigned(t).Some? && t[0] != '-' ==> ParseSigned(t).value >= 0
    ensures ParseSigned(t).Some? && ParseSigned(t).value < 0 ==> t[0] == '-'
  {
  }

  /** Python's `int(text)` on a string: `Some(n)` when it returns `n`,
      `None` when it raises `ValueError`. */
  function ParseInt(text: string): (r: Option<int>)
    ensures Strip(text) == [] ==> r == None
    ensures r.Some? ==> exists i :: 0 <= i < |text| && IsDigit(text[i])
  {
    var t := Strip(text);
    if t == [] then None
    else
      var r := ParseSigned(t);
      assert r.Some? ==> IsDigit(text[|text| - |TrimStart(text)| + (if t[0] == '-' || t[0] == '+' then 1 else 0)]);
      r
  }

  /** `get_current_user_id`: an absent or empty header gives `None`,
      otherwise the header goes through `int()`, whose `ValueError` also
      gives `None`. */
  function CurrentUserId(header: Option<string>): (r: Option<int>)
    ensures header.None? ==> r.None?
    ensures header == Some("") ==> r.None?
    ensures header.Some? ==> r == ParseInt(header.value)
  {
    if header.None? || header.value == "" then None
    else ParseInt(header.value)
  }

  /** The handlers' `if not user_id` test: `None` and `0` are both refused. */
  predicate Authorized(uid: Option<int>) {
    uid.Some? && uid.value != 0
  }

  // ----- the text a client sends: str(n) -----

  function DigitChar(d: nat): (c: char)
    requires d < 10
    ensures IsDigit(c) && DigitOf(c) == d
  {
    ('0' as int + d) as char
  }

  /** The decimal text of a natural number, without leading zeros. */
  function NatText(n: nat): (s: string)
    ensures |s| > 0
    ensures forall i :: 0 <= i < |s| ==> IsDigit(s[i])
  {
    if n < 10 then [DigitChar(n)] else NatText(n / 10) + [DigitChar(n % 10)]
  }

  /** Python's `str(n)` for an integer `n`. */
  function IntText(n: int): string {
    if n < 0 then ['-'] + NatText(-n) else NatText(n)
  }

  lemma {:induction false} NatTextValue(n: nat)
    ensures DigitsValue(NatText(n)) == n
  {
    if n >= 10 {
      var s := NatText(n);
      assert s[..|s| - 1] == NatText(n / 10);
      NatTextValue(n / 10);
    }
  }

  lemma AllDigitsWellFormed(d: string)
    requires |d| > 0 && forall i :: 0 <= i < |d| ==> IsDigit(d[i])
    ensures WellFormedDigits(d)
  {
  }

  lemma ParseStripped(t: string)
    requires t != [] && !IsSpace(t[0]) && !IsSpace(t[|t| - 1])
    ensures ParseInt(t) == ParseSigned(t)
  {
  }

  lemma ParseUnsigned(d: string)
    requires |d| > 0 && forall i :: 0 <= i < |d| ==> IsDigit(d[i])
    ensures ParseInt(d) == Some(DigitsValue(d) as int)
  {
    AllDigitsWellFormed(d);
    ParseStripped(d);
  }

  lemma NegativeSigned(d: string)
    requires |d| > 0 && forall i :: 0 <= i < |d| ==> IsDigit(d[i])
    ensures ParseSigned(['-'] + d) == Some(-(DigitsValue(d) as int))
  {
    var s := ['-'] + d;
    assert s[0] == '-' && s[1..] == d;
    assert WellFormedDigits(s[1..]) by {
      AllDigitsWellFormed(d);
    }
  }

  lemma ParseNegative(d: string)
    requires |d| > 0 && forall i :: 0 <= i < |d| ==> IsDigit(d[i])
    ensures ParseInt(['-'] + d) == Some(-(DigitsValue(d) as int))
  {
    var s := ['-'] + d;
    NegativeSigned(d);
    assert s[|s| - 1] == d[|d| - 1];
    ParseStripped(s);
  }

  /** `int(str(n)) == n`: the identity a client puts in the header is the
      one the server resolves. */
  lemma {:induction false} ParseIntText(n: int)
    ensures ParseInt(IntText(n)) == Some(n)
  {
    var m: nat := if n < 0 then -n else n;
    NatTextValue(m);
    if n < 0 {
      ParseNegative(NatText(m));
    } else {
      ParseUnsigned(NatText(m));
    }
  }

  /** The header that carries `str(n)` resolves to `n`, and the caller is
      accepted exactly when `n` is not zero. */
  lemma HeaderResolves(n: int)
    ensures CurrentUserId(Some(IntText(n))) == Some(n)
    ensures Authorized(CurrentUserId(Some(IntText(n)))) <==> n != 0
  {
    ParseIntText(n);
  }

  /** A header holding only whitespace, or text without any digit, is
      refused. */
  lemma NoDigitRefused(text: string)
    requires forall i :: 0 <= i < |text| ==> !IsDigit(text[i])
    ensures !Authorized(CurrentUserId(Some(text)))
  {
  }
}
