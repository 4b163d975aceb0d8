/** Small building blocks shared by the whole model: an optional value
    (JavaScript's `undefined`/`null`), string truthiness and the decimal
    rendering of naturals used by template literals such as `kv-${i}`. */
module Basics {

  datatype Option<+T> = None | Some(value: T) {
    /** `x ?? d`: the value when present, otherwise the default. */
    function GetOr(default: T): T {
      match this
      case Some(v) => v
      case None => default
    }
  }

  /** A JavaScript string is truthy exactly when it is defined and non-empty. */
  predicate Truthy(s: Option<string>) {
    s.Some? && s.value != ""
  }

  /** `a || b` on optional strings: `a` when it is truthy, otherwise `b`. */
  function OrElse(a: Option<string>, b: Option<string>): (r: Option<string>)
    ensures Truthy(a) ==> r == a
    ensures !Truthy(a) ==> r == b
  {
    if Truthy(a) then a else b
  }

  predicate IsDigit(c: char) {
    '0' <= c <= '9'
  }

  function DigitChar(d: nat): (c: char)
    requires d < 10
    ensures IsDigit(c)
  {
    ['0', '1', '2', '3', '4', '5', '6', '7', '8', '9'][d]
  }

  lemma DigitCharInjective(a: nat, b: nat)
    requires a < 10 && b < 10
    requires DigitChar(a) == DigitChar(b)
    ensures a == b
  {
  }

  /** The decimal spelling of `n`, as `${n}` renders a non-negative integer. */
  function NatToString(n: nat): (s: string)
    ensures |s| >= 1
    ensures forall i :: 0 <= i < |s| ==> IsDigit(s[i])
    decreases n
  {
    if n < 10 then [DigitChar(n)] else NatToString(n / 10) + [DigitChar(n % 10)]
  }

  /** Different numbers have different spellings. */
  lemma {:induction false} NatToStringInjective(a: nat, b: nat)
    requires NatToString(a) == NatToString(b)
    ensures a == b
    decreases a
  {
    var sa, sb := NatToString(a), NatToString(b);
    if a < 10 && b < 10 {
      DigitCharInjective(a, b);
    } else if a >= 10 && b >= 10 {
      var pa, pb := NatToString(a / 10), NatToString(b / 10);
      assert sa == pa + [DigitChar(a % 10)];
      assert sb == pb + [DigitChar(b % 10)];
      assert sa[|sa| - 1] == DigitChar(a % 10);
      DigitCharInjective(a % 10, b % 10);
      assert pa == sa[..|sa| - 1] == sb[..|sb| - 1] == pb;
      NatToStringInjective(a / 10, b / 10);
    }
  }

  predicate NoChar(s: string, c: char) {
    forall i :: 0 <= i < |s| ==> s[i] != c
  }

  /** When two strings end in `sep` followed by a tail free of `sep`, equal
      strings have equal tails: the tail is everything after the last `sep`. */
  lemma LastSegmentDetermined(a: string, ta: string, b: string, tb: string, sep: char)
    requires NoChar(ta, sep) && NoChar(tb, sep)
    requires a + [sep] + ta == b + [sep] + tb
    ensures ta == tb
  {
    var s := a + [sep] + ta;
    if |ta| == |tb| {
      assert ta == s[|s| - |ta|..];
      assert tb == (b + [sep] + tb)[|s| - |tb|..];
    } else if |ta| < |tb| {
      SeparatorAt(a, ta, sep);
      assert false;
    } else {
      SeparatorAt(b, tb, sep);
      assert false;
    }
  }

  lemma SeparatorAt(x: string, t: string, sep: char)
    ensures (x + [sep] + t)[|x|] == sep
  {
  }

  lemma NatToStringHasNoDash(n: nat)
    ensures NoChar(NatToString(n), '-')
  {
    var s := NatToString(n);
    forall i | 0 <= i < |s| ensures s[i] != '-' {
      assert IsDigit(s[i]);
    }
  }
}
