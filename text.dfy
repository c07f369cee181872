/** String helpers with JavaScript's meaning: `trim`, the blank test the
    forms apply to list entries, ASCII lower-casing for the e-mail search,
    `includes`, and the decimal rendering of an integer. */
module Text {
  import opened Wrappers
  import opened Seqs

  /** The value of an `<input type="number">` as the page reads it: `None` while
      the field is empty, otherwise the number typed (integral, or in hundredths
      where the input has `step="0.01"`). */
  type NumberInput = Option<int>

  /** The `required` and `min: 0` rules of a number input. */
  predicate NonNegativeInput(n: NumberInput)
  {
    n.Some? && n.value >= 0
  }

  /** The characters `String.prototype.trim` removes: ECMAScript WhiteSpace
      (tab, vertical tab, form feed, space, no-break space, byte order mark and
      the Unicode space separators) and LineTerminator (LF, CR, LS, PS). */
  predicate IsJsWhitespace(c: char)
  {
    c == '\t' || c == '\U{000B}' || c == '\U{000C}' || c == ' ' || c == '\U{00A0}' || c == '\U{FEFF}' ||
    c == '\U{1680}' || ('\U{2000}' <= c <= '\U{200A}') || c == '\U{202F}' || c == '\U{205F}' || c == '\U{3000}' ||
    c == '\n' || c == '\r' || c == '\U{2028}' || c == '\U{2029}'
  }

  function TrimStart(s: string): (r: string)
    ensures r == [] || !IsJsWhitespace(r[0])
  {
    if s != [] && IsJsWhitespace(s[0]) then TrimStart(s[1..]) else s
  }

  function TrimEnd(s: string): (r: string)
    ensures r == [] || !IsJsWhitespace(r[|r| - 1])
  {
    if s != [] && IsJsWhitespace(s[|s| - 1]) then TrimEnd(s[..|s| - 1]) else s
  }

  /** `s.trim()`. */
  function Trim(s: string): string
  {
    TrimEnd(TrimStart(s))
  }

  /** An entry the forms discard: `entry.trim() === ''`. */
  predicate IsBlank(s: string)
  {
    Trim(s) == ""
  }

  predicate NotBlank(s: string)
  {
    !IsBlank(s)
  }

  lemma {:induction false} TrimStartEmpty(s: string)
    ensures TrimStart(s) == "" <==> forall i :: 0 <= i < |s| ==> IsJsWhitespace(s[i])
  {
    if s != [] && IsJsWhitespace(s[0]) {
      TrimStartEmpty(s[1..]);
      assert forall i :: 1 <= i < |s| ==> s[i] == s[1..][i - 1];
    }
  }

  /** TrimEnd only removes a suffix: a non-blank first character survives it. */
  lemma {:induction false} TrimEndKeepsHead(s: string)
    requires s != [] && !IsJsWhitespace(s[0])
    ensures TrimEnd(s) != []
  {
    if IsJsWhitespace(s[|s| - 1]) {
      TrimEndKeepsHead(s[..|s| - 1]);
    }
  }

  /** An entry is blank exactly when every character of it is whitespace. */
  lemma BlankIffAllWhitespace(s: string)
    ensures IsBlank(s) <==> forall i :: 0 <= i < |s| ==> IsJsWhitespace(s[i])
  {
    TrimStartEmpty(s);
    if TrimStart(s) != "" {
      TrimEndKeepsHead(TrimStart(s));
    }
  }

  /** The saved form of a list field: `xs.filter(x => x.trim() !== '')`. */
  function StripBlank(xs: seq<string>): (r: seq<string>)
    ensures |r| <= |xs|
    ensures forall s :: s in r <==> s in xs && !IsBlank(s)
    ensures forall s :: multiset(r)[s] == if IsBlank(s) then 0 else multiset(xs)[s]
    ensures SubsequenceOf(r, xs)
  {
    FilterMultiset(NotBlank, xs);
    FilterSubsequence(NotBlank, xs);
    Filter(NotBlank, xs)
  }

  /** A one-character entry that is not whitespace is kept. */
  lemma CharNotBlank(c: char)
    requires !IsJsWhitespace(c)
    ensures NotBlank([c])
  {
    assert TrimStart([c]) == [c];
    assert TrimEnd([c]) == [c];
  }

  /** The filter behind `StripBlank` on the example list, one element at a time. */
  lemma FilterBlankExample()
    ensures Filter(NotBlank, ["A", "", "B"]) == ["A", "B"]
  {
    CharNotBlank('A');
    CharNotBlank('B');
    assert IsBlank("");
    var none: seq<string> := [];
    assert ["B"][1..] == none;
    assert Filter(NotBlank, ["B"]) == ["B"];
    assert ["", "B"][1..] == ["B"];
    assert Filter(NotBlank, ["", "B"]) == ["B"];
    var xs: seq<string> := ["A", "", "B"];
    assert xs[1..] == ["", "B"];
  }

  /** The example of the report forms: `["A", "", "B"]` is saved as `["A", "B"]`. */
  lemma StripBlankExample()
    ensures StripBlank(["A", "", "B"]) == ["A", "B"]
  {
    FilterBlankExample();
  }

  /** A list without blank entries is saved unchanged, and stripping twice is stripping once. */
  lemma StripBlankIdempotent(xs: seq<string>)
    ensures StripBlank(StripBlank(xs)) == StripBlank(xs)
    ensures (forall i :: 0 <= i < |xs| ==> !IsBlank(xs[i])) ==> StripBlank(xs) == xs
  {
    var r := StripBlank(xs);
    assert forall i :: 0 <= i < |r| ==> NotBlank(r[i]) by {
      forall i | 0 <= i < |r| ensures NotBlank(r[i]) {
        assert r[i] in r;
      }
    }
  }

  /** `[...xs, '', '', ''].slice(0, 3)`: exactly three entries, the first
      min(|xs|, 3) taken from `xs` and the rest empty. */
  function PadOrTruncate3(xs: seq<string>): (r: seq<string>)
    ensures |r| == 3
    ensures forall i :: 0 <= i < 3 ==> r[i] == if i < |xs| then xs[i] else ""
  {
    (xs + ["", "", ""])[..3]
  }

  /** Editing and saving a list of at most three non-blank entries gives the list back. */
  lemma {:induction false} PadThenStrip(xs: seq<string>)
    requires |xs| <= 3
    requires forall i :: 0 <= i < |xs| ==> !IsBlank(xs[i])
    ensures StripBlank(PadOrTruncate3(xs)) == xs
  {
    var pad := ["", "", ""][..3 - |xs|];
    assert PadOrTruncate3(xs) == xs + pad;
    assert Filter(NotBlank, pad) == [] by {
      assert forall i :: 0 <= i < |pad| ==> pad[i] == "";
      assert IsBlank("");
      FilterRejectsAll(NotBlank, pad);
    }
    assert Filter(NotBlank, xs) == xs by {
      assert forall i :: 0 <= i < |xs| ==> NotBlank(xs[i]);
    }
    FilterConcat(NotBlank, xs, pad);
    assert xs + [] == xs;
  }

  function LowerChar(c: char): char
  {
    if 'A' <= c <= 'Z' then (c as int + 32) as char else c
  }

  /** `s.toLowerCase()` restricted to ASCII letters. */
  function ToLowerAscii(s: string): (r: string)
    ensures |r| == |s|
    ensures forall i :: 0 <= i < |s| ==> r[i] == LowerChar(s[i])
  {
    seq(|s|, i requires 0 <= i < |s| => LowerChar(s[i]))
  }

  /** `s.includes(t)`: `t` occurs in `s` at some position. */
  predicate Contains(s: string, t: string)
  {
    exists i | 0 <= i <= |s| - |t| :: OccursAt(s, t, i)
  }

  predicate OccursAt(s: string, t: string, i: int)
  {
    0 <= i <= |s| - |t| && s[i..i + |t|] == t
  }

  /** Every string includes the empty string. */
  lemma ContainsEmpty(s: string)
    ensures Contains(s, "")
  {
    assert OccursAt(s, "", 0);
  }

  function DigitChar(d: int): char
    requires 0 <= d < 10
  {
    ('0' as int + d) as char
  }

  /** The number a string of decimal digits stands for, most significant digit first. */
  function DigitsValue(s: string): nat
    requires forall i :: 0 <= i < |s| ==> '0' <= s[i] <= '9'
  {
    if s == [] then 0 else DigitsValue(s[..|s| - 1]) * 10 + (s[|s| - 1] as int - '0' as int)
  }

  /** The decimal digits of `n`, without leading zeros. */
  function NatToString(n: nat): (r: string)
    ensures |r| >= 1
    ensures forall i :: 0 <= i < |r| ==> '0' <= r[i] <= '9'
    ensures r[0] == '0' <==> n == 0
  {
    if n < 10 then [DigitChar(n)] else NatToString(n / 10) + [DigitChar(n % 10)]
  }

  /** The digits stand for `n`. */
  lemma {:induction false} NatToStringValue(n: nat)
    ensures DigitsValue(NatToString(n)) == n
  {
    if n >= 10 {
      NatToStringValue(n / 10);
      var r := NatToString(n);
      assert r[..|r| - 1] == NatToString(n / 10);
    }
  }

  /** `String(n)` for an integral number: a minus sign exactly for negative
      numbers, in front, then the digits of the magnitude. */
  function IntToString(n: int): (r: string)
    ensures |r| >= 1
    ensures forall i :: 0 <= i < |r| ==> r[i] == '-' || '0' <= r[i] <= '9'
    ensures forall i :: 1 <= i < |r| ==> '0' <= r[i] <= '9'
    ensures (r[0] == '-') <==> n < 0
    ensures n < 0 ==> |r| >= 2
  {
    if n < 0 then "-" + NatToString(-n) else NatToString(n)
  }

  /** The digits after the optional sign stand for the magnitude of `n`. */
  lemma IntToStringValue(n: int)
    ensures n < 0 ==> DigitsValue(IntToString(n)[1..]) == -n
    ensures n >= 0 ==> DigitsValue(IntToString(n)) == n
  {
    if n < 0 {
      NatToStringValue(-n);
      assert IntToString(n)[1..] == NatToString(-n);
    } else {
      NatToStringValue(n);
    }
  }
}
