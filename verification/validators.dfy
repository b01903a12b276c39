/** Chilean RUT handling (cleaning, formatting, the modulo-11 check digit, validation) and
    the e-mail shape check used by the registration forms. */
module Validators {
  import opened Wrappers
  import opened Strings

  // ---------------------------------------------------------------- cleaning

  /** The characters `clean_rut` keeps: ASCII digits and the letter K in either case. */
  predicate IsRutChar(c: char) { IsDigit(c) || c == 'k' || c == 'K' }

  predicate AllRutChars(s: string) { forall i :: 0 <= i < |s| ==> IsRutChar(s[i]) }

  /** Deleting every character outside `[0-9kK]`, keeping the order of the rest. */
  function KeepRutChars(s: string): (r: string)
    ensures AllRutChars(r) && |r| <= |s|
    ensures AllRutChars(s) ==> r == s
  {
    if s == [] then []
    else (if IsRutChar(s[0]) then [s[0]] else []) + KeepRutChars(s[1..])
  }

  /** Filtering distributes over concatenation. */
  lemma {:induction false} KeepRutCharsAppend(a: string, b: string)
    ensures KeepRutChars(a + b) == KeepRutChars(a) + KeepRutChars(b)
    decreases |a|
  {
    if a == [] {
      assert a + b == b;
    } else {
      var ab := a + b;
      var first := if IsRutChar(a[0]) then [a[0]] else [];
      assert ab[0] == a[0];
      assert ab[1..] == a[1..] + b;
      KeepRutCharsAppend(a[1..], b);
      assert KeepRutChars(ab) == first + KeepRutChars(ab[1..]);
      assert KeepRutChars(a) == first + KeepRutChars(a[1..]);
    }
  }

  /** `clean_rut`: '' for a missing or empty value, otherwise the value filtered. */
  function CleanRut(rut: Option<string>): (r: string)
    ensures AllRutChars(r)
    ensures !Truthy(rut) ==> r == ""
    ensures Truthy(rut) ==> r == KeepRutChars(rut.value)
  {
    if !Truthy(rut) then "" else KeepRutChars(rut.value)
  }

  /** Cleaning a clean RUT changes nothing. */
  lemma CleanRutIdempotent(rut: Option<string>)
    ensures CleanRut(Some(CleanRut(rut))) == CleanRut(rut)
  {
  }

  // ---------------------------------------------------------------- formatting

  /** Thousands grouping: a dot before every third digit counted from the right. */
  function Group3(t: string): string
    decreases |t|
  {
    if |t| <= 3 then t else Group3(t[..|t| - 3]) + "." + t[|t| - 3..]
  }

  /** The separator that goes after a digit followed by `n` more digits. */
  function SeparatorAfter(n: nat): string {
    if n > 0 && n % 3 == 0 then "." else ""
  }

  /** Separators repeat every three digits. */
  lemma SeparatorPeriodic(n: nat)
    requires n > 3
    ensures SeparatorAfter(n - 3) == SeparatorAfter(n)
  {
    assert (n - 3) % 3 == n % 3;
  }

  /** Adding one digit on the left of a grouped number: the step `format_rut` takes. */
  lemma {:induction false} Group3Prepend(c: char, t: string)
    ensures Group3([c] + t) == [c] + SeparatorAfter(|t|) + Group3(t)
    decreases |t|, 1
  {
    var u := [c] + t;
    if |t| > 3 {
      Group3PrependLong(c, t);
    } else if |t| == 3 {
      assert u[..|u| - 3] == [c] && u[|u| - 3..] == t;
    } else {
      assert Group3(u) == u;
    }
  }

  /** The case of `Group3Prepend` with more than three digits: the last group is split off
      on both sides and the rest follows by induction. */
  lemma {:induction false} Group3PrependLong(c: char, t: string)
    requires |t| > 3
    ensures Group3([c] + t) == [c] + SeparatorAfter(|t|) + Group3(t)
    decreases |t|, 0
  {
    var u := [c] + t;
    var head, tail := t[..|t| - 3], t[|t| - 3..];
    var sep := SeparatorAfter(|t|);
    calc {
      Group3(u);
    ==  { assert u[..|u| - 3] == [c] + head && u[|u| - 3..] == tail; }
      Group3([c] + head) + "." + tail;
    ==  { Group3Prepend(c, head); SeparatorPeriodic(|t|); }
      ([c] + sep + Group3(head)) + "." + tail;
    ==  { RegroupAppend([c] + sep, Group3(head), ".", tail); }
      [c] + sep + (Group3(head) + "." + tail);
    ==  { assert t[..|t| - 3] == head && t[|t| - 3..] == tail; }
      [c] + sep + Group3(t);
    }
  }

  /** Moving the brackets of a four-part concatenation. */
  lemma RegroupAppend(p: string, g: string, d: string, t: string)
    ensures ((p + g) + d) + t == p + ((g + d) + t)
  {
  }

  /** Grouping inserts exactly one dot per complete group of three beyond the first. */
  lemma {:induction false} Group3Length(t: string)
    requires |t| > 0
    ensures |Group3(t)| == |t| + (|t| - 1) / 3
    decreases |t|
  {
    if |t| > 3 {
      Group3Length(t[..|t| - 3]);
    }
  }

  /** The dots grouping adds are exactly what cleaning removes. */
  lemma {:induction false} Group3Clean(t: string)
    ensures KeepRutChars(Group3(t)) == KeepRutChars(t)
    decreases |t|
  {
    if |t| > 3 {
      var head, tail := t[..|t| - 3], t[|t| - 3..];
      calc {
        KeepRutChars(Group3(t));
        { assert Group3(t) == (Group3(head) + ".") + tail; }
        KeepRutChars((Group3(head) + ".") + tail);
        { KeepRutCharsAppend(Group3(head) + ".", tail); }
        KeepRutChars(Group3(head) + ".") + KeepRutChars(tail);
        { KeepRutCharsAppend(Group3(head), "."); assert KeepRutChars(".") == []; }
        KeepRutChars(Group3(head)) + KeepRutChars(tail);
        { Group3Clean(head); }
        KeepRutChars(head) + KeepRutChars(tail);
        { KeepRutCharsAppend(head, tail); assert head + tail == t; }
        KeepRutChars(t);
      }
    }
  }

  /** One step of the loop below: the digit `i` places from the right end goes in front of
      the grouped digits after it, with a dot between when `i` is a positive multiple of 3. */
  lemma DotStep(num: string, i: nat)
    requires i < |num|
    ensures Group3(num[|num| - (i + 1)..]) == [num[|num| - 1 - i]] + SeparatorAfter(i) + Group3(num[|num| - i..])
  {
    var done := num[|num| - i..];
    Group3Prepend(num[|num| - 1 - i], done);
    assert [num[|num| - 1 - i]] + done == num[|num| - (i + 1)..];
  }

  /** The loop of `format_rut`: walk the digits from the right, putting a dot in front before
      every digit whose position from the right is a positive multiple of three. */
  method DotGroups(num: string) returns (formatted: string)
    ensures formatted == Group3(num)
    ensures |num| > 0 ==> |formatted| == |num| + (|num| - 1) / 3
    ensures KeepRutChars(formatted) == KeepRutChars(num)
  {
    formatted := "";
    var i := 0;
    while i < |num|
      invariant 0 <= i <= |num|
      invariant formatted == Group3(num[|num| - i..])
    {
      var digit := num[|num| - 1 - i];
      ghost var grouped := formatted;
      if i > 0 && i % 3 == 0 {
        formatted := "." + formatted;
      }
      assert formatted == SeparatorAfter(i) + grouped;
      formatted := [digit] + formatted;
      assert formatted == Group3(num[|num| - (i + 1)..]) by {
        DotStep(num, i);
        assert [digit] + (SeparatorAfter(i) + grouped) == [digit] + SeparatorAfter(i) + grouped;
      }
      i := i + 1;
    }
    assert num[|num| - i..] == num;
    if |num| > 0 {
      Group3Length(num);
    }
    Group3Clean(num);
  }

  /** The RUT with its check character upper-cased, which is what formatting keeps. */
  function UpperLast(clean: string): (r: string)
    ensures |r| == |clean|
  {
    if clean == "" then "" else clean[..|clean| - 1] + [UpperAscii(clean[|clean| - 1])]
  }

  /** `format_rut`: 'XX.XXX.XXX-D' from whatever `clean_rut` keeps; '' when nothing is kept. */
  function FormatRut(rut: Option<string>): (r: string)
    ensures r == "" <==> CleanRut(rut) == ""
    ensures var clean := CleanRut(rut);
      clean != "" ==>
        && |r| >= 2 && r[|r| - 2..] == "-" + [UpperAscii(clean[|clean| - 1])]
        && KeepRutChars(r[..|r| - 2]) == clean[..|clean| - 1]
  {
    var clean := CleanRut(rut);
    if clean == "" then ""
    else
      var num := clean[..|clean| - 1];
      assert AllRutChars(num) by { assert AllRutChars(clean); }
      Group3Clean(num);
      var r := Group3(num) + "-" + [UpperAscii(clean[|clean| - 1])];
      assert r[..|r| - 2] == Group3(num);
      r
  }

  /** Cleaning a formatted RUT gives back the cleaned input, check character upper-cased. */
  lemma FormatRutRoundTrip(rut: Option<string>)
    ensures CleanRut(Some(FormatRut(rut))) == UpperLast(CleanRut(rut))
  {
    var clean := CleanRut(rut);
    if clean != "" {
      var num, dv := clean[..|clean| - 1], UpperAscii(clean[|clean| - 1]);
      assert IsRutChar(clean[|clean| - 1]);
      assert AllRutChars(num);
      CleanFormatted(num, dv);
      assert FormatRut(rut) == Group3(num) + "-" + [dv];
    }
  }

  /** Cleaning 'grouped digits, dash, check character' keeps the digits and the character. */
  lemma CleanFormatted(num: string, dv: char)
    requires AllRutChars(num) && IsRutChar(dv)
    ensures KeepRutChars(Group3(num) + "-" + [dv]) == num + [dv]
  {
    calc {
      KeepRutChars(Group3(num) + "-" + [dv]);
      { KeepRutCharsAppend(Group3(num) + "-", [dv]); }
      KeepRutChars(Group3(num) + "-") + KeepRutChars([dv]);
      { KeepRutCharsAppend(Group3(num), "-"); assert KeepRutChars("-") == []; }
      KeepRutChars(Group3(num)) + KeepRutChars([dv]);
      { Group3Clean(num); assert KeepRutChars([dv]) == [dv]; }
      num + [dv];
    }
  }

  /** Formatting an already formatted RUT changes nothing. */
  lemma FormatRutIdempotent(rut: Option<string>)
    ensures FormatRut(Some(FormatRut(rut))) == FormatRut(rut)
  {
    FormatRutRoundTrip(rut);
    var clean := CleanRut(rut);
    if clean != "" {
      var up := UpperLast(clean);
      assert up[..|up| - 1] == clean[..|clean| - 1];
    }
  }

  // ---------------------------------------------------------------- check digit

  const FACTORS: seq<nat> := [2, 3, 4, 5, 6, 7]

  /** The modulo-11 weighted sum: the digit `k` places from the right end of `num` (counting
      from `start`) is weighted by the factor cycle 2, 3, 4, 5, 6, 7, 2, ... */
  function WeightedSum(num: string, start: nat): nat
    requires AllDigits(num)
    decreases |num|
  {
    if num == [] then 0
    else DigitValue(num[|num| - 1]) * FACTORS[start % 6] + WeightedSum(num[..|num| - 1], start + 1)
  }

  /** The characters a check digit can be. */
  predicate IsCheckChar(c: char) { IsDigit(c) || c == 'K' }

  /** The value a check character stands for: its digit, or 10 for K. */
  function CheckValue(c: char): (v: nat)
    requires IsCheckChar(c)
    ensures v <= 10
  {
    if c == 'K' then 10 else DigitValue(c)
  }

  /** `calculate_rut_dv`: the check character that brings the weighted sum to a multiple
      of 11. */
  function CalculateRutDv(num: string): (dv: char)
    requires AllDigits(num)
    ensures IsCheckChar(dv)
    ensures (WeightedSum(num, 0) + CheckValue(dv)) % 11 == 0
  {
    var remainder := 11 - WeightedSum(num, 0) % 11;
    if remainder == 11 then '0'
    else if remainder == 10 then 'K'
    else DigitChar(remainder)
  }

  /** Only one check character completes a given sum, so the computed one is the only one
      a valid RUT can carry. */
  lemma CheckDigitUnique(num: string, c: char)
    requires AllDigits(num) && IsCheckChar(c)
    ensures (WeightedSum(num, 0) + CheckValue(c)) % 11 == 0 <==> c == CalculateRutDv(num)
  {
    var s := WeightedSum(num, 0);
    var d := CalculateRutDv(num);
    if (s + CheckValue(c)) % 11 == 0 {
      assert (CheckValue(c) - CheckValue(d)) % 11 == 0;
      assert CheckValue(c) == CheckValue(d);
    }
  }

  // ---------------------------------------------------------------- validation

  datatype RutError = RutRequired | RutTooShort | RutBadFormat | RutBadLength | RutBadCheckDigit(expected: char)

  /** The message each failure reports. */
  function RutMessage(e: RutError): string {
    match e
    case RutRequired => "RUT es requerido"
    case RutTooShort => "RUT debe tener al menos 2 caracteres"
    case RutBadFormat => "RUT tiene formato inválido"
    case RutBadLength => "RUT debe tener entre 7 y 8 dígitos"
    case RutBadCheckDigit(expected) => "Dígito verificador inválido. Debería ser " + [expected]
  }

  /** What a valid RUT is, on its cleaned form: 7 or 8 digits then the matching check
      character, K accepted in either case. */
  predicate WellFormedRut(clean: string) {
    && 8 <= |clean| <= 9
    && AllDigits(clean[..|clean| - 1])
    && IsRutChar(clean[|clean| - 1])
    && UpperAscii(clean[|clean| - 1]) == CalculateRutDv(clean[..|clean| - 1])
  }

  /** `validate_rut`, returning the first failed check. */
  function ValidateRut(rut: Option<string>): (r: Outcome<RutError>)
    ensures r.Pass? <==> WellFormedRut(CleanRut(rut))
    ensures r == Fail(RutRequired) <==> !Truthy(rut)
    ensures var clean := CleanRut(rut);
      && (r == Fail(RutTooShort) <==> Truthy(rut) && |clean| < 2)
      && (r == Fail(RutBadFormat) <==> Truthy(rut) && |clean| >= 2 && !AllDigits(clean[..|clean| - 1]))
      && (r == Fail(RutBadLength) <==>
            Truthy(rut) && |clean| >= 2 && AllDigits(clean[..|clean| - 1]) && !(8 <= |clean| <= 9))
      && (r.Fail? && r.error.RutBadCheckDigit? <==>
            && Truthy(rut) && 8 <= |clean| <= 9 && AllDigits(clean[..|clean| - 1])
            && UpperAscii(clean[|clean| - 1]) != CalculateRutDv(clean[..|clean| - 1]))
      && (r.Fail? && r.error.RutBadCheckDigit? ==> r.error.expected == CalculateRutDv(clean[..|clean| - 1]))
  {
    if !Truthy(rut) then Fail(RutRequired)
    else
      var clean := CleanRut(rut);
      if |clean| < 2 then Fail(RutTooShort)
      else if !AllDigits(clean[..|clean| - 1]) then Fail(RutBadFormat)
      else
        var number := clean[..|clean| - 1];
        if |number| < 7 || |number| > 8 then Fail(RutBadLength)
        else
          var expected := CalculateRutDv(number);
          if expected != UpperAscii(clean[|clean| - 1]) then Fail(RutBadCheckDigit(expected))
          else Pass
  }

  /** A RUT fails the check digit test exactly when its last character is not the computed
      one, and the message names the computed one. */
  lemma BadCheckDigitNamesExpected(rut: Option<string>)
    requires Truthy(rut) && ValidateRut(rut).Fail? && ValidateRut(rut).error.RutBadCheckDigit?
    ensures var clean := CleanRut(rut);
      ValidateRut(rut).error.expected == CalculateRutDv(clean[..|clean| - 1]) &&
      (WeightedSum(clean[..|clean| - 1], 0) + CheckValue(UpperAscii(clean[|clean| - 1]))) % 11 != 0
  {
    var clean := CleanRut(rut);
    assert AllRutChars(clean);
    CheckCharMismatch(clean);
  }

  /** The check-digit test on a cleaned RUT whose last character is not the computed one. */
  lemma CheckCharMismatch(clean: string)
    requires 8 <= |clean| <= 9 && AllDigits(clean[..|clean| - 1]) && IsRutChar(clean[|clean| - 1])
    requires UpperAscii(clean[|clean| - 1]) != CalculateRutDv(clean[..|clean| - 1])
    ensures (WeightedSum(clean[..|clean| - 1], 0) + CheckValue(UpperAscii(clean[|clean| - 1]))) % 11 != 0
  {
    CheckDigitUnique(clean[..|clean| - 1], UpperAscii(clean[|clean| - 1]));
  }

  /** Formatting keeps a RUT's validity: the stored (formatted) RUT of a client passes the same
      test as the text that was typed in. */
  lemma FormatRutPreservesValidity(rut: Option<string>)
    ensures ValidateRut(Some(FormatRut(rut))).Pass? <==> ValidateRut(rut).Pass?
  {
    FormatRutRoundTrip(rut);
    var clean := CleanRut(rut);
    if clean != "" {
      var up := UpperLast(clean);
      assert up[..|up| - 1] == clean[..|clean| - 1];
    }
  }

  /** A number of 7 or 8 digits followed by one RUT character passes exactly when that
      character, upper-cased, is the computed check digit, and otherwise fails naming it. */
  lemma DigitsThenCheck(number: string, c: char)
    requires AllDigits(number) && 7 <= |number| <= 8 && IsRutChar(c)
    ensures ValidateRut(Some(number + [c])) ==
      if UpperAscii(c) == CalculateRutDv(number) then Pass else Fail(RutBadCheckDigit(CalculateRutDv(number)))
  {
    var typed := number + [c];
    assert CleanRut(Some(typed)) == typed by {
      assert AllRutChars(typed) by {
        forall i | 0 <= i < |typed| ensures IsRutChar(typed[i]) {
          if i < |number| {
            assert typed[i] == number[i];
          }
        }
      }
    }
    assert typed[..|typed| - 1] == number;
    assert typed[|typed| - 1] == c;
  }

  /** The check character K is accepted in lower case too. */
  lemma LowerKAccepted(number: string)
    requires AllDigits(number) && 7 <= |number| <= 8 && CalculateRutDv(number) == 'K'
    ensures ValidateRut(Some(number + "k")).Pass?
    ensures ValidateRut(Some(number + "K")).Pass?
  {
    DigitsThenCheck(number, 'k');
    DigitsThenCheck(number, 'K');
  }

  /** The weighted sum of a number with one more digit on the right: the new digit takes the
      first factor and the others move one factor along. */
  lemma WeightedSumAppend(num: string, d: char, start: nat)
    requires AllDigits(num) && IsDigit(d)
    ensures AllDigits(num + [d])
    ensures WeightedSum(num + [d], start) == DigitValue(d) * FACTORS[start % 6] + WeightedSum(num, start + 1)
  {
    assert (num + [d])[..|num|] == num;
  }

  /** The check digit of 12.345.678 is 5 (weighted sum 138). */
  lemma CheckDigitExample(num: string)
    requires num == "12345678"
    ensures AllDigits(num) && CalculateRutDv(num) == '5'
  {
    var n0: string := [];
    var n1 := n0 + ['1'];
    WeightedSumAppend(n0, '1', 7);
    assert WeightedSum(n1, 7) == 3;
    var n2 := n1 + ['2'];
    WeightedSumAppend(n1, '2', 6);
    assert WeightedSum(n2, 6) == 7;
    var n3 := n2 + ['3'];
    WeightedSumAppend(n2, '3', 5);
    assert WeightedSum(n3, 5) == 28;
    var n4 := n3 + ['4'];
    WeightedSumAppend(n3, '4', 4);
    assert WeightedSum(n4, 4) == 52;
    var n5 := n4 + ['5'];
    WeightedSumAppend(n4, '5', 3);
    assert WeightedSum(n5, 3) == 77;
    var n6 := n5 + ['6'];
    WeightedSumAppend(n5, '6', 2);
    assert WeightedSum(n6, 2) == 101;
    var n7 := n6 + ['7'];
    WeightedSumAppend(n6, '7', 1);
    assert WeightedSum(n7, 1) == 122;
    var n8 := n7 + ['8'];
    WeightedSumAppend(n7, '8', 0);
    assert WeightedSum(n8, 0) == 138;
    assert n8 == num;
    assert 11 - WeightedSum(num, 0) % 11 == 5;
  }

  /** 12.345.678-5 is valid; with check digit 9 it is refused, naming 5. */
  lemma ValidationExample(good: string, bad: string)
    requires good == "123456785" && bad == "123456789"
    ensures ValidateRut(Some(good)).Pass?
    ensures ValidateRut(Some(bad)) == Fail(RutBadCheckDigit('5'))
  {
    var num := good[..8];
    assert num == "12345678";
    CheckDigitExample(num);
    assert good == num + ['5'];
    assert bad == num + ['9'];
    DigitsThenCheck(num, '5');
    DigitsThenCheck(num, '9');
  }

  // ---------------------------------------------------------------- e-mail

  /** Characters allowed before the '@'. */
  predicate IsLocalChar(c: char) { IsAsciiLetter(c) || IsDigit(c) || c in "._%+-" }

  /** Characters allowed in the domain before the last dot. */
  predicate IsDomainChar(c: char) { IsAsciiLetter(c) || IsDigit(c) || c == '.' || c == '-' }

  predicate AllLocal(s: string) { forall i :: 0 <= i < |s| ==> IsLocalChar(s[i]) }

  predicate AllDomain(s: string) { forall i :: 0 <= i < |s| ==> IsDomainChar(s[i]) }

  /** The string has the e-mail shape with its '@' at `at` and the dot before the top-level
      domain at `dot`. */
  ghost predicate ShapeAt(s: string, at: nat, dot: nat) {
    && at < dot < |s| && s[at] == '@' && s[dot] == '.'
    && 0 < at && AllLocal(s[..at])
    && at + 1 < dot && AllDomain(s[at + 1..dot])
    && |s| - (dot + 1) >= 2 && AllLetters(s[dot + 1..])
  }

  /** The language of `[a-zA-Z0-9._%+-]+@[a-zA-Z0-9.-]+\.[a-zA-Z]{2,}`. */
  ghost predicate EmailShape(s: string) {
    exists at: nat, dot: nat :: ShapeAt(s, at, dot)
  }

  /** The regular expression decided by locating the first '@' and the last dot after it. */
  predicate MatchesEmail(s: string) {
    match IndexOf(s, '@')
    case None => false
    case Some(at) =>
      var rest := s[at + 1..];
      match LastIndexOf(rest, '.')
      case None => false
      case Some(dot) =>
        && 0 < at && AllLocal(s[..at])
        && 0 < dot && AllDomain(rest[..dot])
        && |rest| - (dot + 1) >= 2 && AllLetters(rest[dot + 1..])
  }

  /** Every string the scan accepts is in the regular expression's language. */
  lemma MatchesEmailShape(s: string)
    requires MatchesEmail(s)
    ensures EmailShape(s)
  {
    var at := IndexOf(s, '@').value;
    var rest := s[at + 1..];
    var dot := LastIndexOf(rest, '.').value;
    assert s[at + 1..at + 1 + dot] == rest[..dot];
    assert s[at + 1 + dot + 1..] == rest[dot + 1..];
    assert s[at + 1 + dot] == '.';
    assert ShapeAt(s, at, at + 1 + dot);
  }

  /** In a string of the language, the '@' of the shape is the first one. */
  lemma ShapeAtIsFirst(s: string, at: nat)
    requires at < |s| && s[at] == '@' && AllLocal(s[..at])
    ensures IndexOf(s, '@') == Some(at)
  {
    var first := IndexOf(s, '@');
    forall j | 0 <= j < at ensures s[j] != '@' {
      assert s[..at][j] == s[j];
    }
    forall j | 0 <= j < first.value ensures s[j] != '@' {
      assert s[..first.value][j] == s[j];
    }
  }

  /** In the part after the '@', the dot before the letters-only suffix is the last one. */
  lemma ShapeDotIsLast(rest: string, d: nat)
    requires d < |rest| && rest[d] == '.' && AllLetters(rest[d + 1..])
    ensures LastIndexOf(rest, '.') == Some(d)
  {
    var last := LastIndexOf(rest, '.');
    forall j | d < j < |rest| ensures rest[j] != '.' {
      assert rest[d + 1..][j - d - 1] == rest[j];
    }
    forall j | last.value < j < |rest| ensures rest[j] != '.' {
      assert rest[last.value + 1..][j - last.value - 1] == rest[j];
    }
  }

  /** Every string of the regular expression's language is accepted by the scan. */
  lemma ShapeMatchesEmail(s: string)
    requires EmailShape(s)
    ensures MatchesEmail(s)
  {
    var at: nat, dot: nat :| ShapeAt(s, at, dot);
    ShapeAtMatches(s, at, dot);
  }

  /** A string of the language, with its '@' and last dot known, is accepted by the scan. */
  lemma ShapeAtMatches(s: string, at: nat, dot: nat)
    requires ShapeAt(s, at, dot)
    ensures MatchesEmail(s)
  {
    var rest := s[at + 1..];
    var d := dot - at - 1;
    assert IndexOf(s, '@') == Some(at) by {
      ShapeAtIsFirst(s, at);
    }
    assert AllLetters(rest[d + 1..]) && |rest| - (d + 1) >= 2 by {
      assert rest[d + 1..] == s[dot + 1..];
    }
    assert LastIndexOf(rest, '.') == Some(d) by {
      assert rest[d] == '.';
      ShapeDotIsLast(rest, d);
    }
    assert AllDomain(rest[..d]) by {
      assert rest[..d] == s[at + 1..dot];
    }
    MatchesAt(s, at, d);
  }

  /** The scan's verdict once the first '@' and the last dot after it are known. */
  lemma MatchesAt(s: string, at: nat, d: nat)
    requires IndexOf(s, '@') == Some(at) && LastIndexOf(s[at + 1..], '.') == Some(d)
    requires 0 < at && AllLocal(s[..at])
    requires 0 < d && AllDomain(s[at + 1..][..d])
    requires |s[at + 1..]| - (d + 1) >= 2 && AllLetters(s[at + 1..][d + 1..])
    ensures MatchesEmail(s)
  {
  }

  /** The scan accepts exactly the strings of the regular expression's language. */
  lemma MatchesEmailIffShape(s: string)
    ensures MatchesEmail(s) <==> EmailShape(s)
  {
    if MatchesEmail(s) {
      MatchesEmailShape(s);
    }
    if EmailShape(s) {
      ShapeMatchesEmail(s);
    }
  }

  /** `re.match` with a final `$`, which also accepts one trailing newline. */
  predicate EmailMatches(s: string) {
    MatchesEmail(s) || (|s| > 0 && s[|s| - 1] == '\n' && MatchesEmail(s[..|s| - 1]))
  }

  datatype EmailError = EmailRequired | EmailBadFormat

  function EmailMessage(e: EmailError): string {
    match e
    case EmailRequired => "Email es requerido"
    case EmailBadFormat => "Email tiene formato inválido"
  }

  /** `validate_email`: required, then the shape check. */
  function ValidateEmail(email: Option<string>): (r: Outcome<EmailError>)
    ensures r == Fail(EmailRequired) <==> !Truthy(email)
    ensures r.Pass? <==> (Truthy(email) && (EmailShape(email.value) ||
      (email.value[|email.value| - 1] == '\n' && EmailShape(email.value[..|email.value| - 1]))))
  {
    if !Truthy(email) then Fail(EmailRequired)
    else
      MatchesEmailIffShape(email.value);
      MatchesEmailIffShape(email.value[..|email.value| - 1]);
      if EmailMatches(email.value) then Pass else Fail(EmailBadFormat)
  }

  /** An address without '@' is refused. */
  lemma NoAtRejected(s: string)
    requires s != "" && '@' !in s
    ensures ValidateEmail(Some(s)) == Fail(EmailBadFormat)
  {
  }
}
