// The string operations the job code leans on: strip, partition, slicing, and decimal integers.
module Text {
  import opened Basics

  // ---- strip ----------------------------------------------------------------------

  /** str.isspace. */
  predicate IsSpace(c: char) {
    || ('\t' <= c <= '\r') || ('\U{1C}' <= c <= ' ') || c == '\U{85}' || c == '\U{A0}' || c == '\U{1680}'
    || ('\U{2000}' <= c <= '\U{200A}') || ('\U{2028}' <= c <= '\U{2029}')
    || c == '\U{202F}' || c == '\U{205F}' || c == '\U{3000}'
  }

  function StripLeft(s: string): (r: string)
    ensures r == "" || !IsSpace(r[0])
    ensures |r| <= |s|
  {
    if s != "" && IsSpace(s[0]) then StripLeft(s[1..]) else s
  }

  function StripRight(s: string): (r: string)
    ensures r == "" || !IsSpace(r[|r| - 1])
    ensures r <= s
  {
    if s != "" && IsSpace(s[|s| - 1]) then StripRight(s[..|s| - 1]) else s
  }

  /** str.strip(). */
  function Strip(s: string): (r: string)
    ensures r == "" || (!IsSpace(r[0]) && !IsSpace(r[|r| - 1]))
  {
    var left := StripLeft(s);
    var r := StripRight(left);
    assert r != "" ==> r[0] == left[0];
    r
  }

  /** What is stripped is blank, and what is printed of ASCII is not. */
  lemma StripTakesBlanks(s: string) returns (i: nat, j: nat)
    ensures i <= j <= |s| && Strip(s) == s[i..j]
    ensures forall k :: 0 <= k < |s| && !(i <= k < j) ==> IsSpace(s[k])
    ensures forall c :: '!' <= c <= '~' ==> !IsSpace(c)
    ensures forall c :: c in " \t\n\r" ==> IsSpace(c)
  {
    i := LeftBlanks(s);
    var left := StripLeft(s);
    var kept := RightBlanks(left);
    j := i + kept;
    assert Strip(s) == left[..kept] == s[i..j];
    forall k | 0 <= k < |s| && !(i <= k < j) ensures IsSpace(s[k]) {
      if k >= j { assert left[k - i] == s[k]; }
    }
  }

  lemma {:induction false} LeftBlanks(s: string) returns (i: nat)
    ensures i <= |s| && StripLeft(s) == s[i..] && forall k :: 0 <= k < i ==> IsSpace(s[k])
  {
    if s != "" && IsSpace(s[0]) {
      i := LeftBlanks(s[1..]);
      assert forall k :: 1 <= k < i + 1 ==> s[k] == s[1..][k - 1];
      i := i + 1;
    } else {
      i := 0;
    }
  }

  lemma {:induction false} RightBlanks(s: string) returns (j: nat)
    ensures j <= |s| && StripRight(s) == s[..j] && forall k :: j <= k < |s| ==> IsSpace(s[k])
  {
    if s != "" && IsSpace(s[|s| - 1]) {
      j := RightBlanks(s[..|s| - 1]);
      assert forall k :: j <= k < |s| - 1 ==> s[k] == s[..|s| - 1][k];
    } else {
      j := |s|;
    }
  }

  /** Stripping twice is stripping once. */
  lemma StripIdempotent(s: string)
    ensures Strip(Strip(s)) == Strip(s)
  {
    var r := Strip(s);
    assert StripLeft(r) == r;
  }

  // ---- slicing --------------------------------------------------------------------

  /** s[:n], where a negative n counts from the end. */
  function Head(s: string, n: int): string {
    if n >= 0 then s[..Min(n, |s|)] else s[..Max(0, |s| + n)]
  }

  /** Cutting to n characters twice is cutting once, for every string, exactly when n is not negative. */
  lemma HeadIdempotentIff(n: int)
    ensures (forall s: string :: Head(Head(s, n), n) == Head(s, n)) <==> n >= 0
  {
    if n < 0 {
      var s := seq(1 - n, i => 'x');
      assert |Head(s, n)| == 1 && |Head(Head(s, n), n)| == 0;
    }
  }

  // ---- partition ------------------------------------------------------------------

  datatype Parts = Parts(before: string, found: bool, after: string)

  /** s.partition(sep) for a one-character separator. */
  function Partition(s: string, sep: char): (p: Parts)
    ensures p.found <==> sep in s
    ensures sep !in p.before
    ensures s == if p.found then p.before + [sep] + p.after else p.before
  {
    if s == "" then Parts("", false, "")
    else if s[0] == sep then Parts("", true, s[1..])
    else
      var p := Partition(s[1..], sep);
      assert s == [s[0]] + s[1..];
      Parts([s[0]] + p.before, p.found, p.after)
  }

  /** Only the first separator splits: whatever follows it comes back untouched. */
  lemma {:induction false} PartitionJoined(before: string, sep: char, after: string)
    requires sep !in before
    ensures Partition(before + [sep] + after, sep) == Parts(before, true, after)
  {
    if before == "" {
      assert before + [sep] + after == [sep] + after;
    } else {
      assert (before + [sep] + after)[1..] == before[1..] + [sep] + after;
      PartitionJoined(before[1..], sep, after);
    }
  }

  // ---- decimal integers -------------------------------------------------------------

  const DIGITS: string := "0123456789"

  predicate IsDigit(c: char) { '0' <= c <= '9' }

  predicate AllDigits(s: string) { forall c :: c in s ==> IsDigit(c) }

  /** str(n) for a natural number. */
  function Decimal(n: nat): (s: string)
    ensures s != "" && AllDigits(s)
  {
    if n < 10 then [DIGITS[n]] else Decimal(n / 10) + [DIGITS[n % 10]]
  }

  function DigitsValue(s: string): nat
    requires AllDigits(s)
  {
    if s == "" then 0
    else
      assert s[|s| - 1] in s;
      10 * DigitsValue(s[..|s| - 1]) + (s[|s| - 1] as int - '0' as int)
  }

  /** int(text): surrounding blanks, one sign, then digits; None stands for ValueError. */
  function ParseInt(text: string): Option<int> {
    var s := Strip(text);
    var negative := s != "" && s[0] == '-';
    var body := if s != "" && (s[0] == '-' || s[0] == '+') then s[1..] else s;
    if body == "" || !AllDigits(body) then None
    else
      var magnitude: int := DigitsValue(body);
      Some(if negative then -magnitude else magnitude)
  }

  lemma {:induction false} DecimalValue(n: nat)
    ensures DigitsValue(Decimal(n)) == n
  {
    if n >= 10 {
      DecimalValue(n / 10);
      assert Decimal(n)[..|Decimal(n)| - 1] == Decimal(n / 10);
    }
  }

  lemma StripNothing(s: string)
    requires s == "" || (!IsSpace(s[0]) && !IsSpace(s[|s| - 1]))
    ensures Strip(s) == s
  {
  }

  /** int(str(n)) == n. */
  lemma ParseDecimal(n: nat)
    ensures ParseInt(Decimal(n)) == Some(n)
  {
    var s := Decimal(n);
    assert s[0] in s && s[|s| - 1] in s;
    StripNothing(s);
    DecimalValue(n);
  }
}
