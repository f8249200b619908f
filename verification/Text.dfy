/** String operations the source takes from its standard library. */
module Text {
  import opened Common

  /** ASCII lower-casing of one character. */
  function LowerChar(c: char): char {
    if 'A' <= c <= 'Z' then (c as int + 32) as char else c
  }

  function ToLower(s: string): (r: string)
    ensures |r| == |s| && forall i :: 0 <= i < |s| ==> r[i] == LowerChar(s[i])
  {
    seq(|s|, i requires 0 <= i < |s| => LowerChar(s[i]))
  }

  predicate IsSpace(c: char) {
    c == ' ' || ('\t' <= c <= '\r') || c as int == 0x85 || c as int == 0xA0
  }

  function TrimLeftSpace(s: string): string {
    if s != "" && IsSpace(s[0]) then TrimLeftSpace(s[1..]) else s
  }

  function TrimRightSpace(s: string): string {
    if s != "" && IsSpace(s[|s| - 1]) then TrimRightSpace(s[..|s| - 1]) else s
  }

  function TrimSpace(s: string): string { TrimRightSpace(TrimLeftSpace(s)) }

  predicate AllSpace(s: string) {
    forall i :: 0 <= i < |s| ==> IsSpace(s[i])
  }

  /** Neither end is a space. */
  predicate Trimmed(s: string) {
    s != "" ==> !IsSpace(s[0]) && !IsSpace(s[|s| - 1])
  }

  lemma {:induction false} TrimLeftPadding(pad: string, s: string)
    requires AllSpace(pad) && (s != "" ==> !IsSpace(s[0]))
    ensures TrimLeftSpace(pad + s) == s
  {
    if pad == "" {
      assert pad + s == s;
    } else {
      assert (pad + s)[1..] == pad[1..] + s;
      TrimLeftPadding(pad[1..], s);
    }
  }

  lemma {:induction false} TrimRightPadding(s: string, pad: string)
    requires AllSpace(pad) && (s != "" ==> !IsSpace(s[|s| - 1]))
    ensures TrimRightSpace(s + pad) == s
  {
    if pad == "" {
      assert s + pad == s;
    } else {
      assert (s + pad)[..|s + pad| - 1] == s + pad[..|pad| - 1];
      TrimRightPadding(s, pad[..|pad| - 1]);
    }
  }

  /** Padding around a trimmed text is exactly what TrimSpace takes off. */
  lemma TrimPadded(left: string, s: string, right: string)
    requires AllSpace(left) && AllSpace(right) && Trimmed(s)
    ensures TrimSpace(left + s + right) == s
  {
    if s == "" {
      assert left + s + right == (left + right) + "";
      TrimLeftPadding(left + right, "");
    } else {
      assert left + s + right == left + (s + right);
      TrimLeftPadding(left, s + right);
      TrimRightPadding(s, right);
    }
  }

  // ----- Fields joined by a separator -----

  predicate Free(s: string, c: char) {
    forall i :: 0 <= i < |s| ==> s[i] != c
  }

  function Join(fields: seq<string>, sep: char): string
    requires fields != []
  {
    if |fields| == 1 then fields[0] else fields[0] + [sep] + Join(fields[1..], sep)
  }

  /** Cuts a text at every separator. */
  function Split(s: string, sep: char): (fields: seq<string>)
    ensures fields != []
    ensures forall i :: 0 <= i < |fields| ==> Free(fields[i], sep)
    ensures Join(fields, sep) == s
  {
    if s == "" then [""]
    else
      var rest := Split(s[1..], sep);
      if s[0] == sep then [""] + rest
      else
        var fields := [[s[0]] + rest[0]] + rest[1..];
        JoinGrow(s[0], rest, sep);
        fields
  }

  lemma JoinGrow(c: char, rest: seq<string>, sep: char)
    requires rest != []
    ensures Join([[c] + rest[0]] + rest[1..], sep) == [c] + Join(rest, sep)
  {
    var grown := [[c] + rest[0]] + rest[1..];
    if |rest| > 1 {
      assert grown[1..] == rest[1..];
    }
  }

  /** Where the first separator stands, or the length when there is none. */
  function FirstSep(s: string, sep: char): nat {
    if s == "" || s[0] == sep then 0 else 1 + FirstSep(s[1..], sep)
  }

  lemma {:induction false} FirstSepAfterField(field: string, rest: string, sep: char)
    requires Free(field, sep) && (rest == "" || rest[0] == sep)
    ensures FirstSep(field + rest, sep) == |field|
  {
    if field == "" {
      assert field + rest == rest;
    } else {
      assert (field + rest)[1..] == field[1..] + rest;
      FirstSepAfterField(field[1..], rest, sep);
    }
  }

  /** The first field of a joined text ends at the first separator. */
  lemma FirstFieldUnique(a: string, b: string, restA: string, restB: string, sep: char)
    requires Free(a, sep) && Free(b, sep)
    requires a + restA == b + restB
    requires restA == "" || restA[0] == sep
    requires restB == "" || restB[0] == sep
    ensures a == b && restA == restB
  {
    FirstSepAfterField(a, restA, sep);
    FirstSepAfterField(b, restB, sep);
    assert a == (a + restA)[..|a|] && b == (b + restB)[..|b|];
    assert restA == (a + restA)[|a|..] && restB == (b + restB)[|b|..];
  }

  function Tail(fields: seq<string>, sep: char): string
    requires fields != []
  {
    if |fields| == 1 then "" else [sep] + Join(fields[1..], sep)
  }

  /** Fields that do not contain the separator can be read back from their join. */
  lemma {:induction false} JoinInjective(a: seq<string>, b: seq<string>, sep: char)
    requires a != [] && b != []
    requires forall i :: 0 <= i < |a| ==> Free(a[i], sep)
    requires forall i :: 0 <= i < |b| ==> Free(b[i], sep)
    requires Join(a, sep) == Join(b, sep)
    ensures a == b
  {
    assert Join(a, sep) == a[0] + Tail(a, sep);
    assert Join(b, sep) == b[0] + Tail(b, sep);
    FirstFieldUnique(a[0], b[0], Tail(a, sep), Tail(b, sep), sep);
    if |a| > 1 && |b| > 1 {
      assert Tail(a, sep)[1..] == Join(a[1..], sep);
      assert Tail(b, sep)[1..] == Join(b[1..], sep);
      JoinInjective(a[1..], b[1..], sep);
      assert a == [a[0]] + a[1..] && b == [b[0]] + b[1..];
    }
  }

  lemma JoinTwo(a: string, b: string, sep: char)
    ensures Join([a, b], sep) == a + [sep] + b
  {
    assert [a, b][1..] == [b];
  }

  lemma JoinThree(a: string, b: string, c: string, sep: char)
    ensures Join([a, b, c], sep) == a + [sep] + b + [sep] + c
  {
    assert [a, b, c][1..] == [b, c];
    JoinTwo(b, c, sep);
  }

  /** Cutting a joined text gives the fields back. */
  lemma SplitOfJoin(fields: seq<string>, sep: char)
    requires fields != [] && forall i :: 0 <= i < |fields| ==> Free(fields[i], sep)
    ensures Split(Join(fields, sep), sep) == fields
  {
    JoinInjective(Split(Join(fields, sep), sep), fields, sep);
  }

  /** The position of the last occurrence of a character. */
  function LastIndex(s: string, c: char): (r: Option<nat>)
    ensures r.None? ==> Free(s, c)
    ensures r.Some? ==> r.value < |s| && s[r.value] == c && forall i :: r.value < i < |s| ==> s[i] != c
  {
    if s == "" then None
    else if s[|s| - 1] == c then Some(|s| - 1)
    else LastIndex(s[..|s| - 1], c)
  }

  /** It is where a text free of the character begins. */
  lemma LastIndexIs(before: string, c: char, after: string)
    requires Free(after, c)
    ensures LastIndex(before + [c] + after, c) == Some(|before|)
  {
    var s := before + [c] + after;
    assert s[|before|] == c;
    assert forall i :: |before| < i < |s| ==> s[i] == after[i - |before| - 1];
  }

  // ----- Decimal integers -----

  function DigitChar(d: nat): char
    requires d < 10
  {
    ('0' as int + d) as char
  }

  function Digits(n: nat): string {
    if n < 10 then [DigitChar(n)] else Digits(n / 10) + [DigitChar(n % 10)]
  }

  function Itoa(n: int): string {
    if n < 0 then "-" + Digits(-n) else Digits(n)
  }

  predicate IsDigit(c: char) { '0' <= c <= '9' }

  function Value(s: string): int {
    if s == "" then 0 else 10 * Value(s[..|s| - 1]) + (s[|s| - 1] as int - '0' as int)
  }

  lemma {:induction false} DigitsValue(n: nat)
    ensures Digits(n) != "" && (forall i :: 0 <= i < |Digits(n)| ==> IsDigit(Digits(n)[i]))
    ensures Value(Digits(n)) == n
  {
    if n >= 10 {
      DigitsValue(n / 10);
      assert Digits(n)[..|Digits(n)| - 1] == Digits(n / 10);
    }
  }

  /** A rendered integer starts with a digit or a sign and contains nothing else. */
  lemma ItoaShape(n: int)
    ensures Itoa(n) != "" && (Itoa(n)[0] == '-' || IsDigit(Itoa(n)[0]))
    ensures n < 0 <==> Itoa(n)[0] == '-'
    ensures forall i :: 1 <= i < |Itoa(n)| ==> IsDigit(Itoa(n)[i])
    ensures Free(Itoa(n), '|')
  {
    DigitsValue(if n < 0 then -n else n);
  }

  lemma ItoaInjective(a: int, b: int)
    requires Itoa(a) == Itoa(b)
    ensures a == b
  {
    ItoaShape(a);
    ItoaShape(b);
    if a < 0 {
      DigitsValue(-a);
      DigitsValue(-b);
      assert Itoa(a)[1..] == Digits(-a) && Itoa(b)[1..] == Digits(-b);
    } else {
      DigitsValue(a);
      DigitsValue(b);
    }
  }

  // ----- The order of strings -----

  predicate Before(a: string, b: string) {
    b != "" && (a == "" || a[0] < b[0] || (a[0] == b[0] && Before(a[1..], b[1..])))
  }

  lemma {:induction false} BeforeOrders(a: string, b: string)
    ensures a == b <==> !Before(a, b) && !Before(b, a)
    ensures !(Before(a, b) && Before(b, a))
  {
    if a != "" && b != "" && a[0] == b[0] {
      BeforeOrders(a[1..], b[1..]);
      assert a == [a[0]] + a[1..] && b == [b[0]] + b[1..];
    }
  }

  lemma {:induction false} BeforeChains(a: string, b: string, c: string)
    requires Before(a, b) && Before(b, c)
    ensures Before(a, c)
  {
    if a != "" && a[0] == b[0] && b[0] == c[0] {
      BeforeChains(a[1..], b[1..], c[1..]);
    }
  }
}
