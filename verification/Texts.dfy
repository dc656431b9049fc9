// The pieces of Go's strings and strconv that the properties writer uses, and their round trips.
module Texts {
  // ----- lines and fields -----

  function Split(s: string, sep: char): (r: seq<string>)
    ensures |r| > 0
  {
    if s == "" then [""]
    else
      var rest := Split(s[1..], sep);
      if s[0] == sep then [""] + rest else [[s[0]] + rest[0]] + rest[1..]
  }

  function Join(lines: seq<string>, sep: char): string {
    if lines == [] then ""
    else if |lines| == 1 then lines[0]
    else lines[0] + [sep] + Join(lines[1..], sep)
  }

  predicate Without(s: string, c: char) {
    c !in s
  }

  lemma {:induction false} SplitIsWithout(s: string, sep: char)
    ensures forall i :: 0 <= i < |Split(s, sep)| ==> Without(Split(s, sep)[i], sep)
  {
    if s != "" {
      SplitIsWithout(s[1..], sep);
    }
  }

  lemma {:induction false} JoinSplit(s: string, sep: char)
    ensures Join(Split(s, sep), sep) == s
  {
    if s != "" {
      JoinSplit(s[1..], sep);
      var rest := Split(s[1..], sep);
      if s[0] == sep {
        assert ([""] + rest)[1..] == rest;
      } else {
        assert ([[s[0]] + rest[0]] + rest[1..])[1..] == rest[1..];
      }
    }
  }

  lemma {:induction false} SplitWithout(s: string, sep: char)
    requires Without(s, sep)
    ensures Split(s, sep) == [s]
  {
    if s != "" {
      assert s[0] in s;
      assert forall c :: c in s[1..] ==> c in s;
      SplitWithout(s[1..], sep);
      assert [s[0]] + s[1..] == s;
    }
  }

  lemma {:induction false} SplitPrefix(a: string, b: string, sep: char)
    requires Without(a, sep)
    ensures Split(a + [sep] + b, sep) == [a] + Split(b, sep)
    decreases |a|
  {
    var s := a + [sep] + b;
    if a == "" {
      assert s[1..] == b;
    } else {
      assert a[0] in a;
      assert forall c :: c in a[1..] ==> c in a;
      assert s[1..] == a[1..] + [sep] + b;
      SplitPrefix(a[1..], b, sep);
      assert ([a[1..]] + Split(b, sep))[1..] == Split(b, sep);
      assert [a[0]] + a[1..] == a;
    }
  }

  lemma {:induction false} SplitJoin(lines: seq<string>, sep: char)
    requires lines != [] && forall i :: 0 <= i < |lines| ==> Without(lines[i], sep)
    ensures Split(Join(lines, sep), sep) == lines
  {
    if |lines| == 1 {
      SplitWithout(lines[0], sep);
    } else {
      SplitJoin(lines[1..], sep);
      SplitPrefix(lines[0], Join(lines[1..], sep), sep);
    }
  }

  // Where the separator occurs there is more than one piece.
  lemma {:induction false} SplitApart(s: string, sep: char)
    requires sep in s
    ensures |Split(s, sep)| > 1
  {
    if s[0] != sep {
      assert sep in s[1..];
      SplitApart(s[1..], sep);
    }
  }

  // ----- white space -----

  // unicode.IsSpace
  predicate IsSpace(c: char) {
    var n := c as int;
    9 <= n <= 13 || n == 32 || n == 0x85 || n == 0xA0 || n == 0x1680 || 0x2000 <= n <= 0x200a
    || n == 0x2028 || n == 0x2029 || n == 0x202f || n == 0x205f || n == 0x3000
  }

  function TrimLeft(s: string): string {
    if s != "" && IsSpace(s[0]) then TrimLeft(s[1..]) else s
  }

  function TrimRight(s: string): string {
    if s != "" && IsSpace(s[|s| - 1]) then TrimRight(s[..|s| - 1]) else s
  }

  function TrimSpace(s: string): string {
    TrimRight(TrimLeft(s))
  }

  predicate Trimmed(s: string) {
    s == "" || (!IsSpace(s[0]) && !IsSpace(s[|s| - 1]))
  }

  lemma {:induction false} TrimRightMeans(s: string)
    requires s == "" || !IsSpace(s[0])
    ensures Trimmed(TrimRight(s))
    decreases |s|
  {
    if s != "" && IsSpace(s[|s| - 1]) {
      TrimRightMeans(s[..|s| - 1]);
    }
  }

  lemma {:induction false} TrimLeftMeans(s: string)
    ensures TrimLeft(s) == "" || !IsSpace(TrimLeft(s)[0])
  {
    if s != "" && IsSpace(s[0]) {
      TrimLeftMeans(s[1..]);
    }
  }

  // Trimming leaves nothing to trim.
  lemma TrimTwice(s: string)
    ensures Trimmed(TrimSpace(s)) && TrimSpace(TrimSpace(s)) == TrimSpace(s)
  {
    TrimLeftMeans(s);
    TrimRightMeans(TrimLeft(s));
  }

  lemma {:induction false} TrimLeftOnly(s: string) returns (a: string)
    ensures s == a + TrimLeft(s) && forall c :: c in a ==> IsSpace(c)
  {
    a := "";
    if s != "" && IsSpace(s[0]) {
      var rest := TrimLeftOnly(s[1..]);
      a := [s[0]] + rest;
      assert s == [s[0]] + s[1..];
    }
  }

  lemma {:induction false} TrimRightOnly(s: string) returns (b: string)
    ensures s == TrimRight(s) + b && forall c :: c in b ==> IsSpace(c)
    decreases |s|
  {
    b := "";
    if s != "" && IsSpace(s[|s| - 1]) {
      var rest := TrimRightOnly(s[..|s| - 1]);
      b := rest + [s[|s| - 1]];
      assert s == s[..|s| - 1] + [s[|s| - 1]];
    }
  }

  // Trimming takes white space off both ends, all of it and nothing else.
  lemma TrimMeans(s: string) returns (a: string, b: string)
    ensures s == a + TrimSpace(s) + b && forall c :: c in a || c in b ==> IsSpace(c)
    ensures Trimmed(TrimSpace(s))
  {
    a := TrimLeftOnly(s);
    b := TrimRightOnly(TrimLeft(s));
    TrimTwice(s);
  }

  // ----- numbers -----

  const MAX_INT := 0x7fff_ffff_ffff_ffff
  const MIN_INT := -0x8000_0000_0000_0000
  const MAX_UINT := 0xffff_ffff_ffff_ffff

  predicate IsDigit(c: char) {
    '0' <= c <= '9'
  }

  datatype Scanned = Digits(n: nat) | Syntax | Range

  // The loop of strconv.ParseUint: it stops at the first character that is no digit, or that
  // makes the number too large for 64 bits.
  function Scan(s: string, n: nat): Scanned {
    if s == "" then Digits(n)
    else if !IsDigit(s[0]) then Syntax
    else
      var n' := 10 * n + (s[0] as int - '0' as int);
      if n' > MAX_UINT then Range else Scan(s[1..], n')
  }

  // strconv.Atoi: the number, or what it returns beside its error.
  function Atoi(s: string): (int, bool) {
    var neg := s != "" && s[0] == '-';
    var body := if s != "" && (s[0] == '-' || s[0] == '+') then s[1..] else s;
    if body == "" then (0, false)
    else
      match Scan(body, 0)
      case Syntax => (0, false)
      case Range => (if neg then MIN_INT else MAX_INT, false)
      case Digits(n) =>
        if !neg && n > MAX_INT then (MAX_INT, false)
        else if neg && n > -MIN_INT then (MIN_INT, false)
        else
          var v: int := n;
          (if neg then -v else v, true)
  }

  function Digit(d: nat): char
    requires d < 10
  {
    (d + '0' as int) as char
  }

  function Itoa(n: nat): (s: string)
    ensures s != "" && forall i :: 0 <= i < |s| ==> IsDigit(s[i])
  {
    if n < 10 then [Digit(n)] else Itoa(n / 10) + [Digit(n % 10)]
  }

  // Numbers are printed without zeros in front.
  lemma {:induction false} ItoaIsShort(n: nat)
    ensures |Itoa(n)| > 1 ==> Itoa(n)[0] != '0'
    ensures n > 0 ==> Itoa(n)[0] != '0'
  {
    if n >= 10 {
      ItoaIsShort(n / 10);
    }
  }

  lemma {:induction false} ScanOn(s: string, c: char, n: nat)
    requires Scan(s, n).Digits? && IsDigit(c)
    ensures var n' := 10 * Scan(s, n).n + (c as int - '0' as int);
      Scan(s + [c], n) == if n' > MAX_UINT then Range else Digits(n')
    decreases |s|
  {
    if s == "" {
      assert s + [c] == [c] && [c][1..] == "";
    } else {
      assert (s + [c])[1..] == s[1..] + [c];
      ScanOn(s[1..], c, 10 * n + (s[0] as int - '0' as int));
    }
  }

  lemma {:induction false} ScanItoa(n: nat)
    requires n <= MAX_UINT
    ensures Scan(Itoa(n), 0) == Digits(n)
  {
    if n < 10 {
      assert [Digit(n)][1..] == "";
    } else {
      ScanItoa(n / 10);
      ScanOn(Itoa(n / 10), Digit(n % 10), 0);
    }
  }

  predicate AllDigits(s: string) {
    forall i :: 0 <= i < |s| ==> IsDigit(s[i])
  }

  // The number that digits stand for.
  function Number(s: string): nat
    requires AllDigits(s)
    decreases |s|
  {
    if s == "" then 0 else 10 * Number(s[..|s| - 1]) + (s[|s| - 1] as int - '0' as int)
  }

  lemma {:induction false} NumberGrows(s: string, k: nat)
    requires AllDigits(s) && k <= |s|
    ensures Number(s[..k]) <= Number(s)
    decreases |s|
  {
    if k < |s| {
      assert s[..|s| - 1][..k] == s[..k];
      NumberGrows(s[..|s| - 1], k);
    } else {
      assert s[..k] == s;
    }
  }

  // After k digits have been read without running over.
  lemma {:induction false} ScanRest(s: string, k: nat)
    requires k <= |s| && AllDigits(s[..k]) && Number(s[..k]) <= MAX_UINT
    ensures Scan(s[k..], Number(s[..k])).Digits? ==> AllDigits(s)
    ensures AllDigits(s) ==>
              Scan(s[k..], Number(s[..k])) == if Number(s) > MAX_UINT then Range else Digits(Number(s))
    decreases |s| - k
  {
    if k == |s| {
      assert s[..k] == s && s[k..] == "";
    } else if IsDigit(s[k]) {
      assert s[..k + 1][..k] == s[..k] && s[k..][1..] == s[k + 1..] && s[k..][0] == s[k];
      assert Number(s[..k + 1]) == 10 * Number(s[..k]) + (s[k] as int - '0' as int);
      if Number(s[..k + 1]) <= MAX_UINT {
        ScanRest(s, k + 1);
      } else if AllDigits(s) {
        NumberGrows(s, k + 1);
      }
    }
  }

  // The digits after the sign, if there is one.
  function Unsigned(s: string): string {
    if s != "" && (s[0] == '-' || s[0] == '+') then s[1..] else s
  }

  // Atoi reads an optional sign and at least one digit, and nothing else, within 64 bits.
  lemma AtoiMeans(s: string)
    ensures var (v, ok) := Atoi(s);
      var neg, body := s != "" && s[0] == '-', Unsigned(s);
      && (ok <==> body != "" && AllDigits(body) && Number(body) <= if neg then -MIN_INT else MAX_INT)
      && (ok && !neg ==> v == Number(body)) && (ok && neg ==> v + Number(body) == 0)
  {
    var body := Unsigned(s);
    ScanRest(body, 0);
    assert body[..0] == "" && body[0..] == body;
  }

  // Printing and reading back, with white space trimmed in between.
  lemma AtoiItoa(n: nat)
    requires n <= MAX_INT
    ensures TrimSpace(Itoa(n)) == Itoa(n) && Atoi(Itoa(n)) == (n as int, true)
    ensures forall c :: c in Itoa(n) ==> IsDigit(c)
  {
    ScanItoa(n);
  }
}
