/** The string operations of Go and Kotlin that the model needs, on ASCII text. */
module Strings {
  import opened Wrappers

  predicate IsSpace(c: char) {
    c == ' ' || c == '\t' || c == '\n' || c == '\r' || c == '\U{B}' || c == '\U{C}'
  }

  function TrimLeft(s: string): string {
    if s != [] && IsSpace(s[0]) then TrimLeft(s[1..]) else s
  }

  function TrimRight(s: string): string {
    if s != [] && IsSpace(s[|s| - 1]) then TrimRight(s[..|s| - 1]) else s
  }

  /** strings.TrimSpace, and Kotlin's trim(). */
  function Trim(s: string): string {
    TrimRight(TrimLeft(s))
  }

  predicate IsBlank(s: string) {
    Trim(s) == []
  }

  /** firstNonBlank of two values. */
  function FirstNonBlank(a: string, b: string): string {
    if Trim(a) != [] then Trim(a) else Trim(b)
  }

  predicate IsDigit(c: char) {
    '0' <= c <= '9'
  }

  predicate Digits(s: string) {
    s != [] && forall c <- s :: IsDigit(c)
  }

  function DigitsValue(s: string): nat
    requires forall c <- s :: IsDigit(c)
  {
    if s == [] then 0
    else
      assert IsDigit(s[|s| - 1]);
      DigitsValue(s[..|s| - 1]) * 10 + (s[|s| - 1] as int - '0' as int)
  }

  const INT64_LIMIT := 0x8000_0000_0000_0000

  /** strconv.Atoi with 64-bit integers: an optional sign, digits, and no overflow. */
  function Atoi(s: string): Option<int> {
    var digits := if s != [] && (s[0] == '+' || s[0] == '-') then s[1..] else s;
    if !Digits(digits) then None
    else
      var n: int := if s[0] == '-' then -(DigitsValue(digits) as int) else DigitsValue(digits);
      if -INT64_LIMIT <= n < INT64_LIMIT then Some(n) else None
  }

  // ----- searching and splitting -----

  /** strings.Index of one character: negative when it does not occur. */
  function IndexOf(s: string, c: char): (i: int)
    ensures if i < 0 then c !in s else i < |s| && s[i] == c && c !in s[..i]
  {
    if s == [] then -1
    else if s[0] == c then 0
    else
      var i := IndexOf(s[1..], c);
      assert s == [s[0]] + s[1..];
      if i < 0 then -1
      else
        assert s[..i + 1] == [s[0]] + s[1..][..i];
        i + 1
  }

  /** strings.SplitN(s, c, 2)[0]. */
  function Before(s: string, c: char): string {
    var i := IndexOf(s, c);
    if i < 0 then s else s[..i]
  }

  /** The first occurrence is the one with none before it. */
  lemma {:induction false} FirstOccurrence(a: string, c: char, b: string)
    requires c !in a
    ensures IndexOf(a + [c] + b, c) == |a|
  {
    if a != [] {
      assert (a + [c] + b)[1..] == a[1..] + [c] + b;
      FirstOccurrence(a[1..], c, b);
    }
  }

  predicate Contains(s: string, sub: string) {
    |sub| <= |s| && (s[..|sub|] == sub || (s != [] && Contains(s[1..], sub)))
  }

  // ----- letter case -----

  function Lower(c: char): char {
    if 'A' <= c <= 'Z' then c - 'A' + 'a' else c
  }

  function ToLower(s: string): (r: string)
    ensures |r| == |s| && forall i :: 0 <= i < |s| ==> r[i] == Lower(s[i])
  {
    if s == [] then [] else [Lower(s[0])] + ToLower(s[1..])
  }

  predicate EqualFold(a: string, b: string) {
    ToLower(a) == ToLower(b)
  }

  // ----- trimming -----

  predicate NoSpace(s: string) {
    forall c <- s :: !IsSpace(c)
  }

  /** A text with a character that is no space at both ends is its own trimming. */
  lemma TrimStays(s: string)
    requires s != [] && !IsSpace(s[0]) && !IsSpace(s[|s| - 1])
    ensures Trim(s) == s
  {}

  lemma {:induction false} TrimLeftIs(s: string)
    ensures TrimLeft(s) == [] || !IsSpace(TrimLeft(s)[0])
    ensures |TrimLeft(s)| <= |s| && TrimLeft(s) == s[|s| - |TrimLeft(s)|..]
  {
    if s != [] && IsSpace(s[0]) { TrimLeftIs(s[1..]); }
  }

  lemma {:induction false} TrimRightIs(s: string)
    ensures TrimRight(s) == [] || !IsSpace(TrimRight(s)[|TrimRight(s)| - 1])
    ensures |TrimRight(s)| <= |s| && TrimRight(s) == s[..|TrimRight(s)|]
  {
    if s != [] && IsSpace(s[|s| - 1]) { TrimRightIs(s[..|s| - 1]); }
  }

  /** Trimming a second time changes nothing. */
  lemma TrimOnce(s: string)
    ensures Trim(Trim(s)) == Trim(s) && |Trim(s)| <= |s|
  {
    TrimLeftIs(s);
    TrimRightIs(TrimLeft(s));
  }

  // ----- words and numbers -----

  function WordLength(s: string): (n: nat)
    ensures n <= |s| && NoSpace(s[..n]) && (n < |s| ==> IsSpace(s[n]))
    ensures s != [] && !IsSpace(s[0]) ==> n > 0
  {
    if s == [] || IsSpace(s[0]) then 0
    else
      var n := WordLength(s[1..]);
      assert s[..n + 1] == [s[0]] + s[1..][..n];
      n + 1
  }

  /** strings.Fields. */
  function Fields(s: string): seq<string>
    decreases |s|
  {
    TrimLeftIs(s);
    var t := TrimLeft(s);
    if t == [] then [] else [t[..WordLength(t)]] + Fields(t[WordLength(t)..])
  }

  lemma {:induction false} WordOf(word: string, rest: string)
    requires NoSpace(word) && (rest == [] || IsSpace(rest[0]))
    ensures WordLength(word + rest) == |word|
  {
    if word == [] {
      assert word + rest == rest;
    } else {
      assert (word + rest)[1..] == word[1..] + rest;
      WordOf(word[1..], rest);
    }
  }

  /** A word followed by a space is the first field. */
  lemma FirstField(word: string, rest: string)
    requires word != [] && NoSpace(word)
    ensures Fields(word + " " + rest) == [word] + Fields(rest)
    ensures Fields(word) == [word]
  {
    assert word[0] in word;
    var s := word + (" " + rest);
    assert s == word + " " + rest;
    WordOf(word, " " + rest);
    assert TrimLeft(s) == s && s[|word|..] == " " + rest;
    assert (" " + rest)[1..] == rest && TrimLeft(" " + rest) == TrimLeft(rest);
    assert Fields(" " + rest) == Fields(rest);
    WordOf(word, []);
    assert word + [] == word && word[|word|..] == [];
  }

  /** strconv.Itoa of a natural number. */
  function Decimal(n: nat): (s: string)
    ensures Digits(s) && DigitsValue(s) == n
  {
    var last := (n % 10) as char + '0';
    if n < 10 then [last] else Decimal(n / 10) + [last]
  }

  /** strconv.Itoa. */
  function Print(n: int): string {
    if n < 0 then "-" + Decimal(-n) else Decimal(n)
  }

  /** Every 64-bit integer is read back as it is printed, also with a sign in front of it. */
  lemma AtoiPrints(n: int)
    requires -INT64_LIMIT <= n < INT64_LIMIT
    ensures Atoi(Print(n)) == Some(n)
    ensures n >= 0 ==> Atoi("+" + Print(n)) == Some(n)
  {
    if n < 0 {
      assert Print(n)[1..] == Decimal(-n);
    } else {
      assert Decimal(n)[0] in Decimal(n) && IsDigit(Decimal(n)[0]);
      assert ("+" + Print(n))[1..] == Print(n);
    }
  }

  /** What is cut off is exactly the space at both ends, and nothing is left of a text exactly if it is all space. */
  lemma TrimMeans(s: string) returns (left: string, right: string)
    ensures s == left + Trim(s) + right && (forall c <- left :: IsSpace(c)) && forall c <- right :: IsSpace(c)
    ensures Trim(s) != "" ==> !IsSpace(Trim(s)[0]) && !IsSpace(Trim(s)[|Trim(s)| - 1])
    ensures Trim(s) == "" <==> forall c <- s :: IsSpace(c)
  {
    hide IsSpace, TrimLeft, TrimRight;
    var t := TrimLeft(s);
    CutLeft(s);
    CutRight(t);
    TrimLeftIs(s);
    TrimRightIs(t);
    left, right := s[..|s| - |t|], t[|Trim(s)|..];
    assert s == left + t && t == Trim(s) + right;
    if Trim(s) != "" {
      assert Trim(s)[0] == t[0] && t[0] == s[|left|];
      assert s[|left|] in s;
    }
  }

  /** The first value counts unless it is all space. */
  lemma FirstNonBlankMeans(a: string, b: string)
    ensures (exists c <- a :: !IsSpace(c)) ==> FirstNonBlank(a, b) == Trim(a)
    ensures (forall c <- a :: IsSpace(c)) ==> FirstNonBlank(a, b) == Trim(b)
  {
    var left, right := TrimMeans(a);
    hide Trim, IsSpace;
  }

  lemma {:induction false} CutLeft(s: string)
    ensures |TrimLeft(s)| <= |s| && forall c <- s[..|s| - |TrimLeft(s)|] :: IsSpace(c)
  {
    if s != [] && IsSpace(s[0]) {
      CutLeft(s[1..]);
      var n := |s| - |TrimLeft(s)|;
      assert s[..n] == [s[0]] + s[1..][..n - 1];
    }
  }

  lemma {:induction false} CutRight(s: string)
    ensures |TrimRight(s)| <= |s| && forall c <- s[|TrimRight(s)|..] :: IsSpace(c)
  {
    if s != [] && IsSpace(s[|s| - 1]) {
      var before := s[..|s| - 1];
      CutRight(before);
      assert s[|TrimRight(s)|..] == before[|TrimRight(s)|..] + [s[|s| - 1]];
    }
  }
}
