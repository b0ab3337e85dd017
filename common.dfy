/** Shared value types and the Python string built-ins the board relies on,
    restricted to ASCII (see README, "Left out"). */
module Common {

  datatype Option<+T> = None | Some(value: T)

  datatype Result<+T, +E> = Success(value: T) | Failure(error: E)

  newtype byte = x: int | 0 <= x < 256

  /** Python's str.isspace() on ASCII: space, \t \n \v \f \r and \x1c-\x1f. */
  predicate IsSpace(c: char) {
    var k := c as int;
    k == 32 || 9 <= k <= 13 || 28 <= k <= 31
  }

  /** The line boundaries of Python's str.splitlines() on ASCII. */
  predicate IsLineBreak(c: char) {
    var k := c as int;
    10 <= k <= 13 || 28 <= k <= 30
  }

  predicate IsAsciiLetter(c: char) {
    'a' <= c <= 'z' || 'A' <= c <= 'Z'
  }

  predicate IsDigit(c: char) {
    '0' <= c <= '9'
  }

  predicate StartsWith(s: string, prefix: string) {
    |prefix| <= |s| && s[..|prefix|] == prefix
  }

  predicate OccursAt(s: string, sub: string, i: int) {
    0 <= i <= |s| - |sub| && s[i..i + |sub|] == sub
  }

  /** `sub in s` for strings. */
  predicate Contains(s: string, sub: string) {
    exists i | 0 <= i <= |s| - |sub| :: OccursAt(s, sub, i)
  }

  // ---------------------------------------------------------------------------
  // strip

  /** The characters a strip removes: whitespace, or double quotes. */
  datatype CharClass = Whitespace | DoubleQuote

  predicate InClass(cls: CharClass, c: char) {
    match cls
    case Whitespace => IsSpace(c)
    case DoubleQuote => IsQuote(c)
  }

  /** Drops the longest prefix of characters of class `drop`. */
  function TrimStart(s: string, drop: CharClass): (r: string)
    ensures |r| <= |s|
    ensures forall i :: 0 <= i < |s| - |r| ==> InClass(drop, s[i])
    ensures r != [] ==> !InClass(drop, r[0])
  {
    if s != [] && InClass(drop, s[0]) then TrimStart(s[1..], drop) else s
  }

  /** Drops the longest suffix of characters of class `drop`. */
  function TrimEnd(s: string, drop: CharClass): (r: string)
    ensures |r| <= |s|
    ensures forall i :: |r| <= i < |s| ==> InClass(drop, s[i])
    ensures r != [] ==> !InClass(drop, r[|r| - 1])
  {
    if s != [] && InClass(drop, s[|s| - 1]) then TrimEnd(s[..|s| - 1], drop) else s
  }

  /** Python's str.strip(): no leading or trailing whitespace. */
  function Strip(s: string): string {
    TrimEnd(TrimStart(s, Whitespace), Whitespace)
  }

  predicate IsQuote(c: char) {
    c == '"'
  }

  /** Python's str.strip('"'): every leading and trailing double quote goes. */
  function StripQuotes(s: string): string {
    TrimEnd(TrimStart(s, DoubleQuote), DoubleQuote)
  }

  /** What TrimStart keeps is a suffix of its input. */
  lemma {:induction false} TrimStartSuffix(s: string, drop: CharClass)
    ensures TrimStart(s, drop) == s[|s| - |TrimStart(s, drop)|..]
  {
    if s != [] && InClass(drop, s[0]) {
      TrimStartSuffix(s[1..], drop);
    }
  }

  /** What TrimEnd keeps is a prefix of its input. */
  lemma {:induction false} TrimEndPrefix(s: string, drop: CharClass)
    ensures TrimEnd(s, drop) == s[..|TrimEnd(s, drop)|]
  {
    if s != [] && InClass(drop, s[|s| - 1]) {
      TrimEndPrefix(s[..|s| - 1], drop);
    }
  }

  lemma TrimStartStops(s: string, drop: CharClass)
    requires s == [] || !InClass(drop, s[0])
    ensures TrimStart(s, drop) == s
  {
  }

  lemma TrimEndStops(s: string, drop: CharClass)
    requires s == [] || !InClass(drop, s[|s| - 1])
    ensures TrimEnd(s, drop) == s
  {
  }

  /** A value without quotes at its edges survives being quoted and then
      stripped of quotes. */
  lemma StripQuotesOfQuoted(x: string)
    requires x == [] || (x[0] != '"' && x[|x| - 1] != '"')
    ensures StripQuotes("\"" + x + "\"") == x
  {
    var q := "\"" + x + "\"";
    var tail := x + "\"";
    assert q[1..] == tail;
    assert TrimStart(q, DoubleQuote) == TrimStart(tail, DoubleQuote);
    assert tail[..|tail| - 1] == x;
    if x == [] {
      assert TrimStart(tail, DoubleQuote) == TrimStart(tail[1..], DoubleQuote);
      assert tail[1..] == [];
    } else {
      assert tail[0] == x[0];
      TrimStartStops(tail, DoubleQuote);
      assert TrimEnd(tail, DoubleQuote) == TrimEnd(x, DoubleQuote);
      TrimEndStops(x, DoubleQuote);
    }
  }

  // ---------------------------------------------------------------------------
  // split / join

  /** Position of the first `c` in `s`. */
  function IndexOf(s: string, c: char): (i: nat)
    requires c in s
    ensures i < |s| && s[i] == c && c !in s[..i]
  {
    if s[0] == c then 0 else 1 + IndexOf(s[1..], c)
  }

  /** `sep.join(parts)`. */
  function Join(parts: seq<string>, sep: string): string
    decreases |parts|
  {
    if |parts| == 0 then ""
    else if |parts| == 1 then parts[0]
    else parts[0] + sep + Join(parts[1..], sep)
  }

  /** Python's `s.split(sep)` for a one-character separator: the pieces
      between separators, empty ones included; never an empty list. */
  function Split(s: string, sep: char): (parts: seq<string>)
    ensures |parts| >= 1
    ensures forall i :: 0 <= i < |parts| ==> sep !in parts[i]
    decreases |s|
  {
    if sep !in s then [s]
    else
      var i := IndexOf(s, sep);
      [s[..i]] + Split(s[i + 1..], sep)
  }

  lemma {:induction false} IndexOfJoined(a: string, c: char, b: string)
    requires c !in a
    ensures c in a + [c] + b && IndexOf(a + [c] + b, c) == |a|
  {
    var s := a + [c] + b;
    assert s[|a|] == c;
    if a != [] {
      assert s[0] == a[0];
      assert s[1..] == a[1..] + [c] + b;
      IndexOfJoined(a[1..], c, b);
    }
  }

  /** The first `c` in a prefix that holds one is the first `c` overall. */
  lemma {:induction false} IndexOfPrefix(a: string, c: char, t: string)
    requires c in a
    ensures c in a + t && IndexOf(a + t, c) == IndexOf(a, c)
  {
    var s := a + t;
    assert s[0] == a[0];
    if a[0] != c {
      assert s[1..] == a[1..] + t;
      IndexOfPrefix(a[1..], c, t);
    }
  }

  lemma SplitAtFirst(a: string, sep: char, b: string)
    requires sep !in a
    ensures Split(a + [sep] + b, sep) == [a] + Split(b, sep)
  {
    var s := a + [sep] + b;
    IndexOfJoined(a, sep, b);
    assert s[..|a|] == a;
    assert s[|a| + 1..] == b;
  }

  /** One step of the split: the piece before the first separator, then
      the split of the rest. */
  lemma SplitUnfold(s: string, sep: char)
    requires sep in s
    ensures Split(s, sep) == [s[..IndexOf(s, sep)]] + Split(s[IndexOf(s, sep) + 1..], sep)
  {
  }

  lemma ConcatAssoc<T>(x: seq<T>, y: seq<T>, z: seq<T>)
    ensures x + (y + z) == (x + y) + z
  {
  }

  /** Splitting at one more separator splits both sides independently. */
  lemma {:induction false} SplitAppend(a: string, sep: char, b: string)
    ensures Split(a + [sep] + b, sep) == Split(a, sep) + Split(b, sep)
    decreases |a|
  {
    if sep !in a {
      SplitAtFirst(a, sep, b);
    } else {
      var i := IndexOf(a, sep);
      var a' := a[i + 1..];
      var s := a + [sep] + b;
      assert s == a + ([sep] + b);
      IndexOfPrefix(a, sep, [sep] + b);
      var rest := s[i + 1..];
      assert s[..i] == a[..i];
      assert rest == a' + [sep] + b;
      assert IndexOf(s, sep) == i;
      SplitUnfold(s, sep);
      SplitUnfold(a, sep);
      SplitAppend(a', sep, b);
      var head, p, q := [a[..i]], Split(a', sep), Split(b, sep);
      assert Split(rest, sep) == p + q;
      assert Split(s, sep) == head + Split(rest, sep);
      ConcatAssoc(head, p, q);
    }
  }

  /** Splitting what was joined on a separator that no part contains
      gives the parts back. */
  lemma {:induction false} SplitJoin(parts: seq<string>, sep: char)
    requires |parts| >= 1
    requires forall i :: 0 <= i < |parts| ==> sep !in parts[i]
    ensures Split(Join(parts, [sep]), sep) == parts
    decreases |parts|
  {
    if |parts| == 1 {
      assert sep !in parts[0];
    } else {
      var rest := Join(parts[1..], [sep]);
      var s := parts[0] + [sep] + rest;
      assert Join(parts, [sep]) == s;
      IndexOfJoined(parts[0], sep, rest);
      assert s[..|parts[0]|] == parts[0];
      assert s[|parts[0]| + 1..] == rest;
      SplitJoin(parts[1..], sep);
      assert Split(s, sep) == [parts[0]] + parts[1..];
    }
  }

  // ---------------------------------------------------------------------------
  // str.split() with no argument: runs of whitespace separate, none are kept

  /** Length of the longest prefix of `s` without whitespace. */
  function WordLength(s: string): (n: nat)
    ensures n <= |s|
    ensures forall i :: 0 <= i < n ==> !IsSpace(s[i])
    ensures n < |s| ==> IsSpace(s[n])
  {
    if s == [] || IsSpace(s[0]) then 0 else 1 + WordLength(s[1..])
  }

  function Words(s: string): (ws: seq<string>)
    ensures forall i :: 0 <= i < |ws| ==> ws[i] != []
    decreases |s|
  {
    var t := TrimStart(s, Whitespace);
    if t == [] then []
    else
      var n := WordLength(t);
      [t[..n]] + Words(t[n..])
  }

  predicate IsWord(w: string) {
    w != [] && forall i :: 0 <= i < |w| ==> !IsSpace(w[i])
  }

  lemma {:induction false} WordLengthOfWord(w: string, rest: string)
    requires IsWord(w)
    requires rest == [] || IsSpace(rest[0])
    ensures WordLength(w + rest) == |w|
  {
    var s := w + rest;
    assert s[0] == w[0];
    if |w| > 1 {
      assert s[1..] == w[1..] + rest;
      WordLengthOfWord(w[1..], rest);
    } else {
      assert s[1..] == rest;
    }
  }

  /** A word followed by nothing or by whitespace is the first word. */
  lemma WordsCons(w: string, rest: string)
    requires IsWord(w)
    requires rest == [] || IsSpace(rest[0])
    ensures Words(w + rest) == [w] + Words(rest)
  {
    var s := w + rest;
    assert s[0] == w[0];
    TrimStartStops(s, Whitespace);
    WordLengthOfWord(w, rest);
    assert s[..|w|] == w;
    assert s[|w|..] == rest;
  }

  lemma WordsAfterSpace(rest: string)
    ensures Words(" " + rest) == Words(rest)
  {
    var s := " " + rest;
    assert s[1..] == rest;
    assert TrimStart(s, Whitespace) == TrimStart(rest, Whitespace);
  }

  lemma WordsOfWord(w: string)
    requires IsWord(w)
    ensures Words(w) == [w]
  {
    WordsCons(w, "");
    assert w + "" == w;
  }

  lemma WordThenSpace(w: string, rest: string)
    requires IsWord(w)
    ensures Words(w + (" " + rest)) == [w] + Words(rest)
  {
    var spaced := " " + rest;
    assert spaced[0] == ' ';
    WordsCons(w, spaced);
    WordsAfterSpace(rest);
  }

  lemma JoinCons(parts: seq<string>, sep: string)
    requires |parts| > 1
    ensures Join(parts, sep) == parts[0] + (sep + Join(parts[1..], sep))
  {
  }

  lemma WordsOfJoinedOne(ws: seq<string>)
    requires |ws| == 1 && IsWord(ws[0])
    ensures Words(Join(ws, " ")) == ws
  {
    assert Join(ws, " ") == ws[0];
    WordsOfWord(ws[0]);
    assert ws == [ws[0]];
  }

  lemma WordsOfJoinedStep(ws: seq<string>)
    requires |ws| > 1 && IsWord(ws[0])
    requires Words(Join(ws[1..], " ")) == ws[1..]
    ensures Words(Join(ws, " ")) == ws
  {
    JoinCons(ws, " ");
    WordThenSpace(ws[0], Join(ws[1..], " "));
    assert ws == [ws[0]] + ws[1..];
  }

  /** Splitting on whitespace what was joined with single spaces gives the
      words back. */
  lemma {:induction false} WordsOfJoined(ws: seq<string>)
    requires forall i :: 0 <= i < |ws| ==> IsWord(ws[i])
    ensures Words(Join(ws, " ")) == ws
    decreases |ws|
  {
    if |ws| == 1 {
      WordsOfJoinedOne(ws);
    } else if |ws| > 1 {
      var tail := ws[1..];
      assert forall i :: 0 <= i < |tail| ==> IsWord(tail[i]) by {
        forall i | 0 <= i < |tail| ensures IsWord(tail[i]) { assert tail[i] == ws[i + 1]; }
      }
      WordsOfJoined(tail);
      WordsOfJoinedStep(ws);
    }
  }

  // ---------------------------------------------------------------------------
  // str.splitlines()

  /** Length of the longest prefix of `s` without a line boundary. */
  function LineLength(s: string): (n: nat)
    ensures n <= |s|
    ensures forall i :: 0 <= i < n ==> !IsLineBreak(s[i])
    ensures n < |s| ==> IsLineBreak(s[n])
  {
    if s == [] || IsLineBreak(s[0]) then 0 else 1 + LineLength(s[1..])
  }

  /** Python's str.splitlines(): "\r\n" is one boundary, and a final
      boundary does not open an empty last line. */
  function SplitLines(s: string): (lines: seq<string>)
    ensures forall j :: 0 <= j < |lines| ==> forall i :: 0 <= i < |lines[j]| ==> !IsLineBreak(lines[j][i])
    decreases |s|
  {
    if s == [] then []
    else
      var n := LineLength(s);
      if n == |s| then [s]
      else
        var skip := if s[n] == '\r' && n + 1 < |s| && s[n + 1] == '\n' then 2 else 1;
        [s[..n]] + SplitLines(s[n + skip..])
  }

  // ---------------------------------------------------------------------------
  // case mapping

  function LowerChar(c: char): char {
    if 'A' <= c <= 'Z' then (c as int + 32) as char else c
  }

  function UpperChar(c: char): char {
    if 'a' <= c <= 'z' then (c as int - 32) as char else c
  }

  /** Python's str.lower() on ASCII. */
  function Lower(s: string): (r: string)
    ensures |r| == |s| && forall i :: 0 <= i < |s| ==> r[i] == LowerChar(s[i])
  {
    if s == [] then [] else [LowerChar(s[0])] + Lower(s[1..])
  }

  /** Python's str.title() on ASCII: a letter is upper-cased when the
      character before it is not a letter, and lower-cased otherwise. */
  function TitleAfter(s: string, afterLetter: bool): (r: string)
    ensures |r| == |s|
  {
    if s == [] then []
    else
      var c := s[0];
      var d := if !IsAsciiLetter(c) then c else if afterLetter then LowerChar(c) else UpperChar(c);
      [d] + TitleAfter(s[1..], IsAsciiLetter(c))
  }

  function Title(s: string): string {
    TitleAfter(s, false)
  }

  /** Lower-case letters after a letter stay as they are. */
  lemma {:induction false} TitleAfterLower(s: string)
    requires forall i :: 0 <= i < |s| ==> 'a' <= s[i] <= 'z'
    ensures TitleAfter(s, true) == s
  {
    if s != [] {
      TitleAfterLower(s[1..]);
    }
  }

  /** The title case of a lower-case word capitalises its first letter. */
  lemma TitleOfLowerWord(s: string)
    requires s != [] && forall i :: 0 <= i < |s| ==> 'a' <= s[i] <= 'z'
    ensures Title(s) == [UpperChar(s[0])] + s[1..]
  {
    TitleAfterLower(s[1..]);
  }

  // ---------------------------------------------------------------------------
  // decimal digits

  function DigitChar(d: nat): char
    requires d < 10
  {
    ['0', '1', '2', '3', '4', '5', '6', '7', '8', '9'][d]
  }

  /** The decimal digits of n, without leading zeros ("0" for zero). */
  function Decimal(n: nat): (s: string)
    ensures |s| >= 1 && forall i :: 0 <= i < |s| ==> IsDigit(s[i])
  {
    if n < 10 then [DigitChar(n)] else Decimal(n / 10) + [DigitChar(n % 10)]
  }

  /** The number a string of decimal digits denotes. */
  function DigitsValue(s: string): nat
    requires forall i :: 0 <= i < |s| ==> IsDigit(s[i])
  {
    if s == [] then 0
    else
      assert IsDigit(s[|s| - 1]);
      DigitsValue(s[..|s| - 1]) * 10 + (s[|s| - 1] as int - '0' as int)
  }

  lemma {:induction false} DecimalValue(n: nat)
    ensures DigitsValue(Decimal(n)) == n
  {
    if n >= 10 {
      var s := Decimal(n);
      assert s[..|s| - 1] == Decimal(n / 10);
      DecimalValue(n / 10);
    }
  }

  /** Only zero is written with a leading '0'. */
  lemma {:induction false} DecimalLeading(n: nat)
    ensures n >= 1 ==> Decimal(n)[0] != '0'
  {
    if n >= 10 {
      DecimalLeading(n / 10);
      assert Decimal(n)[0] == Decimal(n / 10)[0];
    }
  }

  lemma DecimalLength(n: nat)
    ensures n < 10 ==> |Decimal(n)| == 1
    ensures 10 <= n < 100 ==> |Decimal(n)| == 2
    ensures 100 <= n < 1000 ==> |Decimal(n)| == 3
  {
  }

  function Zeros(z: nat): (r: string)
    ensures |r| == z && forall i :: 0 <= i < z ==> r[i] == '0'
  {
    if z == 0 then [] else Zeros(z - 1) + ['0']
  }

  /** Leading zeros do not change the number a digit string denotes. */
  lemma {:induction false} ZerosValue(z: nat, s: string)
    requires forall i :: 0 <= i < |s| ==> IsDigit(s[i])
    ensures forall i :: 0 <= i < z + |s| ==> IsDigit((Zeros(z) + s)[i])
    ensures DigitsValue(Zeros(z) + s) == DigitsValue(s)
    decreases |s|
  {
    var p := Zeros(z) + s;
    forall i | 0 <= i < |p| ensures IsDigit(p[i]) {
      if i < z { assert p[i] == '0'; } else { assert p[i] == s[i - z]; }
    }
    if s == [] {
      assert p == Zeros(z);
      ZerosOnly(z);
    } else {
      assert p[..|p| - 1] == Zeros(z) + s[..|s| - 1];
      ZerosValue(z, s[..|s| - 1]);
    }
  }

  lemma {:induction false} ZerosOnly(z: nat)
    ensures forall i :: 0 <= i < z ==> IsDigit(Zeros(z)[i])
    ensures DigitsValue(Zeros(z)) == 0
  {
    if z > 0 {
      assert Zeros(z)[..z - 1] == Zeros(z - 1);
      ZerosOnly(z - 1);
    }
  }
}
