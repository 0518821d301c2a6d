/** What the readers of the log and of the report make of any text: white space, lines, numbers and escapes. */
module ReadingFacts {
  import opened Common
  import opened JsonText
  import opened LogFields
  import opened LogFile
  import opened PlainText
  import opened ReportParser
  import opened TextOrder

  // ---------- the order of names ----------

  /** The texts are the same up to `k`, where the first one ends or has the smaller character. */
  ghost predicate SplitsAt(a: string, b: string, k: nat) {
    && k <= |a| && k < |b| && a[..k] == b[..k]
    && (k < |a| ==> a[k] < b[k])
  }

  lemma {:induction false} SplitsFrom(a: string, b: string) returns (k: nat)
    requires Before(a, b)
    ensures SplitsAt(a, b, k)
  {
    if a == "" || a[0] != b[0] {
      k := 0;
    } else {
      var rest := SplitsFrom(a[1..], b[1..]);
      k := rest + 1;
      assert a == [a[0]] + a[1..] && b == [b[0]] + b[1..];
      assert a[..k] == [a[0]] + a[1..][..rest] && b[..k] == [b[0]] + b[1..][..rest];
    }
  }

  lemma {:induction false} SplitIsBefore(a: string, b: string, k: nat)
    requires SplitsAt(a, b, k)
    ensures Before(a, b)
    decreases k
  {
    if k > 0 {
      assert a[0] == a[..k][0] == b[..k][0] == b[0];
      assert a[1..][..k - 1] == a[..k][1..] && b[1..][..k - 1] == b[..k][1..];
      SplitIsBefore(a[1..], b[1..], k - 1);
    }
  }

  /** Names are listed by their first different character; a name comes before its extensions. */
  lemma BeforeExactly(a: string, b: string)
    ensures Before(a, b) <==> exists k: nat :: SplitsAt(a, b, k)
  {
    if Before(a, b) {
      var k := SplitsFrom(a, b);
    }
    if k: nat :| SplitsAt(a, b, k) {
      SplitIsBefore(a, b, k);
    }
  }

  // ---------- white space ----------

  /** `inner` is `s` without the characters in question at either end. */
  ghost predicate Inside(s: string, inner: string, left: nat, cuts: char -> bool) {
    && left + |inner| <= |s| && s[left..left + |inner|] == inner
    && (forall i | 0 <= i < left :: cuts(s[i]))
    && (forall i | left + |inner| <= i < |s| :: cuts(s[i]))
    && (inner != "" ==> !cuts(inner[0]) && !cuts(inner[|inner| - 1]))
  }

  lemma {:induction false} LeftIsCut(s: string) returns (k: nat)
    ensures k <= |s| && TrimLeft(s) == s[k..]
    ensures forall i | 0 <= i < k :: IsTrimmed(s[i])
    ensures k < |s| ==> !IsTrimmed(s[k])
  {
    k := 0;
    if s != "" && IsTrimmed(s[0]) {
      var rest := LeftIsCut(s[1..]);
      k := rest + 1;
      assert s[1..][rest..] == s[k..];
      assert forall i | 0 < i < k :: s[i] == s[1..][i - 1];
    }
  }

  lemma {:induction false} RightIsCut(s: string) returns (k: nat)
    ensures k <= |s| && TrimRight(s) == s[..k]
    ensures forall i | k <= i < |s| :: IsTrimmed(s[i])
    ensures k > 0 ==> !IsTrimmed(s[k - 1])
  {
    k := |s|;
    if s != "" && IsTrimmed(s[|s| - 1]) {
      k := RightIsCut(s[..|s| - 1]);
      assert s[..|s| - 1][..k] == s[..k];
    }
  }

  predicate UpToSpace(c: char) {
    c as int <= 32
  }

  /** The reader of the report cuts characters up to the space at both ends of a text, and nothing else. */
  lemma TrimExactly(s: string)
    ensures exists left: nat :: Inside(s, Trim(s), left, UpToSpace)
  {
    var left := LeftIsCut(s);
    var size := RightIsCut(s[left..]);
    assert forall i | left <= i < |s| :: s[i] == s[left..][i - left];
    assert forall c: char :: IsTrimmed(c) == UpToSpace(c);
    assert Inside(s, Trim(s), left, UpToSpace);
  }

  lemma {:induction false} StripLeftIsCut(s: string) returns (k: nat)
    ensures k <= |s| && StripLeft(s) == s[k..]
    ensures forall i | 0 <= i < k :: IsStripped(s[i])
    ensures k < |s| ==> !IsStripped(s[k])
  {
    k := 0;
    if s != "" && IsStripped(s[0]) {
      var rest := StripLeftIsCut(s[1..]);
      k := rest + 1;
      assert s[1..][rest..] == s[k..];
      assert forall i | 0 < i < k :: s[i] == s[1..][i - 1];
    }
  }

  lemma {:induction false} StripRightIsCut(s: string) returns (k: nat)
    ensures k <= |s| && StripRight(s) == s[..k]
    ensures forall i | k <= i < |s| :: IsStripped(s[i])
    ensures k > 0 ==> !IsStripped(s[k - 1])
  {
    k := |s|;
    if s != "" && IsStripped(s[|s| - 1]) {
      k := StripRightIsCut(s[..|s| - 1]);
      assert s[..|s| - 1][..k] == s[..k];
    }
  }

  /** The loader of the log cuts white space at both ends of a line, and nothing else. */
  lemma StripExactly(s: string)
    ensures exists left: nat :: Inside(s, Strip(s), left, IsStripped)
  {
    var left := StripLeftIsCut(s);
    var size := StripRightIsCut(s[left..]);
    assert forall i | left <= i < |s| :: s[i] == s[left..][i - left];
    assert Inside(s, Strip(s), left, IsStripped);
  }

  // ---------- lines ----------

  lemma {:induction false} LinesCut(line: string, end: string, rest: string)
    requires OnOneLine(line)
    requires end == "\n" || end == "\r\n" || (end == "\r" && (rest == "" || rest[0] != '\n'))
    ensures LinesOf(line + end + rest) == [line] + LinesOf(rest)
  {
    var text := line + end + rest;
    if line == "" {
      assert text[|end|..] == rest;
    } else {
      var others := line[1..] + end + rest;
      assert line == [line[0]] + line[1..] && line[0] in line;
      assert text == [line[0]] + others;
      LinesCut(line[1..], end, rest);
      LinesOneMore(line[0], others);
    }
  }

  lemma {:induction false} LastLine(line: string)
    requires OnOneLine(line)
    ensures LinesOf(line) == [line]
  {
    if line != "" {
      assert line == [line[0]] + line[1..] && line[0] in line;
      LastLine(line[1..]);
      LinesOneMore(line[0], line[1..]);
    }
  }

  /** A line feed, a carriage return, or the two together end a line; what follows the last of them is a line too. */
  lemma LinesExactly(line: string, rest: string)
    requires OnOneLine(line)
    ensures LinesOf(line) == [line]
    ensures LinesOf(line + "\n" + rest) == [line] + LinesOf(rest)
    ensures LinesOf(line + "\r\n" + rest) == [line] + LinesOf(rest)
    ensures rest == "" || rest[0] != '\n' ==> LinesOf(line + "\r" + rest) == [line] + LinesOf(rest)
  {
    LastLine(line);
    LinesCut(line, "\n", rest);
    LinesCut(line, "\r\n", rest);
    if rest == "" || rest[0] != '\n' {
      LinesCut(line, "\r", rest);
    }
  }

  // ---------- loading ----------

  /** A line that is not blank and holds no record. */
  predicate BadLine(line: string) {
    Strip(line) != "" && DecodeObject(Strip(line)).None?
  }

  /** The records of the lines that hold one. */
  function RecordsIn(lines: seq<string>): seq<Fields> {
    if lines == [] then []
    else
      var first := Strip(lines[0]);
      if first != "" && DecodeObject(first).Some? then [Fields(DecodeObject(first).value)] + RecordsIn(lines[1..])
      else RecordsIn(lines[1..])
  }

  /** Line `i` is the first bad one; when `i` is the number of lines, none is bad. */
  ghost predicate FirstBadAt(lines: seq<string>, i: nat)
    decreases i
  {
    if i == 0 then lines == [] || BadLine(lines[0])
    else lines != [] && !BadLine(lines[0]) && FirstBadAt(lines[1..], i - 1)
  }

  lemma {:induction false} FirstBadMeans(lines: seq<string>, i: nat)
    requires i <= |lines| && (forall k | 0 <= k < i :: !BadLine(lines[k])) && (i < |lines| ==> BadLine(lines[i]))
    ensures FirstBadAt(lines, i)
    decreases i
  {
    if i > 0 {
      FirstBadMeans(lines[1..], i - 1);
    }
  }

  /** Loading these lines gives their records when `i` is their number, and otherwise stops at line `i`. */
  ghost predicate LoadsAs(lines: seq<string>, number: nat, i: nat) {
    && i <= |lines|
    && (i == |lines| ==> Loaded(lines, number) == Ok(RecordsIn(lines)))
    && (i < |lines| ==> Loaded(lines, number) == Err(InvalidJson(number + i)))
  }

  lemma LoadedOneMore(lines: seq<string>, number: nat, i: nat)
    requires lines != [] && !BadLine(lines[0]) && LoadsAs(lines[1..], number + 1, i)
    ensures LoadsAs(lines, number, i + 1)
  {
  }

  lemma LoadingEnds(lines: seq<string>, number: nat)
    requires lines == [] || BadLine(lines[0])
    ensures LoadsAs(lines, number, 0)
  {
  }

  lemma {:induction false} LoadsUpTo(lines: seq<string>, number: nat, i: nat)
    requires FirstBadAt(lines, i)
    ensures LoadsAs(lines, number, i)
    decreases i
  {
    if i > 0 {
      LoadsUpTo(lines[1..], number + 1, i - 1);
      LoadedOneMore(lines, number, i - 1);
    } else {
      LoadingEnds(lines, number);
    }
  }

  /** Loading succeeds exactly if no line is bad, and then gives the records of the lines in order, skipping blank
      ones; otherwise the error gives the number of the first bad line, counted from `number`. */
  lemma LoadedExactly(lines: seq<string>, number: nat, i: nat)
    requires i <= |lines| && (forall k | 0 <= k < i :: !BadLine(lines[k])) && (i < |lines| ==> BadLine(lines[i]))
    ensures i == |lines| ==> Loaded(lines, number) == Ok(RecordsIn(lines))
    ensures i < |lines| ==> Loaded(lines, number) == Err(InvalidJson(number + i))
  {
    FirstBadMeans(lines, i);
    LoadsUpTo(lines, number, i);
  }

  // ---------- looking up ----------

  /** A name that occurs more than once has its last value. */
  lemma {:induction false} LookupIsTheLast(members: seq<Member>, name: string, i: nat)
    requires i < |members| && members[i].name == name && forall k | i < k < |members| :: members[k].name != name
    ensures Lookup(members, name) == Some(members[i].value)
  {
    if i < |members| - 1 {
      LookupIsTheLast(members[..|members| - 1], name, i);
    }
  }

  lemma {:induction false} LookupIsNone(members: seq<Member>, name: string)
    requires forall m <- members :: m.name != name
    ensures Lookup(members, name) == None
  {
    if members != [] {
      assert members[|members| - 1] in members;
      LookupIsNone(members[..|members| - 1], name);
    }
  }

  // ---------- escapes ----------

  /** A hexadecimal digit. */
  function HexDigit(d: nat, upper: bool): char
    requires d < 16
  {
    if d < 10 then ('0' as int + d) as char
    else if upper then ('A' as int + (d - 10)) as char
    else ('a' as int + (d - 10)) as char
  }

  lemma HexDigitIsRead(d: nat, upper: bool)
    requires d < 16
    ensures IsHex(HexDigit(d, upper)) && HexValue(HexDigit(d, upper)) == d
  {
  }

  function FourDigits(a: nat, b: nat, c: nat, d: nat, upper: bool): string
    requires a < 16 && b < 16 && c < 16 && d < 16
  {
    [HexDigit(a, upper), HexDigit(b, upper), HexDigit(c, upper), HexDigit(d, upper)]
  }

  /** A four-digit escape stands for the character with that code, except for surrogates. */
  lemma HexEscapeIsDecoded(a: nat, b: nat, c: nat, d: nat, upper: bool, rest: string)
    requires a < 16 && b < 16 && c < 16 && d < 16
    ensures
      var code := a * 4096 + b * 256 + c * 16 + d;
      DecodeString("\\u" + FourDigits(a, b, c, d, upper) + rest) ==
        if 0xD800 <= code < 0xE000 then None else Prepend(code as char, DecodeString(rest))
  {
    HexDigitIsRead(a, upper);
    HexDigitIsRead(b, upper);
    HexDigitIsRead(c, upper);
    HexDigitIsRead(d, upper);
    var digits := FourDigits(a, b, c, d, upper);
    var text := "\\u" + digits + rest;
    assert text[2..6] == digits && text[6..] == rest;
  }

  /** Any other character after a backslash stands for itself or for a control character, or is an error. */
  lemma EscapeIsDecoded(c: char, rest: string)
    requires c != 'u'
    ensures DecodeString(['\\', c] + rest) ==
      if c == '"' || c == '\\' || c == '/' then Prepend(c, DecodeString(rest))
      else if c == 'b' then Prepend(8 as char, DecodeString(rest))
      else if c == 't' then Prepend(9 as char, DecodeString(rest))
      else if c == 'n' then Prepend(10 as char, DecodeString(rest))
      else if c == 'f' then Prepend(12 as char, DecodeString(rest))
      else if c == 'r' then Prepend(13 as char, DecodeString(rest))
      else None
  {
    var text := ['\\', c] + rest;
    assert text[2..] == rest;
  }

  // ---------- numbers ----------

  predicate NoDigits(s: string) {
    forall c <- s :: !IsDigit(c)
  }

  lemma {:induction false} DigitsAfter(prefix: string, n: nat, rest: string)
    requires NoDigits(prefix) && (rest == "" || !IsDigit(rest[0]))
    ensures FirstDigits(prefix + Digits(n) + rest) == Digits(n)
  {
    var text := prefix + Digits(n) + rest;
    if prefix == "" {
      assert text == Digits(n) + rest;
      FirstNumber(n, rest);
    } else {
      assert prefix == [prefix[0]] + prefix[1..] && prefix[0] in prefix;
      assert text[1..] == prefix[1..] + Digits(n) + rest;
      DigitsAfter(prefix[1..], n, rest);
    }
  }

  lemma {:induction false} NothingFirst(s: string)
    requires NoDigits(s)
    ensures FirstDigits(s) == ""
  {
    if s != "" {
      assert s[0] in s;
      NothingFirst(s[1..]);
    }
  }

  /** The first number of a text is read, whatever stands before and behind it; without one nothing is read, and
      one above 2147483647 is an error. */
  lemma FirstIntegerExactly(prefix: string, n: nat, rest: string)
    requires NoDigits(prefix) && (rest == "" || !IsDigit(rest[0]))
    ensures FirstInteger(prefix + Digits(n) + rest) ==
      if n <= 2_147_483_647 then Ok(Some(n)) else Err(NumberTooLarge(Digits(n)))
    ensures FirstInteger(prefix) == Ok(None)
  {
    DigitsAfter(prefix, n, rest);
    DigitsRead(n);
    NothingFirst(prefix);
  }

  /** A counter's line without a number leaves the counter as it is; a message figure without one is zero. */
  lemma LinesWithoutNumber(counter: map<string, int>, m: Messages, line: string)
    requires NoDigits(ValueAfterColon(line))
    ensures WithCounter(counter, line) == Ok(counter)
    ensures KeyOf(line) == "sent" ==> WithMessages(m, line) == Ok(m.(sent := 0))
    ensures KeyOf(line) == "received" ==> WithMessages(m, line) == Ok(m.(received := 0))
    ensures KeyOf(line) == "dropped" ==> WithMessages(m, line) == Ok(m.(dropped := 0))
  {
    NothingFirst(ValueAfterColon(line));
    assert |"sent"| == 4 && |"received"| == 8 && |"dropped"| == 7;
  }

  lemma SignedDigits(sign: string, n: nat)
    requires sign == "" || sign == "+" || sign == "-"
    ensures
      var value := sign + Digits(n);
      && value != "" && value[|sign|..] == Digits(n)
      && ((value[0] == '-' || value[0] == '+') <==> sign != "")
      && (sign != "" ==> value[0] == sign[0] && value[1..] == Digits(n))
      && (sign == "" ==> value == Digits(n))
  {
    DigitsRead(n);
    assert Digits(n)[0] in Digits(n);
  }

  /** A whole number counts with its sign if it is one of 32 bits, and as zero otherwise. */
  lemma IntegerExactly(sign: string, n: nat)
    requires sign == "" || sign == "+" || sign == "-"
    ensures
      var size: int := if sign == "-" then 0 - n else n;
      IntegerOrZero(sign + Digits(n)) == if -2_147_483_648 <= size <= 2_147_483_647 then size else 0
  {
    SignedDigits(sign, n);
    DigitsRead(n);
  }

  /** An analyzer's whole number, given as a text, counts with its sign. */
  lemma WholeExactly(sign: string, n: nat)
    requires sign == "" || sign == "+" || sign == "-"
    ensures WholeOrZero(sign + Digits(n)) == if sign == "-" then 0 - n else n as int
  {
    SignedDigits(sign, n);
    DigitsRead(n);
  }

  /** Any other text counts as zero. */
  lemma OthersAreZero(value: string)
    requires value == "" || (exists c <- value[1..] :: !IsDigit(c)) || (value[0] != '-' && value[0] != '+' && !IsDigit(value[0]))
    ensures IntegerOrZero(value) == 0 && WholeOrZero(value) == 0
  {
    if value != "" {
      assert value[0] in value;
      assert forall c <- value[1..] :: c in value;
    }
  }

  lemma {:induction false} PointIsFound(whole: string, rest: string)
    requires AllDigits(whole) && (rest == "" || rest[0] == '.')
    ensures PointAt(whole + rest) == |whole|
  {
    if whole != "" {
      assert whole == [whole[0]] + whole[1..] && whole[0] in whole;
      assert (whole + rest)[1..] == whole[1..] + rest;
      PointIsFound(whole[1..], rest);
    } else {
      assert whole + rest == rest;
    }
  }

  /** A decimal number is the digits before the point and the fraction behind it. */
  lemma DecimalParts(n: nat, digits: string)
    requires AllDigits(digits)
    ensures DecimalOrZero(Digits(n) + ("." + digits)) == n as real + Fraction(digits)
  {
    DigitsRead(n);
    var text := Digits(n) + ("." + digits);
    assert Digits(n)[0] in Digits(n) && text[0] == Digits(n)[0];
    PointIsFound(Digits(n), "." + digits);
    assert text[..|Digits(n)|] == Digits(n);
    assert text[|Digits(n)| + 1..] == digits;
  }
}
