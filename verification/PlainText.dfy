/** Lines of text: splitting, trimming, decimal numbers. */
module PlainText {

  // ---------- characters ----------

  /** Characters that end a line for the reader. */
  predicate IsBreak(c: char) {
    10 <= c as int <= 13 || c as int == 0x85 || c as int == 0x2028 || c as int == 0x2029
  }

  /** White space in the sense of the reader's `stripTrailing` and `isBlank`. */
  predicate IsSpace(c: char) {
    var n := c as int;
    || 9 <= n <= 13 || 28 <= n <= 32 || n == 0x1680 || 0x2000 <= n <= 0x2006 || 0x2008 <= n <= 0x200A
    || n == 0x2028 || n == 0x2029 || n == 0x205F || n == 0x3000
  }

  /** What the reader's `trim` removes. */
  predicate IsTrimmed(c: char) {
    c as int <= 32
  }

  predicate IsDigit(c: char) {
    '0' <= c <= '9'
  }

  function TrimLeft(s: string): string {
    if s != "" && IsTrimmed(s[0]) then TrimLeft(s[1..]) else s
  }

  function TrimRight(s: string): string {
    if s != "" && IsTrimmed(s[|s| - 1]) then TrimRight(s[..|s| - 1]) else s
  }

  function Trim(s: string): string {
    TrimRight(TrimLeft(s))
  }

  function StripTrailing(s: string): string {
    if s != "" && IsSpace(s[|s| - 1]) then StripTrailing(s[..|s| - 1]) else s
  }

  predicate IsBlank(s: string) {
    forall c <- s :: IsSpace(c)
  }

  predicate StartsWith(s: string, prefix: string) {
    |prefix| <= |s| && s[..|prefix|] == prefix
  }

  /** A line's own text: it neither begins nor ends with white space. */
  predicate Neat(s: string) {
    && s != ""
    && !IsTrimmed(s[0]) && !IsSpace(s[0])
    && !IsTrimmed(s[|s| - 1]) && !IsSpace(s[|s| - 1])
  }

  predicate AllTrimmed(s: string) {
    forall c <- s :: IsTrimmed(c)
  }

  lemma {:induction false} TrimLeftDropsIndent(indent: string, body: string)
    requires AllTrimmed(indent) && Neat(body)
    ensures TrimLeft(indent + body) == body
  {
    if indent == "" {
      assert indent + body == body;
    } else {
      assert indent == [indent[0]] + indent[1..];
      assert indent[0] in indent;
      assert (indent + body)[1..] == indent[1..] + body;
      TrimLeftDropsIndent(indent[1..], body);
    }
  }

  /** The reader sees the text of an indented line, and the line itself keeps its indent. */
  lemma IndentedLine(indent: string, body: string)
    requires AllTrimmed(indent) && Neat(body)
    ensures StripTrailing(indent + body) == indent + body
    ensures Trim(indent + body) == body
    ensures !IsBlank(body)
  {
    TrimLeftDropsIndent(indent, body);
    assert body[0] in body;
  }

  lemma {:induction false} StrippedIsFront(s: string)
    ensures |StripTrailing(s)| <= |s| && StripTrailing(s) == s[..|StripTrailing(s)|]
  {
    if s != "" && IsSpace(s[|s| - 1]) {
      StrippedIsFront(s[..|s| - 1]);
    }
  }

  // ---------- lines ----------

  function SplitLines(text: string): (lines: seq<string>)
    ensures lines != []
  {
    if text == "" then [""]
    else
      var rest := SplitLines(text[1..]);
      if IsBreak(text[0]) then [""] + rest else [[text[0]] + rest[0]] + rest[1..]
  }

  function JoinLines(lines: seq<string>): string {
    if lines == [] then "" else lines[0] + "\n" + JoinLines(lines[1..])
  }

  predicate OneLine(s: string) {
    forall c <- s :: !IsBreak(c)
  }

  lemma {:induction false} SplitFirstLine(line: string, rest: string)
    requires OneLine(line)
    ensures SplitLines(line + "\n" + rest) == [line] + SplitLines(rest)
  {
    var text := line + "\n" + rest;
    if line == "" {
      assert text[1..] == rest;
    } else {
      assert line == [line[0]] + line[1..];
      assert line[0] in line && OneLine(line[1..]);
      assert text[1..] == line[1..] + "\n" + rest;
      SplitFirstLine(line[1..], rest);
    }
  }

  /** Lines written one after another are read back, followed by the empty rest. */
  lemma {:induction false} SplitJoined(lines: seq<string>)
    requires forall line <- lines :: OneLine(line)
    ensures SplitLines(JoinLines(lines)) == lines + [""]
  {
    if lines != [] {
      assert lines == [lines[0]] + lines[1..];
      assert lines[0] in lines;
      SplitJoined(lines[1..]);
      SplitFirstLine(lines[0], JoinLines(lines[1..]));
    }
  }

  // ---------- colons ----------

  /** The position of the first colon, or the length. */
  function ColonAt(s: string): (i: nat)
    ensures i <= |s|
    ensures i < |s| ==> s[i] == ':'
    ensures forall k | 0 <= k < i :: s[k] != ':'
  {
    if s == "" || s[0] == ':' then 0 else 1 + ColonAt(s[1..])
  }

  lemma ColonAfterKey(key: string, rest: string)
    requires ':' !in key
    ensures ColonAt(key + ":" + rest) == |key|
  {
    var s := key + ":" + rest;
    var i := ColonAt(s);
    assert s[|key|] == ':';
    assert forall k | 0 <= k < |key| :: s[k] == key[k] && key[k] in key;
  }

  // ---------- decimal numbers ----------

  function DigitChar(d: nat): char
    requires d < 10
  {
    ('0' as int + d) as char
  }

  function DigitValue(c: char): nat
    requires IsDigit(c)
  {
    c as int - '0' as int
  }

  function Digits(n: nat): string {
    if n < 10 then [DigitChar(n)] else Digits(n / 10) + [DigitChar(n % 10)]
  }

  function SignedText(i: int): string {
    if i < 0 then "-" + Digits(-i) else Digits(i)
  }

  predicate AllDigits(s: string) {
    forall c <- s :: IsDigit(c)
  }

  function NumberOf(digits: string): nat
    requires AllDigits(digits)
  {
    if digits == "" then 0
    else
      assert forall c <- digits[..|digits| - 1] :: c in digits;
      10 * NumberOf(digits[..|digits| - 1]) + DigitValue(digits[|digits| - 1])
  }

  lemma {:induction false} DigitsRead(n: nat)
    ensures Digits(n) != "" && AllDigits(Digits(n)) && NumberOf(Digits(n)) == n
  {
    if n >= 10 {
      DigitsRead(n / 10);
    }
  }

  function LeadingDigits(s: string): (digits: string)
    ensures AllDigits(digits)
  {
    if s != "" && IsDigit(s[0]) then [s[0]] + LeadingDigits(s[1..]) else ""
  }

  /** The first run of digits. */
  function FirstDigits(s: string): (digits: string)
    ensures AllDigits(digits)
  {
    if s == "" then ""
    else if IsDigit(s[0]) then LeadingDigits(s)
    else FirstDigits(s[1..])
  }

  lemma {:induction false} LeadingDigitsOf(digits: string, rest: string)
    requires AllDigits(digits) && (rest == "" || !IsDigit(rest[0]))
    ensures LeadingDigits(digits + rest) == digits
  {
    if digits == "" {
      assert digits + rest == rest;
    } else {
      assert digits == [digits[0]] + digits[1..];
      assert digits[0] in digits && AllDigits(digits[1..]);
      assert (digits + rest)[1..] == digits[1..] + rest;
      LeadingDigitsOf(digits[1..], rest);
    }
  }

  /** The number at the start of a value is the first one in it. */
  lemma FirstNumber(n: nat, rest: string)
    requires rest == "" || !IsDigit(rest[0])
    ensures FirstDigits(Digits(n) + rest) == Digits(n)
  {
    DigitsRead(n);
    assert Digits(n)[0] in Digits(n);
    LeadingDigitsOf(Digits(n), rest);
  }
}
