/** Log records as JSON lines (RFC 8259, sections 4, 6 and 7). */
module JsonText {
  import opened Common
  import opened PlainText

  // ---------- strings ----------

  /** What the writer puts for one character. */
  function EscapeChar(c: char): string {
    if c == '"' then ['\\', '"']
    else if c == '\\' then ['\\', '\\']
    else if c as int == 8 then ['\\', 'b']
    else if c as int == 12 then ['\\', 'f']
    else if c == '\n' then ['\\', 'n']
    else if c == '\r' then ['\\', 'r']
    else if c == '\t' then ['\\', 't']
    else [c]
  }

  function Escape(s: string): string {
    if s == "" then "" else Escape(s[..|s| - 1]) + EscapeChar(s[|s| - 1])
  }

  method EscapeJsonString(value: string) returns (escaped: string)
    ensures escaped == Escape(value)
  {
    escaped := "";
    for i := 0 to |value|
      invariant escaped == Escape(value[..i])
    {
      assert value[..i + 1][..i] == value[..i];
      escaped := escaped + EscapeChar(value[i]);
    }
    assert value[..|value|] == value;
  }

  /** A control character that the writer leaves as it is. */
  predicate Unhandled(c: char) {
    c as int < 32 && c as int != 8 && c as int != 9 && c as int != 10 && c as int != 12 && c as int != 13
  }

  predicate Encodable(s: string) {
    forall c <- s :: !Unhandled(c)
  }

  /** Section 7: what follows a backslash, other than the four-digit form. */
  function Unescape(c: char): Option<char> {
    if c == '"' || c == '\\' || c == '/' then Some(c)
    else if c == 'b' then Some(8 as char)
    else if c == 'f' then Some(12 as char)
    else if c == 'n' then Some('\n')
    else if c == 'r' then Some('\r')
    else if c == 't' then Some('\t')
    else None
  }

  predicate IsHex(c: char) {
    IsDigit(c) || 'a' <= c <= 'f' || 'A' <= c <= 'F'
  }

  function HexValue(c: char): nat
    requires IsHex(c)
  {
    if IsDigit(c) then DigitValue(c)
    else if 'a' <= c <= 'f' then c as int - 'a' as int + 10
    else c as int - 'A' as int + 10
  }

  /** The character of a `\u` escape; surrogate halves are left to the caller. */
  function HexChar(s: string): Option<char>
    requires |s| >= 4
  {
    if IsHex(s[0]) && IsHex(s[1]) && IsHex(s[2]) && IsHex(s[3]) then
      var n := ((HexValue(s[0]) * 16 + HexValue(s[1])) * 16 + HexValue(s[2])) * 16 + HexValue(s[3]);
      if n < 0xD800 || 0xE000 <= n then Some(n as char) else None
    else None
  }

  datatype Decoded<T> = Decoded(value: T, rest: string)

  /** The text up to the closing quote, and what follows it; no raw control character is allowed. */
  function DecodeString(s: string): (r: Option<Decoded<string>>)
    ensures r.Some? ==> |r.value.rest| < |s|
  {
    if s == "" then None
    else if s[0] == '"' then Some(Decoded("", s[1..]))
    else if s[0] == '\\' then
      if |s| >= 6 && s[1] == 'u' then
        (match HexChar(s[2..6])
         case None => None
         case Some(c) => Prepend(c, DecodeString(s[6..])))
      else if |s| >= 2 then
        (match Unescape(s[1])
         case None => None
         case Some(c) => Prepend(c, DecodeString(s[2..])))
      else None
    else if s[0] as int < 32 then None
    else Prepend(s[0], DecodeString(s[1..]))
  }

  function Prepend(c: char, r: Option<Decoded<string>>): Option<Decoded<string>> {
    match r
    case None => None
    case Some(d) => Some(Decoded([c] + d.value, d.rest))
  }

  lemma {:induction false} EscapeFirst(s: string)
    requires s != ""
    ensures Escape(s) == EscapeChar(s[0]) + Escape(s[1..])
  {
    if |s| > 1 {
      var init, last := s[..|s| - 1], s[|s| - 1];
      EscapeFirst(init);
      assert s[1..][..|s| - 2] == init[1..];
    } else {
      assert s[..0] == "" && s[1..] == "";
    }
  }

  lemma DecodeEscaped(c: char, rest: string)
    ensures DecodeString(EscapeChar(c) + rest) == if Unhandled(c) then None else Prepend(c, DecodeString(rest))
  {
    var text := EscapeChar(c) + rest;
    if |EscapeChar(c)| == 2 {
      assert text[2..] == rest;
    } else {
      assert text[1..] == rest;
    }
  }

  /** Decoding undoes escaping, up to the writer's own closing quote, for exactly the texts without a control
      character that the writer does not handle; any other text does not decode at all. */
  lemma {:induction false} EscapeRoundTrip(s: string, rest: string)
    ensures DecodeString(Escape(s) + "\"" + rest) == if Encodable(s) then Some(Decoded(s, rest)) else None
  {
    if s == "" {
      assert Escape(s) + "\"" + rest == "\"" + rest;
      assert ("\"" + rest)[1..] == rest;
    } else {
      assert s == [s[0]] + s[1..];
      EscapeFirst(s);
      EscapeRoundTrip(s[1..], rest);
      assert Escape(s) + "\"" + rest == EscapeChar(s[0]) + (Escape(s[1..]) + "\"" + rest);
      DecodeEscaped(s[0], Escape(s[1..]) + "\"" + rest);
    }
  }

  /** Escaped text stays on its line. */
  lemma {:induction false} EscapedHasNoBreak(s: string)
    ensures forall c <- Escape(s) :: c != '\n' && c != '\r'
  {
    if s != "" {
      EscapedHasNoBreak(s[..|s| - 1]);
    }
  }

  // ---------- values and objects ----------

  datatype Json = Number(n: int) | Text(s: string) | Flag(b: bool)

  datatype Member = Member(name: string, value: Json)

  function Quoted(s: string): string {
    "\"" + (Escape(s) + "\"")
  }

  function ValueText(value: Json): string {
    match value
    case Number(n) => SignedText(n)
    case Text(s) => Quoted(s)
    case Flag(b) => if b then "true" else "false"
  }

  /** The members, separated by commas, with the closing brace. */
  function MembersText(members: seq<Member>): string
    requires members != []
  {
    Quoted(members[0].name) + (":" + (ValueText(members[0].value) +
      (if |members| == 1 then "}" else "," + MembersText(members[1..]))))
  }

  function RecordText(members: seq<Member>): string {
    "{" + (if members == [] then "}" else MembersText(members))
  }

  /** Section 6: a single zero, or digits that begin with another digit. */
  function IntegerPart(s: string): (digits: string)
    ensures AllDigits(digits) && |digits| <= |s|
  {
    LeadingIsFront(s);
    if s != "" && s[0] == '0' then "0" else LeadingDigits(s)
  }

  function DecodeNumber(s: string): (r: Option<Decoded<Json>>)
    ensures r.Some? ==> |r.value.rest| < |s|
  {
    var negative := s != "" && s[0] == '-';
    var body := if negative then s[1..] else s;
    var digits := IntegerPart(body);
    if digits == "" then None
    else Some(Decoded(Number(if negative then -(NumberOf(digits) as int) else NumberOf(digits)), body[|digits|..]))
  }

  lemma {:induction false} LeadingIsFront(s: string)
    ensures |LeadingDigits(s)| <= |s|
  {
    if s != "" && IsDigit(s[0]) {
      LeadingIsFront(s[1..]);
    }
  }

  /** A number, a string or a truth value; other JSON values are not part of a record. */
  function DecodeValue(s: string): (r: Option<Decoded<Json>>)
    ensures r.Some? ==> |r.value.rest| < |s|
  {
    if s == "" then None
    else if s[0] == '"' then
      (match DecodeString(s[1..])
       case None => None
       case Some(d) => Some(Decoded(Text(d.value), d.rest)))
    else if StartsWith(s, "true") then Some(Decoded(Flag(true), s[4..]))
    else if StartsWith(s, "false") then Some(Decoded(Flag(false), s[5..]))
    else DecodeNumber(s)
  }

  function DecodeMember(s: string): (r: Option<Decoded<Member>>)
    ensures r.Some? ==> |r.value.rest| < |s|
  {
    if s == "" || s[0] != '"' then None
    else
      match DecodeString(s[1..])
      case None => None
      case Some(name) =>
        if name.rest == "" || name.rest[0] != ':' then None
        else
          match DecodeValue(name.rest[1..])
          case None => None
          case Some(value) => Some(Decoded(Member(name.value, value.value), value.rest))
  }

  function DecodeMembers(s: string): Option<seq<Member>>
    decreases |s|
  {
    match DecodeMember(s)
    case None => None
    case Some(first) =>
      if first.rest == "}" then Some([first.value])
      else if first.rest == "" || first.rest[0] != ',' then None
      else
        match DecodeMembers(first.rest[1..])
        case None => None
        case Some(others) => Some([first.value] + others)
  }

  /** A flat JSON object written without white space. */
  function DecodeObject(s: string): Option<seq<Member>> {
    if s == "" || s[0] != '{' then None
    else if s == "{}" then Some([])
    else DecodeMembers(s[1..])
  }

  predicate EncodableValue(value: Json) {
    value.Text? ==> Encodable(value.s)
  }

  predicate EncodableMember(member: Member) {
    Encodable(member.name) && EncodableValue(member.value)
  }

  predicate EncodableRecord(members: seq<Member>) {
    forall member <- members :: EncodableMember(member)
  }

  /** What may follow a value in a record. */
  predicate Ends(rest: string) {
    rest != "" && (rest[0] == ',' || rest[0] == '}')
  }

  lemma QuotedIsDecoded(s: string, rest: string)
    ensures (Quoted(s) + rest)[0] == '"'
    ensures DecodeString((Quoted(s) + rest)[1..]) == if Encodable(s) then Some(Decoded(s, rest)) else None
  {
    EscapeRoundTrip(s, rest);
    assert (Quoted(s) + rest)[1..] == Escape(s) + "\"" + rest;
  }

  /** A number is written without leading zeros. */
  lemma {:induction false} NoLeadingZero(n: nat)
    ensures Digits(n) != "" && (Digits(n)[0] == '0' ==> n == 0)
  {
    if n >= 10 {
      NoLeadingZero(n / 10);
    }
  }

  lemma DigitsLead(n: nat, rest: string)
    requires Ends(rest)
    ensures Digits(n) != "" && IsDigit(Digits(n)[0]) && AllDigits(Digits(n)) && NumberOf(Digits(n)) == n
    ensures IntegerPart(Digits(n) + rest) == Digits(n) && (Digits(n) + rest)[|Digits(n)|..] == rest
  {
    DigitsRead(n);
    NoLeadingZero(n);
    assert (Digits(n) + rest)[0] == Digits(n)[0];
    assert Digits(n)[0] in Digits(n);
    LeadingDigitsOf(Digits(n), rest);
  }

  lemma NaturalIsDecoded(n: nat, rest: string)
    requires Ends(rest)
    ensures DecodeNumber(Digits(n) + rest) == Some(Decoded(Number(n), rest))
  {
    DigitsLead(n, rest);
    assert (Digits(n) + rest)[0] == Digits(n)[0];
  }

  lemma MinusIsDecoded(body: string, digits: string, n: nat)
    requires IntegerPart(body) == digits && AllDigits(digits) && digits != "" && NumberOf(digits) == n
    ensures DecodeNumber("-" + body) == Some(Decoded(Number(0 - n), body[|digits|..]))
  {
    var text := "-" + body;
    assert text[0] == '-' && text[1..] == body;
  }

  lemma NegativeIsDecoded(n: nat, rest: string)
    requires Ends(rest)
    ensures DecodeNumber("-" + Digits(n) + rest) == Some(Decoded(Number(0 - n), rest))
  {
    DigitsLead(n, rest);
    MinusIsDecoded(Digits(n) + rest, Digits(n), n);
    assert "-" + Digits(n) + rest == "-" + (Digits(n) + rest);
  }

  lemma NumberIsDecoded(n: int, rest: string)
    requires Ends(rest)
    ensures DecodeNumber(SignedText(n) + rest) == Some(Decoded(Number(n), rest))
    ensures SignedText(n)[0] == '-' || IsDigit(SignedText(n)[0])
  {
    if n < 0 {
      NegativeIsDecoded(-n, rest);
    } else {
      NaturalIsDecoded(n, rest);
      DigitsLead(n, rest);
    }
  }

  lemma ValueIsDecoded(value: Json, rest: string)
    requires Ends(rest)
    ensures DecodeValue(ValueText(value) + rest) == if EncodableValue(value) then Some(Decoded(value, rest)) else None
  {
    var text := ValueText(value) + rest;
    match value
    case Text(s) =>
      QuotedIsDecoded(s, rest);
    case Number(n) =>
      NumberIsDecoded(n, rest);
      assert text[0] == SignedText(n)[0];
      assert "true"[0] == 't' && "false"[0] == 'f';
    case Flag(b) =>
      assert text[..|ValueText(value)|] == ValueText(value) && text[|ValueText(value)|..] == rest;
      if !b {
        assert text[0] == 'f' && "true"[0] == 't';
      }
  }

  lemma MemberIsDecoded(member: Member, rest: string)
    requires Ends(rest)
    ensures DecodeMember(Quoted(member.name) + (":" + (ValueText(member.value) + rest))) ==
      if EncodableMember(member) then Some(Decoded(member, rest)) else None
  {
    var after := ":" + (ValueText(member.value) + rest);
    QuotedIsDecoded(member.name, after);
    assert after[1..] == ValueText(member.value) + rest;
    ValueIsDecoded(member.value, rest);
  }

  /** A record is decoded to its members if all its names and texts are encodable, and otherwise rejected. */
  lemma {:induction false} MembersAreDecoded(members: seq<Member>)
    requires members != []
    ensures DecodeMembers(MembersText(members)) == if EncodableRecord(members) then Some(members) else None
    decreases |members|
  {
    assert members == [members[0]] + members[1..];
    if |members| == 1 {
      MemberIsDecoded(members[0], "}");
      assert members == [members[0]];
      assert EncodableRecord(members) == EncodableMember(members[0]);
    } else {
      var rest := "," + MembersText(members[1..]);
      MembersAreDecoded(members[1..]);
      MemberIsDecoded(members[0], rest);
      assert rest[1..] == MembersText(members[1..]);
    }
  }

  lemma RecordIsDecoded(members: seq<Member>)
    ensures DecodeObject(RecordText(members)) == if EncodableRecord(members) then Some(members) else None
  {
    if members == [] {
      assert RecordText(members) == "{}";
    } else {
      MembersAreDecoded(members);
      assert RecordText(members)[1..] == MembersText(members);
      assert MembersText(members)[0] == '"';
      assert RecordText(members)[1] == '"' && "{}"[1] == '}';
    }
  }
}
