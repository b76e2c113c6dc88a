/**
 * The ASCII form of a scanner command: a keyword followed by space-separated
 * fields.  Integers are written as Python's "%d" writes them, EEPROM bytes as
 * Python's hex() writes them ("0xff", "-0x5").  Parse reads a line back, and
 * ParseRender proves that every well-formed line reads back as itself.
 */
module WireFormat {
  import opened Wrappers

  datatype Field = Dec(n: int) | Hex(h: int) | Word(w: string)

  /** A command as the device reads it. */
  datatype Line = Line(keyword: string, fields: seq<Field>)

  // ---------------------------------------------------------------- digits

  predicate IsDigit(c: char) { '0' <= c <= '9' }

  function DigitChar(d: nat): (c: char)
    requires d < 16
    ensures c != ' ' && c != '-'
  {
    if d < 10 then ['0','1','2','3','4','5','6','7','8','9'][d]
    else ['a','b','c','d','e','f'][d - 10]
  }

  /** The value of a hexadecimal digit character (any other character reads as 0). */
  function DigitValue(c: char): nat
  {
    if '0' <= c <= '9' then (c as int - '0' as int) as nat
    else if 'a' <= c <= 'f' then (c as int - 'a' as int + 10) as nat
    else 0
  }

  lemma DigitRoundTrip(d: nat)
    requires d < 16
    ensures DigitValue(DigitChar(d)) == d
    ensures d < 10 <==> IsDigit(DigitChar(d))
  {
  }

  /** n written in base 10 (base 16), most significant digit first, no leading zeros. */
  function NatToBase(n: nat, base: nat): (s: string)
    requires base == 10 || base == 16
    ensures |s| > 0
    ensures forall i :: 0 <= i < |s| ==> s[i] != ' ' && s[i] != '-'
    ensures base == 10 ==> forall i :: 0 <= i < |s| ==> IsDigit(s[i])
  {
    if n < base then [DigitChar(n)]
    else NatToBase(n / base, base) + [DigitChar(n % base)]
  }

  /** The natural number a string of digits denotes in the given base. */
  function ParseBase(s: string, base: nat): nat
  {
    if |s| == 0 then 0
    else ParseBase(s[..|s| - 1], base) * base + DigitValue(s[|s| - 1])
  }

  lemma {:induction false} ParseNatToBase(n: nat, base: nat)
    requires base == 10 || base == 16
    ensures ParseBase(NatToBase(n, base), base) == n
  {
    if n < base {
      DigitRoundTrip(n);
    } else {
      var s := NatToBase(n, base);
      var prefix := NatToBase(n / base, base);
      assert s[..|s| - 1] == prefix;
      DigitRoundTrip(n % base);
      ParseNatToBase(n / base, base);
    }
  }

  /** Python's "%d" % i. */
  function IntToString(i: int): string
  {
    if i < 0 then "-" + NatToBase(-i, 10) else NatToBase(i, 10)
  }

  /** Python's hex(i). */
  function HexString(i: int): string
  {
    if i < 0 then "-0x" + NatToBase(-i, 16) else "0x" + NatToBase(i, 16)
  }

  // ---------------------------------------------------------------- tokens

  predicate SpaceFree(t: string) { forall i :: 0 <= i < |t| ==> t[i] != ' ' }

  /** A token that cannot be mistaken for a number: non-empty, no spaces, not starting with a digit or '-'. */
  predicate WordOk(w: string)
  {
    |w| > 0 && SpaceFree(w) && !IsDigit(w[0]) && w[0] != '-'
  }

  function RenderField(f: Field): string
  {
    match f
    case Dec(n) => IntToString(n)
    case Hex(h) => HexString(h)
    case Word(w) => w
  }

  function ParseField(t: string): Field
  {
    if |t| >= 2 && t[..2] == "0x" then Hex(ParseBase(t[2..], 16))
    else if |t| >= 3 && t[..3] == "-0x" then Hex(-(ParseBase(t[3..], 16) as int))
    else if |t| >= 1 && IsDigit(t[0]) then Dec(ParseBase(t, 10))
    else if |t| >= 2 && t[0] == '-' && IsDigit(t[1]) then Dec(-(ParseBase(t[1..], 10) as int))
    else Word(t)
  }

  predicate FieldOk(f: Field) { f.Word? ==> WordOk(f.w) }

  lemma ParseDec(n: int)
    ensures SpaceFree(IntToString(n))
    ensures ParseField(IntToString(n)) == Dec(n)
  {
    var t := IntToString(n);
    if n < 0 {
      var digits := NatToBase(-n, 10);
      ParseNatToBase(-n, 10);
      assert t[1..] == digits;
      assert t[0] == '-' && t[1] == digits[0];
      assert |t| >= 3 ==> t[..3] != "-0x" by {
        if |t| >= 3 { assert t[..3][2] == digits[1]; }
      }
    } else {
      ParseNatToBase(n, 10);
      assert |t| >= 2 ==> t[..2] != "0x" by {
        if |t| >= 2 { assert t[..2][1] == t[1]; }
      }
    }
  }

  lemma ParseHex(h: int)
    ensures SpaceFree(HexString(h))
    ensures ParseField(HexString(h)) == Hex(h)
  {
    var t := HexString(h);
    if h < 0 {
      ParseNatToBase(-h, 16);
      assert t[..2] != "0x" by { assert t[0] == '-'; }
      assert t[..3] == "-0x" && t[3..] == NatToBase(-h, 16);
    } else {
      ParseNatToBase(h, 16);
      assert t[..2] == "0x" && t[2..] == NatToBase(h, 16);
    }
  }

  lemma ParseRenderField(f: Field)
    requires FieldOk(f)
    ensures SpaceFree(RenderField(f))
    ensures ParseField(RenderField(f)) == f
  {
    match f
    case Dec(n) => ParseDec(n);
    case Hex(h) => ParseHex(h);
    case Word(w) =>
  }

  /** Tokens joined by single spaces. */
  function Join(ts: seq<string>): string
  {
    if |ts| == 0 then ""
    else if |ts| == 1 then ts[0]
    else ts[0] + " " + Join(ts[1..])
  }

  /** The index of the first space in s, or |s| when there is none. */
  function SpaceIndex(s: string): (i: nat)
    ensures i <= |s|
    ensures i < |s| ==> s[i] == ' '
    ensures forall j :: 0 <= j < i ==> s[j] != ' '
  {
    if |s| == 0 then 0
    else if s[0] == ' ' then 0
    else 1 + SpaceIndex(s[1..])
  }

  /** The tokens of s, split at every single space. */
  function Split(s: string): (ts: seq<string>)
    ensures |ts| > 0
    decreases |s|
  {
    var i := SpaceIndex(s);
    if i == |s| then [s] else [s[..i]] + Split(s[i + 1..])
  }

  lemma SpaceIndexOfJoined(t: string, rest: string)
    requires SpaceFree(t)
    ensures SpaceIndex(t + " " + rest) == |t|
  {
    var s := t + " " + rest;
    assert forall j :: 0 <= j < |t| ==> s[j] == t[j];
    assert s[|t|] == ' ';
  }

  lemma {:induction false} SplitJoin(ts: seq<string>)
    requires |ts| > 0
    requires forall k :: 0 <= k < |ts| ==> SpaceFree(ts[k])
    ensures Split(Join(ts)) == ts
  {
    if |ts| == 1 {
      assert SpaceIndex(ts[0]) == |ts[0]|;
    } else {
      var rest := Join(ts[1..]);
      var s := ts[0] + " " + rest;
      assert Join(ts) == s;
      SpaceIndexOfJoined(ts[0], rest);
      assert s[..|ts[0]|] == ts[0];
      assert s[|ts[0]| + 1..] == rest;
      SplitJoin(ts[1..]);
      assert ts == [ts[0]] + ts[1..];
    }
  }

  // ---------------------------------------------------------------- lines

  function RenderFields(fs: seq<Field>): (ts: seq<string>)
    ensures |ts| == |fs|
    ensures forall k :: 0 <= k < |fs| ==> ts[k] == RenderField(fs[k])
  {
    if |fs| == 0 then [] else [RenderField(fs[0])] + RenderFields(fs[1..])
  }

  /** The text of a command, without the newline the transport appends. */
  function Render(l: Line): string
  {
    Join([l.keyword] + RenderFields(l.fields))
  }

  /** A command without fields is its keyword. */
  lemma RenderKeyword(keyword: string)
    ensures Render(Command(keyword, [])) == keyword
  {
    assert [keyword] + RenderFields(Command(keyword, []).fields) == [keyword];
  }

  /** A command with one integer field is the keyword, a space, and "%d" of the value. */
  lemma RenderOne(keyword: string, v: int)
    ensures Render(Command(keyword, [v])) == keyword + " " + IntToString(v)
  {
    var fs := Command(keyword, [v]).fields;
    assert fs == [Dec(v)];
    assert RenderFields(fs) == [IntToString(v)];
    var ts := [keyword] + RenderFields(fs);
    assert ts[1..] == [IntToString(v)];
    assert Join(ts) == keyword + " " + Join(ts[1..]);
  }

  predicate LineOk(l: Line)
  {
    WordOk(l.keyword) && forall k :: 0 <= k < |l.fields| ==> FieldOk(l.fields[k])
  }

  /** Reads a command line back: the keyword must be a word, every other token becomes a field. */
  function Parse(s: string): Option<Line>
  {
    var ts := Split(s);
    if WordOk(ts[0]) then Some(Line(ts[0], ParseFields(ts[1..]))) else None
  }

  function ParseFields(ts: seq<string>): (fs: seq<Field>)
    ensures |fs| == |ts|
    ensures forall k :: 0 <= k < |ts| ==> fs[k] == ParseField(ts[k])
  {
    if |ts| == 0 then [] else [ParseField(ts[0])] + ParseFields(ts[1..])
  }

  lemma RenderedTokens(l: Line)
    requires LineOk(l)
    ensures forall k :: 0 <= k < |l.fields| ==>
      SpaceFree(RenderFields(l.fields)[k]) && ParseField(RenderFields(l.fields)[k]) == l.fields[k]
  {
    forall k | 0 <= k < |l.fields|
      ensures SpaceFree(RenderFields(l.fields)[k]) && ParseField(RenderFields(l.fields)[k]) == l.fields[k]
    {
      ParseRenderField(l.fields[k]);
    }
  }

  /** Encoder round trip: every well-formed line reads back exactly. */
  lemma ParseRender(l: Line)
    requires LineOk(l)
    ensures Parse(Render(l)) == Some(l)
  {
    var rs := RenderFields(l.fields);
    var ts := [l.keyword] + rs;
    RenderedTokens(l);
    assert forall k :: 0 <= k < |ts| ==> SpaceFree(ts[k]) by {
      forall k | 0 <= k < |ts| ensures SpaceFree(ts[k]) {
        if k > 0 { assert ts[k] == rs[k - 1]; }
      }
    }
    SplitJoin(ts);
    assert Split(Render(l)) == ts;
    var parsed := ParseFields(ts[1..]);
    assert |parsed| == |l.fields|;
    forall k | 0 <= k < |parsed| ensures parsed[k] == l.fields[k] {
      assert ts[1..][k] == rs[k];
    }
    assert parsed == l.fields;
  }

  /** A well-formed line has exactly one rendering: no two lines share a text. */
  lemma RenderInjective(l1: Line, l2: Line)
    requires LineOk(l1) && LineOk(l2)
    requires Render(l1) == Render(l2)
    ensures l1 == l2
  {
    ParseRender(l1);
    ParseRender(l2);
  }

  // ------------------------------------------------- convenience constructors

  /** A command with integer fields only, as "%s %d %d ..." formats it. */
  function Command(keyword: string, args: seq<int>): Line
  {
    Line(keyword, Decimals(args))
  }

  function Decimals(args: seq<int>): (fs: seq<Field>)
    ensures |fs| == |args|
    ensures forall k :: 0 <= k < |args| ==> fs[k] == Dec(args[k])
  {
    if |args| == 0 then [] else [Dec(args[0])] + Decimals(args[1..])
  }

  lemma CommandOk(keyword: string, args: seq<int>)
    requires WordOk(keyword)
    ensures LineOk(Command(keyword, args))
    ensures Parse(Render(Command(keyword, args))) == Some(Command(keyword, args))
  {
    ParseRender(Command(keyword, args));
  }
}
