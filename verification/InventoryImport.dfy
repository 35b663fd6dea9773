/** The parser of an inventory import: one payload per line. Bytes are characters
    below 256 here, so that the text functions apply to them. */
module InventoryImport {
  import opened Text

  predicate Bytes(raw: string) {
    forall i :: 0 <= i < |raw| ==> raw[i] < 256 as char
  }

  // ---------- UTF-8, as section 4 of RFC 3629 defines it ----------

  predicate Within(c: char, low: int, high: int) {
    low <= c as int <= high
  }

  predicate Tail(c: char) {
    Within(c, 0x80, 0xBF)
  }

  /** The length of the first well-formed character, or zero. */
  function CharLength(raw: string): (n: nat)
    ensures n <= |raw|
  {
    if raw == "" then 0
    else if raw[0] < 0x80 as char then 1
    else if |raw| >= 2 && Within(raw[0], 0xC2, 0xDF) && Tail(raw[1]) then 2
    else if |raw| >= 3 && ThreeByteHead(raw[0], raw[1]) && Tail(raw[2]) then 3
    else if |raw| >= 4 && FourByteHead(raw[0], raw[1]) && Tail(raw[2]) && Tail(raw[3]) then 4
    else 0
  }

  predicate ThreeByteHead(a: char, b: char) {
    || (Within(a, 0xE0, 0xE0) && Within(b, 0xA0, 0xBF))
    || (Within(a, 0xE1, 0xEC) && Tail(b))
    || (Within(a, 0xED, 0xED) && Within(b, 0x80, 0x9F))
    || (Within(a, 0xEE, 0xEF) && Tail(b))
  }

  predicate FourByteHead(a: char, b: char) {
    || (Within(a, 0xF0, 0xF0) && Within(b, 0x90, 0xBF))
    || (Within(a, 0xF1, 0xF3) && Tail(b))
    || (Within(a, 0xF4, 0xF4) && Within(b, 0x80, 0x8F))
  }

  predicate Utf8(raw: string)
    decreases |raw|
  {
    raw == "" || (CharLength(raw) > 0 && Utf8(raw[CharLength(raw)..]))
  }

  /** unicode.IsSpace, on the first character of the text. */
  function SpaceLength(raw: string): (n: nat)
    ensures n <= |raw|
  {
    if raw == "" then 0
    else if Within(raw[0], 0x09, 0x0D) || raw[0] == ' ' then 1
    else if |raw| >= 2 && Within(raw[0], 0xC2, 0xC2)
        && (Within(raw[1], 0x85, 0x85) || Within(raw[1], 0xA0, 0xA0)) then 2
    else if |raw| >= 3 && WideSpace(raw[0] as int, raw[1] as int, raw[2] as int) then 3
    else 0
  }

  predicate WideSpace(a: int, b: int, c: int) {
    || (a == 0xE1 && b == 0x9A && c == 0x80)
    || (a == 0xE2 && b == 0x80 && (0x80 <= c <= 0x8A || c in {0xA8, 0xA9, 0xAF}))
    || (a == 0xE2 && b == 0x81 && c == 0x9F)
    || (a == 0xE3 && b == 0x80 && c == 0x80)
  }

  /** bytes.TrimSpace leaves nothing. */
  predicate Blank(line: string)
    decreases |line|
  {
    line == "" || (SpaceLength(line) > 0 && Blank(line[SpaceLength(line)..]))
  }

  // ---------- the parser ----------

  const LF := '\n'
  const CR := '\r'

  datatype Limits = Limits(maxItems: int, maxItemBytes: int, maxTotalBytes: int)

  datatype ImportError = BadLimits | BadPayload | LimitExceeded

  datatype Import = Parsed(items: seq<string>, rejected: nat) | Refused(error: ImportError)

  predicate ValidLimits(l: Limits) {
    l.maxItems > 0 && l.maxItemBytes > 0 && 0 < l.maxTotalBytes && l.maxItemBytes <= l.maxTotalBytes
  }

  /** A line without its one trailing CR. */
  function Chomp(line: string): string {
    if line != "" && line[|line| - 1] == CR then line[..|line| - 1] else line
  }

  predicate EndsInCr(line: string) {
    line != "" && line[|line| - 1] == CR
  }

  /** The payloads of the lines: the non-blank ones, chomped, in order. */
  function Payloads(lines: seq<string>): seq<string> {
    if lines == [] then []
    else
      var line := Chomp(lines[|lines| - 1]);
      Payloads(lines[..|lines| - 1]) + if Blank(line) then [] else [line]
  }

  predicate Fits(items: seq<string>, l: Limits) {
    |items| <= l.maxItems && forall k :: 0 <= k < |items| ==> |items[k]| <= l.maxItemBytes
  }

  predicate Readable(raw: string, l: Limits) {
    ValidLimits(l) && raw != "" && Utf8(raw) && |raw| <= l.maxTotalBytes
  }

  /** ParseInventoryImport: it succeeds if and only if the text is readable and its
      payloads fit and are not none, and then gives exactly those payloads and
      counts every other line as rejected. */
  method Parse(raw: string, l: Limits) returns (r: Import)
    requires Bytes(raw)
    ensures r.Parsed? <==> Readable(raw, l) && Fits(Payloads(Split(raw, LF)), l) && Payloads(Split(raw, LF)) != []
    ensures r.Parsed? ==> r.items == Payloads(Split(raw, LF)) && |r.items| + r.rejected == |Split(raw, LF)|
    ensures r == Refused(BadLimits) <==> !ValidLimits(l)
    ensures r == Refused(LimitExceeded) <==>
              ValidLimits(l) && raw != "" && Utf8(raw)
                  && (|raw| > l.maxTotalBytes || !Fits(Payloads(Split(raw, LF)), l))
  {
    if l.maxItems <= 0 || l.maxItemBytes <= 0 || l.maxTotalBytes <= 0 || l.maxItemBytes > l.maxTotalBytes {
      return Refused(BadLimits);
    }
    if raw == "" || !Utf8(raw) {
      return Refused(BadPayload);
    }
    if |raw| > l.maxTotalBytes {
      return Refused(LimitExceeded);
    }
    r := Collect(Split(raw, LF), l);
  }

  /** The loop over the lines. */
  method Collect(lines: seq<string>, l: Limits) returns (r: Import)
    requires l.maxItems > 0
    ensures r.Parsed? <==> Fits(Payloads(lines), l) && Payloads(lines) != []
    ensures r.Parsed? ==> r.items == Payloads(lines) && |r.items| + r.rejected == |lines|
    ensures r == Refused(LimitExceeded) <==> !Fits(Payloads(lines), l)
    ensures r.Refused? ==> r.error != BadLimits
  {
    var items: seq<string> := [];
    var rejected := 0;
    var k := 0;
    while k < |lines|
      invariant 0 <= k <= |lines|
      invariant items == Payloads(lines[..k])
      invariant |items| + rejected == k
      invariant Fits(items, l)
    {
      var line := Chomp(lines[k]);
      PayloadsOfOneMore(lines, k);
      if Blank(line) {
        rejected := rejected + 1;
      } else {
        if |line| > l.maxItemBytes || |items| == l.maxItems {
          TooMuch(lines, k, l);
          return Refused(LimitExceeded);
        }
        OneMoreFits(items, line, l);
        items := items + [line];
      }
      k := k + 1;
    }
    assert lines[..k] == lines;
    if items == [] {
      return Refused(BadPayload);
    }
    r := Parsed(items, rejected);
  }

  lemma OneMoreFits(items: seq<string>, line: string, l: Limits)
    requires Fits(items, l) && |items| < l.maxItems && |line| <= l.maxItemBytes
    ensures Fits(items + [line], l)
  {
  }

  lemma PayloadsOfOneMore(lines: seq<string>, k: nat)
    requires k < |lines|
    ensures Payloads(lines[..k + 1]) == if Blank(Chomp(lines[k])) then Payloads(lines[..k])
            else Payloads(lines[..k]) + [Chomp(lines[k])]
  {
    assert lines[..k + 1][..k] == lines[..k];
    assert Payloads(lines[..k]) + [] == Payloads(lines[..k]);
  }

  /** A payload that does not fit any more makes the whole import too large. */
  lemma TooMuch(lines: seq<string>, k: nat, l: Limits)
    requires k < |lines| && !Blank(Chomp(lines[k]))
    requires |Chomp(lines[k])| > l.maxItemBytes || |Payloads(lines[..k])| >= l.maxItems
    ensures !Fits(Payloads(lines), l)
  {
    var items := Payloads(lines[..k]);
    PayloadsOfOneMore(lines, k);
    PayloadsGrow(lines, k + 1);
    assert Payloads(lines)[|items|] == (items + [Chomp(lines[k])])[|items|];
  }

  /** The payloads of the first lines come first. */
  lemma {:induction false} PayloadsGrow(lines: seq<string>, k: nat)
    requires k <= |lines|
    ensures Payloads(lines[..k]) <= Payloads(lines)
    decreases |lines| - k
  {
    if k == |lines| {
      assert lines[..k] == lines;
    } else {
      assert lines[..k + 1][..k] == lines[..k];
      PayloadsGrow(lines, k + 1);
    }
  }

  // ---------- UTF-8 and code points ----------

  /** The code points that can be encoded: all but the surrogates. */
  predicate Scalar(c: int) {
    0 <= c < 0xD800 || 0xE000 <= c < 0x11_0000
  }

  /** The bytes of a code point: its bits, six to a byte, under the head of its length. */
  function Encoded(c: int): (bytes: string)
    requires Scalar(c)
    ensures bytes != ""
  {
    if c < 0x80 then [c as char]
    else if c < 0x800 then [(0xC0 + c / 64) as char, (0x80 + c % 64) as char]
    else if c < 0x1_0000 then
      [(0xE0 + c / 4096) as char, (0x80 + c / 64 % 64) as char, (0x80 + c % 64) as char]
    else
      [(0xF0 + c / 262144) as char, (0x80 + c / 4096 % 64) as char, (0x80 + c / 64 % 64) as char,
       (0x80 + c % 64) as char]
  }

  /** What an encoded code point starts is read as one character of that length. */
  lemma EncodedIsRead(c: int, rest: string)
    requires Scalar(c)
    ensures CharLength(Encoded(c) + rest) == |Encoded(c)|
  {
  }

  /** The code point whose bits are the given six-bit digits. */
  function FromBits(high: int, middle: int, low: int): int {
    4096 * high + 64 * middle + low
  }

  lemma BitsReadBack(high: int, middle: int, low: int)
    requires 0 <= high && 0 <= middle < 64 && 0 <= low < 64
    ensures var c := FromBits(high, middle, low);
            c % 64 == low && c / 64 == 64 * high + middle && c / 64 % 64 == middle && c / 4096 == high
  {
  }

  /** And nothing else is: the first character of a text is some encoded code point. */
  lemma ReadIsEncoded(raw: string) returns (c: int)
    requires CharLength(raw) > 0
    ensures Scalar(c) && raw[..CharLength(raw)] == Encoded(c)
  {
    var n := CharLength(raw);
    if n == 1 {
      c := raw[0] as int;
      assert raw[..1] == [raw[0]];
    } else if n == 2 {
      c := FromBits(0, raw[0] as int - 0xC0, raw[1] as int - 0x80);
      assert raw[..2] == [raw[0], raw[1]];
    } else if n == 3 {
      c := FromBits(raw[0] as int - 0xE0, raw[1] as int - 0x80, raw[2] as int - 0x80);
      BitsReadBack(raw[0] as int - 0xE0, raw[1] as int - 0x80, raw[2] as int - 0x80);
      assert raw[..3] == [raw[0], raw[1], raw[2]];
    } else {
      c := FourBytesAreEncoded(raw);
    }
  }

  lemma FourBytesAreEncoded(raw: string) returns (c: int)
    requires CharLength(raw) == 4
    ensures Scalar(c) && raw[..4] == Encoded(c)
  {
    var high := 64 * (raw[0] as int - 0xF0) + (raw[1] as int - 0x80);
    c := FromBits(high, raw[2] as int - 0x80, raw[3] as int - 0x80);
    BitsReadBack(high, raw[2] as int - 0x80, raw[3] as int - 0x80);
    assert c / 262144 == high / 64;
    assert raw[..4] == [raw[0], raw[1], raw[2], raw[3]];
  }

  /** Exactly the encoded white space is cut away. */
  lemma SpaceIsExact(c: int, rest: string)
    requires Scalar(c)
    ensures SpaceLength(Encoded(c) + rest) == if WhiteSpace(c) then |Encoded(c)| else 0
  {
    var text := Encoded(c) + rest;
    assert forall i :: 0 <= i < |Encoded(c)| ==> text[i] == Encoded(c)[i];
  }

  // ---------- UTF-8 and separators ----------

  /** A character before an ASCII one does not reach into it. */
  lemma CharStopsAtAscii(a: string, c: char, b: string)
    requires a != "" && c < 0x80 as char
    ensures CharLength(a + [c] + b) == CharLength(a)
  {
    var whole := a + [c] + b;
    assert forall i :: 0 <= i < |a| ==> whole[i] == a[i];
    assert whole[|a|] == c;
  }

  /** Cutting valid text around an ASCII character leaves valid texts, and only then. */
  lemma {:induction false} Utf8Cuts(a: string, c: char, b: string)
    requires c < 0x80 as char
    ensures Utf8(a + [c] + b) <==> Utf8(a) && Utf8(b)
    decreases |a|
  {
    var whole := a + [c] + b;
    if a == "" {
      assert whole[1..] == b;
    } else {
      CharStopsAtAscii(a, c, b);
      var n := CharLength(a);
      if n > 0 {
        assert whole[n..] == a[n..] + [c] + b;
        Utf8Cuts(a[n..], c, b);
      }
    }
  }

  lemma {:induction false} SplitUtf8(text: string)
    ensures Utf8(text) ==> forall k :: 0 <= k < |Split(text, LF)| ==> Utf8(Split(text, LF)[k])
    decreases |text|
  {
    if Utf8(text) {
      JoinSplit(text, LF);
      JoinedUtf8(Split(text, LF));
    }
  }

  /** Lines joined by LF are valid exactly if each of them is. */
  lemma {:induction false} JoinedUtf8(parts: seq<string>)
    requires parts != []
    ensures Utf8(Join(parts, LF)) <==> forall k :: 0 <= k < |parts| ==> Utf8(parts[k])
    decreases |parts|
  {
    if |parts| == 1 {
    } else {
      var front, last := parts[..|parts| - 1], parts[|parts| - 1];
      JoinedUtf8(front);
      Utf8Cuts(Join(front, LF), LF, last);
      assert parts == front + [last];
      EachUtf8(front, last, parts);
    }
  }

  lemma EachUtf8(front: seq<string>, last: string, parts: seq<string>)
    requires parts == front + [last]
    ensures (forall k :: 0 <= k < |parts| ==> Utf8(parts[k])) <==>
            (forall k :: 0 <= k < |front| ==> Utf8(front[k])) && Utf8(last)
  {
    assert forall k :: 0 <= k < |front| ==> parts[k] == front[k];
    assert parts[|front|] == last;
  }

  lemma ChompedUtf8(line: string)
    requires Utf8(line)
    ensures Utf8(Chomp(line))
  {
    if EndsInCr(line) {
      assert line == Chomp(line) + [CR] + "";
      Utf8Cuts(Chomp(line), CR, "");
    }
  }

  // ---------- reading the items back ----------

  /** Every payload is a non-blank valid line without a separator, and together they
      are no longer than the text they came from. */
  lemma {:induction false} PayloadsAreLines(lines: seq<string>)
    requires forall k :: 0 <= k < |lines| ==> Utf8(lines[k]) && Free(lines[k], LF)
    ensures forall k :: 0 <= k < |Payloads(lines)| ==>
            Utf8(Payloads(lines)[k]) && Free(Payloads(lines)[k], LF) && !Blank(Payloads(lines)[k])
    ensures Total(Payloads(lines)) <= Total(lines) && |Payloads(lines)| <= |lines|
  {
    if lines == [] {
    } else {
      var front := lines[..|lines| - 1];
      var last := lines[|lines| - 1];
      forall k | 0 <= k < |front|
        ensures Utf8(front[k]) && Free(front[k], LF)
      {
        assert front[k] == lines[k];
      }
      PayloadsAreLines(front);
      ChompedUtf8(last);
      assert Payloads(front) + [] == Payloads(front);
      assert (Payloads(front) + [Chomp(last)])[..|Payloads(front)|] == Payloads(front);
    }
  }

  /** Lines that are payloads already are kept as they are, but for a trailing CR. */
  lemma {:induction false} PayloadsOfItems(items: seq<string>)
    requires forall k :: 0 <= k < |items| ==> !Blank(items[k])
    ensures Payloads(items) == items <==> forall k :: 0 <= k < |items| ==> !EndsInCr(items[k])
    ensures |Payloads(items)| <= |items|
    decreases |items|
  {
    if items == [] {
    } else {
      var (front, last) := (items[..|items| - 1], items[|items| - 1]);
      PayloadsOfItems(front);
      assert items == front + [last];
      NoneEndsInCr(front, last, items);
      if EndsInCr(last) {
        OtherLast(front, last, Payloads(front), Chomp(last));
      } else {
        SameLast(Payloads(front), front, last);
      }
    }
  }

  lemma NoneEndsInCr(front: seq<string>, last: string, items: seq<string>)
    requires items == front + [last]
    ensures (forall k :: 0 <= k < |items| ==> !EndsInCr(items[k])) <==>
            (forall k :: 0 <= k < |front| ==> !EndsInCr(front[k])) && !EndsInCr(last)
  {
    assert forall k :: 0 <= k < |front| ==> items[k] == front[k];
    assert items[|front|] == last;
  }

  lemma SameLast(a: seq<string>, b: seq<string>, last: string)
    ensures a + [last] == b + [last] <==> a == b
  {
    if a + [last] == b + [last] {
      assert a == (a + [last])[..|a|] == (b + [last])[..|b|] == b;
    }
  }

  lemma OtherLast(front: seq<string>, last: string, front': seq<string>, last': string)
    requires last != last' && |front'| <= |front|
    ensures front' + (if Blank(last') then [] else [last']) != front + [last]
  {
    assert (front + [last])[|front|] == last;
    assert (front' + [last'])[|front'|] == last';
  }

  /** Writing the accepted items back, one per line, and parsing them again gives the
      same items with none rejected, if and only if no item ends in a CR. */
  lemma ItemsReadBack(raw: string, l: Limits)
    requires Readable(raw, l)
    requires var items := Payloads(Split(raw, LF)); items != [] && Fits(items, l)
    ensures var items := Payloads(Split(raw, LF));
            var again := Join(items, LF);
            && Readable(again, l)
            && Split(again, LF) == items
            && (Payloads(Split(again, LF)) == items <==> forall k :: 0 <= k < |items| ==> !EndsInCr(items[k]))
  {
    var lines := Split(raw, LF);
    var items := Payloads(lines);
    SplitUtf8(raw);
    SplitIsFree(raw, LF);
    PayloadsAreLines(lines);
    SplitJoined(items, LF);
    JoinedUtf8(items);
    JoinSplit(raw, LF);
    JoinLength(lines, LF);
    JoinLength(items, LF);
    assert items[0] != "" && Split("", LF) == [""];
    PayloadsOfItems(items);
  }
}
