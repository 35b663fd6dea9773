/** Decimal text, white space and separators, as strconv, unicode and strings handle them. */
module Text {
  import opened Results

  predicate IsDigit(c: char) {
    '0' <= c <= '9'
  }

  function DigitChar(d: nat): (c: char)
    requires d < 10
    ensures IsDigit(c) && (c as int) - ('0' as int) == d
  {
    ('0' as int + d) as char
  }

  function DigitValue(c: char): (d: nat)
    requires IsDigit(c)
    ensures d < 10
  {
    (c as int) - ('0' as int)
  }

  /** The decimal digits of a number, without leading zeros. */
  function Decimal(n: nat): (text: string)
    ensures text != [] && forall i :: 0 <= i < |text| ==> IsDigit(text[i])
  {
    if n < 10 then [DigitChar(n)] else Decimal(n / 10) + [DigitChar(n % 10)]
  }

  predicate AllDigits(text: string) {
    forall i :: 0 <= i < |text| ==> IsDigit(text[i])
  }

  /** The number a run of digits denotes; leading zeros are allowed. */
  function Number(text: string): nat
    requires AllDigits(text)
  {
    if text == [] then 0 else 10 * Number(text[..|text| - 1]) + DigitValue(text[|text| - 1])
  }

  /** strconv.ParseInt in base ten: an optional sign and at least one digit, within
      the range of a signed integer whose largest value is given. */
  function ParseInt(text: string, largest: nat): Option<int> {
    if text == [] then None
    else
      var signed := text[0] == '+' || text[0] == '-';
      var digits := if signed then text[1..] else text;
      if digits == [] || !AllDigits(digits) then None
      else
        var value := Signed(text[0] == '-', Number(digits));
        if value + largest + 1 >= 0 && value <= largest then Some(value) else None
  }

  function Signed(negative: bool, magnitude: int): int {
    if negative then -magnitude else magnitude
  }

  lemma {:induction false} NumberOfDecimal(n: nat)
    ensures Number(Decimal(n)) == n
  {
    if n < 10 {
    } else {
      NumberOfDecimal(n / 10);
      assert Decimal(n)[..|Decimal(n)| - 1] == Decimal(n / 10);
    }
  }

  /** The shortest text of a number: no digits denote it with fewer characters. */
  lemma {:induction false} DecimalIsShortest(text: string)
    requires text != [] && AllDigits(text)
    ensures |Decimal(Number(text))| <= |text|
  {
    var rest := text[..|text| - 1];
    var n := Number(text);
    assert n / 10 == Number(rest);
    if rest == [] {
    } else {
      DecimalIsShortest(rest);
    }
  }

  /** Printing a number and parsing it back, which works if and only if it is in range. */
  lemma ParsePrinted(n: nat, largest: nat)
    ensures ParseInt(Decimal(n), largest) == if n <= largest then Some(n) else None
  {
    NumberOfDecimal(n);
    assert IsDigit(Decimal(n)[0]);
  }

  /** Whatever text denotes a number, its printed form is not longer. */
  lemma PrintedIsShort(text: string, largest: nat)
    requires ParseInt(text, largest).Some? && ParseInt(text, largest).value >= 0
    ensures |Decimal(ParseInt(text, largest).value)| <= |text|
  {
    var digits := if text[0] == '+' || text[0] == '-' then text[1..] else text;
    DecimalIsShortest(digits);
    if text[0] == '-' {
      assert Number(digits) == 0;
    }
  }

  // ---------- white space ----------

  /** unicode.IsSpace, by code point. */
  predicate WhiteSpace(c: int) {
    || 0x9 <= c <= 0xD || c in {0x20, 0x85, 0xA0, 0x1680, 0x2028, 0x2029, 0x202F, 0x205F, 0x3000}
    || 0x2000 <= c <= 0x200A
  }

  // ---------- separators ----------

  predicate Free(text: string, separator: char) {
    forall i :: 0 <= i < |text| ==> text[i] != separator
  }

  /** strings.Split at one character: the last part comes after the last separator. */
  function Split(text: string, separator: char): (parts: seq<string>)
    ensures parts != []
  {
    if text == [] then [""]
    else
      var parts := Split(text[..|text| - 1], separator);
      var last := text[|text| - 1];
      if last == separator then parts + [""] else Lengthened(parts, [last])
  }

  /** The parts with a longer last one. */
  function Lengthened(parts: seq<string>, tail: string): seq<string>
    requires parts != []
  {
    parts[..|parts| - 1] + [parts[|parts| - 1] + tail]
  }

  lemma LengthenedTwice(parts: seq<string>, a: string, b: string)
    requires parts != []
    ensures Lengthened(Lengthened(parts, a), b) == Lengthened(parts, a + b)
  {
    var last := parts[|parts| - 1];
    assert last + a + b == last + (a + b);
  }

  /** strings.Join with one character. */
  function Join(parts: seq<string>, separator: char): string
    requires parts != []
  {
    if |parts| == 1 then parts[0] else Join(parts[..|parts| - 1], separator) + [separator] + parts[|parts| - 1]
  }

  /** One more character at the end of the text. */
  lemma SplitStep(text: string, c: char, separator: char)
    ensures var parts := Split(text, separator);
            Split(text + [c], separator) == if c == separator then parts + [""] else Lengthened(parts, [c])
  {
    assert (text + [c])[..|text|] == text;
  }

  lemma {:induction false} SplitAppends(text: string, tail: string, separator: char)
    requires Free(tail, separator)
    ensures Split(text + tail, separator) == Lengthened(Split(text, separator), tail)
    decreases |tail|
  {
    var parts := Split(text, separator);
    if tail == [] {
      assert text + tail == text;
      assert parts[|parts| - 1] + tail == parts[|parts| - 1];
    } else {
      var (shorter, c) := (tail[..|tail| - 1], tail[|tail| - 1]);
      assert tail == shorter + [c];
      assert text + tail == text + shorter + [c];
      SplitAppends(text, shorter, separator);
      SplitStep(text + shorter, c, separator);
      LengthenedTwice(parts, shorter, [c]);
    }
  }

  lemma SplitOneMore(text: string, last: string, separator: char)
    requires Free(last, separator)
    ensures Split(text + [separator] + last, separator) == Split(text, separator) + [last]
  {
    SplitStep(text, separator, separator);
    SplitAppends(text + [separator], last, separator);
    assert "" + last == last;
  }

  /** Splitting a joined list of parts gives the parts back. */
  lemma {:induction false} SplitJoined(parts: seq<string>, separator: char)
    requires parts != [] && forall k :: 0 <= k < |parts| ==> Free(parts[k], separator)
    ensures Split(Join(parts, separator), separator) == parts
    decreases |parts|
  {
    var (front, last) := (parts[..|parts| - 1], parts[|parts| - 1]);
    assert parts == front + [last];
    if front == [] {
      SplitOfFree(last, separator);
    } else {
      SplitJoined(front, separator);
      JoinMore(front, last, separator);
      SplitOneMore(Join(front, separator), last, separator);
    }
  }

  lemma SplitOfFree(text: string, separator: char)
    requires Free(text, separator)
    ensures Split(text, separator) == [text]
  {
    SplitAppends("", text, separator);
    assert "" + text == text;
  }

  lemma {:induction false} SplitIsFree(text: string, separator: char)
    ensures forall k :: 0 <= k < |Split(text, separator)| ==> Free(Split(text, separator)[k], separator)
  {
    if text == [] {
    } else {
      SplitIsFree(text[..|text| - 1], separator);
    }
  }

  /** A longer last part makes the joined text longer by as much. */
  lemma JoinLonger(parts: seq<string>, tail: string, separator: char)
    requires parts != []
    ensures Join(Lengthened(parts, tail), separator) == Join(parts, separator) + tail
  {
    var longer := Lengthened(parts, tail);
    assert longer[..|longer| - 1] == parts[..|parts| - 1];
  }

  lemma JoinMore(parts: seq<string>, last: string, separator: char)
    requires parts != []
    ensures Join(parts + [last], separator) == Join(parts, separator) + [separator] + last
  {
    assert (parts + [last])[..|parts|] == parts;
  }

  /** Joining the parts of a split text gives the text back. */
  lemma {:induction false} JoinSplit(text: string, separator: char)
    ensures Join(Split(text, separator), separator) == text
  {
    if text == [] {
    } else {
      var front := text[..|text| - 1];
      var last := text[|text| - 1];
      JoinSplit(front, separator);
      var parts := Split(front, separator);
      assert front + [last] == text;
      if last == separator {
        JoinMore(parts, "", separator);
        assert front + [separator] + "" == text;
      } else {
        JoinLonger(parts, [last], separator);
      }
    }
  }

  /** The length of a joined text. */
  function Total(parts: seq<string>): nat {
    if parts == [] then 0 else Total(parts[..|parts| - 1]) + |parts[|parts| - 1]|
  }

  lemma {:induction false} JoinLength(parts: seq<string>, separator: char)
    requires parts != []
    ensures |Join(parts, separator)| == Total(parts) + |parts| - 1
    decreases |parts|
  {
    if |parts| > 1 {
      JoinLength(parts[..|parts| - 1], separator);
    } else {
      assert parts[..0] == [];
    }
  }

  lemma {:induction false} TotalGrows(small: seq<string>, large: seq<string>)
    requires |small| == |large| && forall k :: 0 <= k < |small| ==> |small[k]| <= |large[k]|
    ensures Total(small) <= Total(large)
  {
    if small == [] {
    } else {
      TotalGrows(small[..|small| - 1], large[..|large| - 1]);
    }
  }
}
