/** Payment references: generation from random bytes, and extraction from the
    free text of a bank transfer, in any script. */
module PaymentReference {
  import opened Results

  type Byte = b: int | 0 <= b < 256

  // ---------- generation ----------

  /** safeReferencePart. */
  predicate SafePrefix(prefix: string) {
    1 <= |prefix| <= 12 && forall i :: 0 <= i < |prefix| ==> 'A' <= prefix[i] <= 'Z' || '0' <= prefix[i] <= '9'
  }

  /** Upper-case Base 16, as section 8 of RFC 4648 prints one digit. */
  function HexDigit(d: nat): (c: char)
    requires d < 16
    ensures IsUpperHex(c)
    ensures HexValue(c) == d
  {
    if d < 10 then ('0' as int + d) as char else ('A' as int + d - 10) as char
  }

  predicate IsUpperHex(c: char) {
    '0' <= c <= '9' || 'A' <= c <= 'F'
  }

  function HexValue(c: char): nat
    requires IsUpperHex(c)
  {
    if c <= '9' then (c as int) - ('0' as int) else (c as int) - ('A' as int) + 10
  }

  function Hex(bytes: seq<Byte>): string {
    if bytes == [] then ""
      else Hex(bytes[..|bytes| - 1]) + [HexDigit(bytes[|bytes| - 1] / 16), HexDigit(bytes[|bytes| - 1] % 16)]
  }

  /** Generate, from what the random reader delivers: a short read fails. */
  function Generate(prefix: string, count: nat, random: seq<Byte>): Result<string> {
    if |random| < count then Err(PaymentReferenceCollision) else Ok(prefix + Hex(random[..count]))
  }

  predicate AllUpperHex(text: string) {
    text != "" && forall i :: 0 <= i < |text| ==> IsUpperHex(text[i])
  }

  lemma {:induction false} HexIsHex(bytes: seq<Byte>)
    ensures |Hex(bytes)| == 2 * |bytes|
    ensures bytes != [] ==> AllUpperHex(Hex(bytes))
  {
    if bytes == [] {
    } else {
      HexIsHex(bytes[..|bytes| - 1]);
    }
  }

  lemma HexEnds(a: seq<Byte>)
    requires a != []
    ensures var n := |a| - 1;
            && |Hex(a)| == 2 * n + 2 && Hex(a)[..2 * n] == Hex(a[..n])
            && Hex(a)[2 * n] == HexDigit(a[n] / 16) && Hex(a)[2 * n + 1] == HexDigit(a[n] % 16)
  {
    HexIsHex(a[..|a| - 1]);
  }

  lemma ByteHasItsDigits(x: Byte, y: Byte)
    requires HexDigit(x / 16) == HexDigit(y / 16) && HexDigit(x % 16) == HexDigit(y % 16)
    ensures x == y
  {
    assert HexValue(HexDigit(x / 16)) == HexValue(HexDigit(y / 16));
    assert HexValue(HexDigit(x % 16)) == HexValue(HexDigit(y % 16));
  }

  /** Distinct bytes have distinct texts. */
  lemma {:induction false} HexIsInjective(a: seq<Byte>, b: seq<Byte>)
    requires |a| == |b| && Hex(a) == Hex(b)
    ensures a == b
  {
    if a == [] {
    } else {
      var n := |a| - 1;
      HexEnds(a);
      HexEnds(b);
      ByteHasItsDigits(a[n], b[n]);
      HexIsInjective(a[..n], b[..n]);
      assert a == a[..n] + [a[n]] && b == b[..n] + [b[n]];
    }
  }

  lemma DistinctBytesDistinctReferences(prefix: string, count: nat, a: seq<Byte>, b: seq<Byte>)
    requires |a| >= count && |b| >= count
    ensures Generate(prefix, count, a) == Generate(prefix, count, b) <==> a[..count] == b[..count]
  {
    if Generate(prefix, count, a) == Generate(prefix, count, b) {
      assert (prefix + Hex(a[..count]))[|prefix|..] == Hex(a[..count]);
      assert (prefix + Hex(b[..count]))[|prefix|..] == Hex(b[..count]);
      HexIsInjective(a[..count], b[..count]);
    }
  }

  // ---------- extraction ----------

  /** The Unicode tables the extractor consults: which characters are letters,
      digits or the hyphen, and the upper case of each character. */
  datatype Letters = Letters(word: char -> bool, upper: char -> char)

  /** Whatever the tables say elsewhere, they agree with ASCII. */
  ghost predicate AgreesWithAscii(l: Letters) {
    forall c: char :: c as int < 128 ==> l.word(c) == IsWord(c) && l.upper(c) == UpperChar(c)
  }

  datatype Extractor = Extractor(prefix: string, bytes: nat, limit: nat, letters: Letters)

  /** What NewPaymentReferenceExtractor accepts. */
  ghost predicate Usable(e: Extractor) {
    SafePrefix(e.prefix) && 4 <= e.bytes <= 24 && 0 < e.limit <= 8192 && AgreesWithAscii(e.letters)
  }

  /** The length of a text in bytes: each character takes one to four of them. An
      invalid byte is read as one replacement character. */
  predicate Sized(content: string, size: nat) {
    |content| <= size <= 4 * |content|
  }

  datatype Extraction = Missing | Invalid | Multiple | Exact(reference: string)

  predicate IsWord(c: char) {
    'a' <= c <= 'z' || 'A' <= c <= 'Z' || '0' <= c <= '9' || c == '-'
  }

  function UpperChar(c: char): char {
    if 'a' <= c <= 'z' then ((c as int) - ('a' as int) + ('A' as int)) as char else c
  }

  /** strings.ToUpper, character by character. */
  function Upper(l: Letters, text: string): (upper: string)
    ensures |upper| == |text|
  {
    seq(|text|, i requires 0 <= i < |text| => l.upper(text[i]))
  }

  /** The stretches of word characters, empty ones between adjacent separators included. */
  function Runs(l: Letters, text: string): (runs: seq<string>)
    ensures runs != []
  {
    if text == "" then [""]
    else
      var runs := Runs(l, text[..|text| - 1]);
      var last := text[|text| - 1];
      if l.word(last) then Extend(runs, last) else runs + [""]
  }

  /** One more character in the last run. */
  function Extend(runs: seq<string>, c: char): seq<string>
    requires runs != []
  {
    runs[..|runs| - 1] + [runs[|runs| - 1] + [c]]
  }

  function NonEmpty(runs: seq<string>): seq<string> {
    if runs == [] then []
    else NonEmpty(runs[..|runs| - 1]) + if runs[|runs| - 1] == "" then [] else [runs[|runs| - 1]]
  }

  function UpperAll(l: Letters, words: seq<string>): (upper: seq<string>)
    ensures |upper| == |words| && forall k :: 0 <= k < |words| ==> upper[k] == Upper(l, words[k])
  {
    seq(|words|, k requires 0 <= k < |words| => Upper(l, words[k]))
  }

  /** strings.FieldsFunc on the separators, then every field in upper case. */
  function Tokens(l: Letters, content: string): seq<string> {
    UpperAll(l, NonEmpty(Runs(l, content)))
  }

  /** A token that starts like a reference of this extractor. */
  predicate Resembles(e: Extractor, token: string) {
    e.prefix <= token && |token| > |e.prefix| && IsUpperHex(token[|e.prefix|])
  }

  predicate WellFormed(e: Extractor, token: string) {
    e.prefix <= token && |token| == |e.prefix| + 2 * e.bytes && AllUpperHex(token[|e.prefix|..])
  }

  predicate LookAlike(e: Extractor, token: string) {
    Resembles(e, token) && !WellFormed(e, token)
  }

  function References(e: Extractor, tokens: seq<string>): seq<string> {
    if tokens == [] then []
    else References(e, tokens[..|tokens| - 1]) + if WellFormed(e, tokens[|tokens| - 1]) then [tokens[|tokens| - 1]]
      else []
  }

  predicate HasLookAlike(e: Extractor, tokens: seq<string>) {
    exists k :: 0 <= k < |tokens| && LookAlike(e, tokens[k])
  }

  /** What a text is read as: exactly one reference and nothing that looks like one,
      or the reason why not. */
  function Reading(e: Extractor, content: string, size: nat): Extraction {
    var tokens := Tokens(e.letters, content);
    var references := References(e, tokens);
    if size > e.limit then Invalid
    else if references == [] then if HasLookAlike(e, tokens) then Invalid else Missing
    else if |references| == 1 && !HasLookAlike(e, tokens) then Exact(references[0])
    else Multiple
  }

  /** Extract: the loop over the tokens. It answers exact if and only if the text is
      within the limit, exactly one token is well formed and no token only looks
      like a reference; the other answers say why not. */
  method Extract(e: Extractor, content: string, size: nat) returns (r: Extraction)
    requires Usable(e) && Sized(content, size)
    ensures r == Reading(e, content, size)
    ensures r.Exact? <==>
              size <= e.limit && |References(e, Tokens(e.letters, content))| == 1
                  && !HasLookAlike(e, Tokens(e.letters, content))
    ensures r.Exact? ==> References(e, Tokens(e.letters, content)) == [r.reference]
  {
    if content == "" {
      NonEmptyOne("");
      assert Tokens(e.letters, "") == [];
      return Missing;
    }
    if size > e.limit {
      return Invalid;
    }
    var tokens := Tokens(e.letters, content);
    var valid: seq<string> := [];
    var invalid := false;
    var k := 0;
    while k < |tokens|
      invariant 0 <= k <= |tokens|
      invariant valid == References(e, tokens[..k])
      invariant invalid == HasLookAlike(e, tokens[..k])
    {
      var token := tokens[k];
      assert tokens[..k + 1][..k] == tokens[..k];
      assert HasLookAlike(e, tokens[..k + 1]) == (HasLookAlike(e, tokens[..k]) || LookAlike(e, token)) by {
        LookAlikeGrows(e, tokens, k);
      }
      if e.prefix <= token {
        var suffix := token[|e.prefix|..];
        if suffix != "" && IsUpperHex(suffix[0]) {
          if |token| == |e.prefix| + 2 * e.bytes && AllUpperHex(suffix) {
            valid := valid + [token];
          } else {
            invalid := true;
          }
        }
      }
      k := k + 1;
    }
    assert tokens[..k] == tokens;
    if |valid| > 1 {
      r := Multiple;
    } else if |valid| == 1 {
      r := if invalid then Multiple else Exact(valid[0]);
    } else {
      r := if invalid then Invalid else Missing;
    }
  }

  lemma LookAlikeGrows(e: Extractor, tokens: seq<string>, k: nat)
    requires k < |tokens|
    ensures HasLookAlike(e, tokens[..k + 1]) <==> HasLookAlike(e, tokens[..k]) || LookAlike(e, tokens[k])
  {
    var small, large := tokens[..k], tokens[..k + 1];
    if HasLookAlike(e, small) {
      var i :| 0 <= i < |small| && LookAlike(e, small[i]);
      assert large[i] == small[i];
    }
    assert large[k] == tokens[k];
    forall i | 0 <= i < k
      ensures large[i] == small[i]
    {
    }
  }

  // ---------- the round trip ----------

  lemma {:induction false} RunsOfWord(l: Letters, text: string)
    requires forall i :: 0 <= i < |text| ==> l.word(text[i])
    ensures Runs(l, text) == [text]
  {
    if text == "" {
    } else {
      RunsOfWord(l, text[..|text| - 1]);
      assert text[..|text| - 1] + [text[|text| - 1]] == text;
    }
  }

  /** Two lists of runs in a row: the last run of the first and the first run of
      the second become one. */
  function Glue(x: seq<string>, y: seq<string>): (glued: seq<string>)
    requires x != [] && y != []
    ensures glued != []
  {
    x[..|x| - 1] + [x[|x| - 1] + y[0]] + y[1..]
  }

  lemma GlueExtends(x: seq<string>, y: seq<string>, c: char)
    requires x != [] && y != []
    ensures Glue(x, Extend(y, c)) == Extend(Glue(x, y), c)
  {
    if |y| == 1 {
      assert x[|x| - 1] + (y[0] + [c]) == x[|x| - 1] + y[0] + [c];
    }
  }

  lemma GlueBreaks(x: seq<string>, y: seq<string>)
    requires x != [] && y != []
    ensures Glue(x, y + [""]) == Glue(x, y) + [""]
  {
  }

  lemma {:induction false} RunsConcatenate(l: Letters, a: string, b: string)
    ensures Runs(l, a + b) == Glue(Runs(l, a), Runs(l, b))
    decreases |b|
  {
    if b == "" {
      var x := Runs(l, a);
      assert a + b == a;
      assert x[|x| - 1] + "" == x[|x| - 1];
    } else {
      var shorter := b[..|b| - 1];
      RunsConcatenate(l, a, shorter);
      assert (a + b)[..|a + b| - 1] == a + shorter;
      GlueExtends(Runs(l, a), Runs(l, shorter), b[|b| - 1]);
      GlueBreaks(Runs(l, a), Runs(l, shorter));
    }
  }

  lemma {:induction false} NonEmptyConcatenates(a: seq<string>, b: seq<string>)
    ensures NonEmpty(a + b) == NonEmpty(a) + NonEmpty(b)
    decreases |b|
  {
    if b == [] {
      assert a + b == a;
    } else {
      assert (a + b)[..|a + b| - 1] == a + b[..|b| - 1];
      NonEmptyConcatenates(a, b[..|b| - 1]);
    }
  }

  lemma {:induction false} FirstRunIsEmpty(l: Letters, text: string)
    requires text == "" || !l.word(text[0])
    ensures Runs(l, text)[0] == ""
  {
    if |text| > 1 {
      FirstRunIsEmpty(l, text[..|text| - 1]);
    } else if |text| == 1 {
      assert text[..0] == "";
    }
  }

  lemma LastRunIsEmpty(l: Letters, text: string)
    requires text == "" || !l.word(text[|text| - 1])
    ensures Runs(l, text)[|Runs(l, text)| - 1] == ""
  {
  }

  lemma NonEmptyOne(word: string)
    ensures NonEmpty([word]) == if word == "" then [] else [word]
  {
    assert [word][..0] == [];
  }

  /** Runs that end, or start, with an empty run. */
  lemma NonEmptyEnds(front: seq<string>)
    ensures NonEmpty(front + [""]) == NonEmpty(front)
    ensures NonEmpty([""] + front) == NonEmpty(front)
  {
    NonEmptyOne("");
    NonEmptyConcatenates(front, [""]);
    NonEmptyConcatenates([""], front);
  }

  lemma GlueAround(x: seq<string>, word: string, y: seq<string>)
    requires x != [] && x[|x| - 1] == "" && y != [] && y[0] == ""
    ensures Glue(Glue(x, [word]), y) == x[..|x| - 1] + [word] + y[1..]
    ensures x == x[..|x| - 1] + [""]
    ensures y == [""] + y[1..]
  {
    assert "" + word == word && word + "" == word;
    assert Glue(x, [word]) == x[..|x| - 1] + [word];
  }

  lemma RunsAround(l: Letters, before: string, word: string, after: string)
    requires forall i :: 0 <= i < |word| ==> l.word(word[i])
    requires before == "" || !l.word(before[|before| - 1])
    requires after == "" || !l.word(after[0])
    ensures var x, y := Runs(l, before), Runs(l, after);
            && Runs(l, before + word + after) == x[..|x| - 1] + [word] + y[1..]
            && x == x[..|x| - 1] + [""]
            && y == [""] + y[1..]
  {
    var x, y := Runs(l, before), Runs(l, after);
    LastRunIsEmpty(l, before);
    FirstRunIsEmpty(l, after);
    RunsOfWord(l, word);
    RunsConcatenate(l, before, word);
    RunsConcatenate(l, before + word, after);
    GlueAround(x, word, y);
  }

  /** A word between separators is one token of the whole text. */
  lemma TokensAround(l: Letters, before: string, word: string, after: string)
    requires word != "" && forall i :: 0 <= i < |word| ==> l.word(word[i])
    requires before == "" || !l.word(before[|before| - 1])
    requires after == "" || !l.word(after[0])
    ensures NonEmpty(Runs(l, before + word + after)) == NonEmpty(Runs(l, before)) + [word] + NonEmpty(Runs(l, after))
  {
    RunsAround(l, before, word, after);
    var x, y := Runs(l, before), Runs(l, after);
    NonEmptyAround(x[..|x| - 1], word, y[1..]);
  }

  lemma NonEmptyAround(front: seq<string>, word: string, back: seq<string>)
    requires word != ""
    ensures NonEmpty(front + [word] + back) == NonEmpty(front + [""]) + [word] + NonEmpty([""] + back)
  {
    NonEmptyEnds(front);
    NonEmptyEnds(back);
    NonEmptyConcatenates(front + [word], back);
    NonEmptyConcatenates(front, [word]);
    NonEmptyOne(word);
  }

  lemma {:induction false} ReferencesConcatenate(e: Extractor, a: seq<string>, b: seq<string>)
    ensures References(e, a + b) == References(e, a) + References(e, b)
    decreases |b|
  {
    if b == [] {
      assert a + b == a;
    } else {
      assert (a + b)[..|a + b| - 1] == a + b[..|b| - 1];
      ReferencesConcatenate(e, a, b[..|b| - 1]);
    }
  }

  /** A generated reference is one word of upper-case letters and digits, whatever
      the tables say of other characters. */
  lemma GeneratedIsWellFormed(e: Extractor, random: seq<Byte>)
    requires Usable(e) && |random| >= e.bytes
    ensures var reference := Generate(e.prefix, e.bytes, random).value;
            && WellFormed(e, reference)
            && Upper(e.letters, reference) == reference
            && (forall i :: 0 <= i < |reference| ==> e.letters.word(reference[i]))
  {
    var reference := e.prefix + Hex(random[..e.bytes]);
    HexIsHex(random[..e.bytes]);
    assert reference[|e.prefix|..] == Hex(random[..e.bytes]);
    forall i | 0 <= i < |reference|
      ensures e.letters.word(reference[i]) && e.letters.upper(reference[i]) == reference[i]
    {
      if i >= |e.prefix| {
        assert reference[i] == Hex(random[..e.bytes])[i - |e.prefix|];
      }
      assert reference[i] as int < 128;
    }
  }

  /** The well formed tokens are exactly the references that can be generated. */
  lemma WellFormedIsGenerated(e: Extractor, token: string)
    requires Usable(e)
    ensures WellFormed(e, token) <==>
              exists random: seq<Byte> :: |random| == e.bytes && Generate(e.prefix, e.bytes, random) == Ok(token)
  {
    if WellFormed(e, token) {
      var random := HexReadsBack(token[|e.prefix|..], e.bytes);
      assert random[..e.bytes] == random;
      assert token == e.prefix + Hex(random);
      assert Generate(e.prefix, e.bytes, random) == Ok(token);
    }
    forall random: seq<Byte> | |random| == e.bytes && Generate(e.prefix, e.bytes, random) == Ok(token)
      ensures WellFormed(e, token)
    {
      GeneratedIsWellFormed(e, random);
    }
  }

  /** Every text of digit pairs is the text of some bytes. */
  lemma {:induction false} HexReadsBack(text: string, n: nat) returns (bytes: seq<Byte>)
    requires |text| == 2 * n && forall i :: 0 <= i < |text| ==> IsUpperHex(text[i])
    ensures |bytes| == n && Hex(bytes) == text
    decreases n
  {
    if n == 0 {
      bytes := [];
    } else {
      var high, low := HexValue(text[2 * n - 2]), HexValue(text[2 * n - 1]);
      var rest := HexReadsBack(text[..2 * n - 2], n - 1);
      var last: Byte := 16 * high + low;
      bytes := rest + [last];
      assert bytes[..n - 1] == rest && last / 16 == high && last % 16 == low;
      assert text == text[..2 * n - 2] + [text[2 * n - 2], text[2 * n - 1]];
    }
  }

  /** The texts around a reference end and start with a separator, and none of their
      tokens is, or looks like, a reference. */
  predicate Surrounds(e: Extractor, before: string, after: string) {
    && (before == "" || !e.letters.word(before[|before| - 1]))
    && (after == "" || !e.letters.word(after[0]))
    && References(e, Tokens(e.letters, before)) == [] && References(e, Tokens(e.letters, after)) == []
    && !HasLookAlike(e, Tokens(e.letters, before)) && !HasLookAlike(e, Tokens(e.letters, after))
  }

  /** Round trip: a text is read as the generated reference it contains, if and only
      if it is within the limit. */
  lemma GeneratedIsExtracted(e: Extractor, random: seq<Byte>, before: string, after: string, size: nat)
    requires Usable(e) && |random| >= e.bytes && Surrounds(e, before, after)
    ensures var reference := Generate(e.prefix, e.bytes, random).value;
            Reading(e, before + reference + after, size) == Exact(reference) <==> size <= e.limit
  {
    var reference := Generate(e.prefix, e.bytes, random).value;
    GeneratedIsWellFormed(e, random);
    TokensOfTransfer(e.letters, before, reference, after);
    ReferencesAround(e, Tokens(e.letters, before), reference, Tokens(e.letters, after));
    LookAlikesAround(e, Tokens(e.letters, before), reference, Tokens(e.letters, after));
  }

  lemma TokensOfTransfer(l: Letters, before: string, reference: string, after: string)
    requires reference != "" && Upper(l, reference) == reference
    requires forall i :: 0 <= i < |reference| ==> l.word(reference[i])
    requires before == "" || !l.word(before[|before| - 1])
    requires after == "" || !l.word(after[0])
    ensures Tokens(l, before + reference + after) == Tokens(l, before) + [reference] + Tokens(l, after)
  {
    TokensAround(l, before, reference, after);
    var x, y := NonEmpty(Runs(l, before)), NonEmpty(Runs(l, after));
    assert UpperAll(l, x + [reference] + y) == UpperAll(l, x) + [reference] + UpperAll(l, y);
  }

  lemma ReferencesAround(e: Extractor, x: seq<string>, reference: string, y: seq<string>)
    requires WellFormed(e, reference)
    requires References(e, x) == [] && References(e, y) == []
    ensures References(e, x + [reference] + y) == [reference]
  {
    ReferencesConcatenate(e, x + [reference], y);
    ReferencesConcatenate(e, x, [reference]);
    assert [reference][..0] == [];
  }

  lemma LookAlikesAround(e: Extractor, x: seq<string>, reference: string, y: seq<string>)
    requires WellFormed(e, reference)
    requires !HasLookAlike(e, x) && !HasLookAlike(e, y)
    ensures !HasLookAlike(e, x + [reference] + y)
  {
    var tokens := x + [reference] + y;
    forall k | 0 <= k < |tokens|
      ensures !LookAlike(e, tokens[k])
    {
      if k < |x| {
        assert tokens[k] == x[k];
      } else if k > |x| {
        assert tokens[k] == y[k - |x| - 1];
      }
    }
  }
}
