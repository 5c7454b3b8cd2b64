/** The bench tool's hex printer and parser (`format_bytes_hex`, `parse_hex_bytes`), on ASCII text. */
module HexBytes {
  import opened Wrappers

  type Byte = x: int | 0 <= x < 256

  datatype HexError = EmptyPayload | InvalidPayload

  const DIGITS := "0123456789ABCDEF"

  /** `02X`. */
  function TwoDigits(b: Byte): string {
    [DIGITS[b / 16], DIGITS[b % 16]]
  }

  /** The printed bytes, joined by `separator`; the printer itself uses a space. */
  function Format(payload: seq<Byte>, separator: char): string {
    if payload == [] then ""
    else if |payload| == 1 then TwoDigits(payload[0])
    else TwoDigits(payload[0]) + [separator] + Format(payload[1..], separator)
  }

  /** Separators become spaces. */
  function Normalized(raw: string): string {
    if raw == "" then ""
    else [if raw[0] == ',' || raw[0] == ':' || raw[0] == '-' then ' ' else raw[0]] + Normalized(raw[1..])
  }

  predicate IsSpace(c: char) {
    c == ' ' || '\t' <= c <= '\r' || '\U{1c}' <= c <= '\U{1f}'
  }

  function WordLength(text: string): nat
    ensures WordLength(text) <= |text|
  {
    if text == "" || IsSpace(text[0]) then 0 else 1 + WordLength(text[1..])
  }

  /** `split()`: maximal runs of characters that are not spaces. */
  function Words(text: string): seq<string>
    decreases |text|
  {
    if text == "" then []
    else if IsSpace(text[0]) then Words(text[1..])
    else [text[..WordLength(text)]] + Words(text[WordLength(text)..])
  }

  function WithoutPrefix(word: string, prefix: string): string {
    if prefix <= word then word[|prefix|..] else word
  }

  function DigitValue(c: char): Option<int> {
    if '0' <= c <= '9' then Some(c as int - '0' as int)
    else if 'A' <= c <= 'F' then Some(c as int - 'A' as int + 10)
    else if 'a' <= c <= 'f' then Some(c as int - 'a' as int + 10)
    else None
  }

  /** Digits, with single underscores between them. */
  function DigitsValue(text: string, value: int): Option<int> {
    if text == "" then Some(value)
    else
      var rest := if text[0] == '_' then text[1..] else text;
      if rest == "" || DigitValue(rest[0]).None? then None
      else DigitsValue(rest[1..], value * 16 + DigitValue(rest[0]).value)
  }

  /** `int(token, 16)`: an optional sign, an optional prefix, digits. */
  function IntOf(token: string): Option<int> {
    var sign := if "-" <= token then -1 else 1;
    var unsigned := if "+" <= token || "-" <= token then token[1..] else token;
    var prefixed := "0x" <= unsigned || "0X" <= unsigned;
    var digits := if prefixed then unsigned[2..] else unsigned;
    if digits == "" || (!prefixed && digits[0] == '_') then None
    else
      match DigitsValue(digits, 0)
      case None => None
      case Some(value) => Some(sign * value)
  }

  function BytesOf(words: seq<string>): Option<seq<Byte>> {
    if words == [] then Some([])
    else
      var value := IntOf(WithoutPrefix(WithoutPrefix(words[0], "0x"), "0X"));
      if value.None? || !(0 <= value.value < 256) then None
      else
        match BytesOf(words[1..])
        case None => None
        case Some(rest) => Some([value.value] + rest)
  }

  function Parse(raw: string): Result<seq<Byte>, HexError> {
    var words := Words(Normalized(raw));
    if words == [] then Err(EmptyPayload)
    else
      match BytesOf(words)
      case None => Err(InvalidPayload)
      case Some(payload) => Ok(payload)
  }

  /** Characters that do not separate. */
  predicate Plain(c: char) {
    !IsSpace(c) && !IsSeparator(c)
  }

  predicate IsSeparator(c: char) {
    c == ' ' || c == ',' || c == ':' || c == '-'
  }

  lemma DigitsArePlain(n: int)
    requires 0 <= n < 16
    ensures DigitValue(DIGITS[n]) == Some(n) && Plain(DIGITS[n])
  {
  }

  lemma {:induction false} NormalizedJoins(a: string, b: string)
    ensures Normalized(a + b) == Normalized(a) + Normalized(b)
  {
    if a == "" {
      assert a + b == b;
    } else {
      NormalizedJoins(a[1..], b);
      assert (a + b)[1..] == a[1..] + b;
    }
  }

  lemma {:induction false} PlainWord(word: string, rest: string)
    requires forall i :: 0 <= i < |word| ==> Plain(word[i])
    requires rest == "" || IsSpace(rest[0])
    ensures Normalized(word) == word
    ensures WordLength(word + rest) == |word|
  {
    if word != "" {
      assert Plain(word[0]);
      PlainWord(word[1..], rest);
      assert (word + rest)[1..] == word[1..] + rest;
    } else {
      assert word + rest == rest;
    }
  }

  lemma TwoDigitsParse(b: Byte)
    ensures var word := TwoDigits(b);
            && IntOf(WithoutPrefix(WithoutPrefix(word, "0x"), "0X")) == Some(b)
            && forall i :: 0 <= i < |word| ==> Plain(word[i])
  {
    var word, high, low := TwoDigits(b), DIGITS[b / 16], DIGITS[b % 16];
    DigitsArePlain(b / 16);
    DigitsArePlain(b % 16);
    assert word[0] == high && word[1] == low;
    assert WithoutPrefix(word, "0x") == word && WithoutPrefix(word, "0X") == word;
    assert word[1..] == [low] && word[1..][1..] == "";
    assert DigitsValue(word[1..], b / 16) == DigitsValue("", b / 16 * 16 + b % 16);
    assert DigitsValue(word, 0) == DigitsValue(word[1..], b / 16);
  }

  /** A printed byte is one word, whichever separator follows. */
  lemma FirstWord(b: Byte, separator: char, rest: string)
    requires IsSeparator(separator)
    ensures Words(Normalized(TwoDigits(b))) == [TwoDigits(b)]
    ensures Words(Normalized(TwoDigits(b) + [separator] + rest)) == [TwoDigits(b)] + Words(Normalized(rest))
  {
    hide TwoDigits, WordLength, Normalized, Words;
    var word, tail := TwoDigits(b), " " + Normalized(rest);
    TwoDigitsParse(b);
    TwoDigitsLong(b);
    SeparatorNormalizes(word, separator, rest);
    WordsOfWord(word, "");
    WordsOfWord(word, tail);
    PlainWord(word, "");
    NoWords();
    SpaceIsSkipped(Normalized(rest));
    assert word + "" == word;
  }

  lemma SeparatorNormalizes(word: string, separator: char, rest: string)
    requires IsSeparator(separator) && forall i :: 0 <= i < |word| ==> Plain(word[i])
    ensures Normalized(word + [separator] + rest) == word + (" " + Normalized(rest))
  {
    hide Normalized;
    PlainStays(word);
    NormalizedJoins(word + [separator], rest);
    NormalizedJoins(word, [separator]);
    SeparatorIsSpace(separator);
    Regrouped(word, " ", Normalized(rest));
  }

  lemma PlainStays(word: string)
    requires forall i :: 0 <= i < |word| ==> Plain(word[i])
    ensures Normalized(word) == word
  {
    PlainWord(word, "");
  }

  lemma Regrouped(a: string, b: string, c: string)
    ensures (a + b) + c == a + (b + c)
  {
  }

  lemma SeparatorIsSpace(separator: char)
    requires IsSeparator(separator)
    ensures Normalized([separator]) == " "
  {
    assert Normalized([separator]) == " " + Normalized("");
  }

  /** A plain word is split off whole. */
  lemma WordsOfWord(word: string, tail: string)
    requires word != "" && forall i :: 0 <= i < |word| ==> Plain(word[i])
    requires tail == "" || IsSpace(tail[0])
    ensures Words(word + tail) == [word] + Words(tail)
  {
    hide WordLength;
    PlainWord(word, tail);
    assert Plain((word + tail)[0]);
    assert (word + tail)[..|word|] == word && (word + tail)[|word|..] == tail;
  }

  lemma NoWords()
    ensures Words("") == []
  {
  }

  lemma SpaceIsSkipped(rest: string)
    ensures Words(" " + rest) == Words(rest)
  {
    assert (" " + rest)[1..] == rest;
  }

  lemma TwoDigitsLong(b: Byte)
    ensures |TwoDigits(b)| == 2
  {
  }

  lemma {:induction false} FormattedWords(payload: seq<Byte>, separator: char)
    requires IsSeparator(separator)
    ensures payload != [] ==> Words(Normalized(Format(payload, separator))) != []
    ensures BytesOf(Words(Normalized(Format(payload, separator)))) == Some(payload)
  {
    hide TwoDigits, IntOf, WithoutPrefix;
    if payload != [] {
      TwoDigitsParse(payload[0]);
      var rest := Format(payload[1..], separator);
      FirstWord(payload[0], separator, rest);
      assert payload == [payload[0]] + payload[1..];
      if |payload| == 1 {
        OneWord(TwoDigits(payload[0]), [], payload[0]);
      } else {
        FormattedWords(payload[1..], separator);
        OneWord(TwoDigits(payload[0]), Words(Normalized(rest)), payload[0]);
      }
    }
  }

  lemma OneWord(word: string, words: seq<string>, b: Byte)
    requires IntOf(WithoutPrefix(WithoutPrefix(word, "0x"), "0X")) == Some(b) && BytesOf(words).Some?
    ensures BytesOf([word] + words) == Some([b] + BytesOf(words).value)
  {
    assert ([word] + words)[1..] == words;
  }

  /** What was printed parses back to the same bytes, with any of the accepted separators in place of the spaces. */
  lemma RoundTrip(payload: seq<Byte>, separator: char)
    requires IsSeparator(separator)
    ensures Parse(Format(payload, separator)) == if payload == [] then Err(EmptyPayload) else Ok(payload)
  {
    FormattedWords(payload, separator);
  }

  /* ---------- what an operator may type ---------- */

  const LOWER_DIGITS := "0123456789abcdef"

  /** How one byte is typed: with or without a prefix, its digits in either case, and what follows it. */
  datatype Spelling = Spelling(prefix: string, lowerHigh: bool, lowerLow: bool, gap: char) {
    predicate Valid() {
      && prefix in {"", "0x", "0X"}
      && gap in {' ', '\t', '\n', '\U{0b}', '\U{0c}', '\r', '\U{1c}', '\U{1d}', '\U{1e}', '\U{1f}', ',', ':', '-'}
    }

    function Word(b: Byte): string {
      prefix + [Digit(b / 16, lowerHigh), Digit(b % 16, lowerLow)]
    }
  }

  function Digit(n: int, lower: bool): char
    requires 0 <= n < 16
  {
    if lower then LOWER_DIGITS[n] else DIGITS[n]
  }

  function Typed(payload: seq<Byte>, spellings: seq<Spelling>): string
    requires |payload| == |spellings|
  {
    if payload == [] then ""
    else spellings[0].Word(payload[0]) + [spellings[0].gap] + Typed(payload[1..], spellings[1..])
  }

  lemma DigitIsPlain(n: int, lower: bool)
    requires 0 <= n < 16
    ensures DigitValue(Digit(n, lower)) == Some(n) && Plain(Digit(n, lower)) && Digit(n, lower) !in {'x', 'X', '+', '-', '_'}
  {
  }

  lemma NoPrefix(word: string, prefix: string)
    requires |prefix| == 2 && |word| >= 2 && word[1] != prefix[1]
    ensures WithoutPrefix(word, prefix) == word
  {
    assert word[..2] != prefix;
  }

  lemma TwoDigitsValue(high: char, low: char)
    requires DigitValue(high).Some? && DigitValue(low).Some? && high !in {'+', '-', '_'} && low !in {'x', 'X', '_'}
    ensures IntOf(WithoutPrefix(WithoutPrefix([high, low], "0x"), "0X")) == Some(DigitValue(high).value * 16 + DigitValue(low).value)
  {
    var word := [high, low];
    NoPrefix(word, "0x");
    NoPrefix(word, "0X");
    assert word[1..] == [low] && word[1..][1..] == "";
    assert DigitsValue(word[1..], DigitValue(high).value)
        == DigitsValue("", DigitValue(high).value * 16 + DigitValue(low).value);
    assert DigitsValue(word, 0) == DigitsValue(word[1..], DigitValue(high).value);
  }

  lemma WordParses(b: Byte, s: Spelling)
    requires s.Valid()
    ensures IntOf(WithoutPrefix(WithoutPrefix(s.Word(b), "0x"), "0X")) == Some(b)
    ensures s.Word(b) != "" && forall i :: 0 <= i < |s.Word(b)| ==> Plain(s.Word(b)[i])
  {
    hide IntOf, Digit, DigitValue, IsSpace, IsSeparator;
    var high, low := Digit(b / 16, s.lowerHigh), Digit(b % 16, s.lowerLow);
    DigitIsPlain(b / 16, s.lowerHigh);
    DigitIsPlain(b % 16, s.lowerLow);
    TwoDigitsValue(high, low);
    var digits, word := [high, low], s.Word(b);
    NoPrefix(digits, "0x");
    NoPrefix(digits, "0X");
    PrefixIsPlain(s.prefix);
    if s.prefix == "" {
      assert word == digits;
    } else if s.prefix == "0x" {
      assert word[2..] == digits;
    } else {
      NoPrefix(word, "0x");
      assert word[2..] == digits;
    }
  }

  lemma PrefixIsPlain(prefix: string)
    requires prefix in {"", "0x", "0X"}
    ensures forall i :: 0 <= i < |prefix| ==> Plain(prefix[i])
  {
  }

  lemma GapIsSpace(gap: char)
    requires IsSpace(gap) || IsSeparator(gap)
    ensures |Normalized([gap])| == 1 && IsSpace(Normalized([gap])[0])
  {
    assert Normalized([gap]) == [if gap == ',' || gap == ':' || gap == '-' then ' ' else gap] + Normalized("");
  }

  lemma GapIsSkipped(space: string, rest: string)
    requires |space| == 1 && IsSpace(space[0])
    ensures Words(space + rest) == Words(rest)
  {
    assert (space + rest)[1..] == rest;
  }

  /** A typed byte is one word, whatever separates it from the rest. */
  lemma TypedWord(b: Byte, s: Spelling, rest: string)
    requires s.Valid()
    ensures Words(Normalized(s.Word(b) + [s.gap] + rest)) == [s.Word(b)] + Words(Normalized(rest))
  {
    hide Spelling.Word, IntOf, WithoutPrefix, Normalized, Words, WordLength;
    var word, space := s.Word(b), Normalized([s.gap]);
    WordParses(b, s);
    GapIsSpace(s.gap);
    NormalizedJoins(word + [s.gap], rest);
    NormalizedJoins(word, [s.gap]);
    PlainStays(word);
    Regrouped(word, space, Normalized(rest));
    WordsOfWord(word, space + Normalized(rest));
    GapIsSkipped(space, Normalized(rest));
  }

  /** Bytes typed in any spelling, with any mix of separators, are read as those bytes. */
  lemma {:induction false} TypedIsRead(payload: seq<Byte>, spellings: seq<Spelling>)
    requires |payload| == |spellings| && forall i :: 0 <= i < |spellings| ==> spellings[i].Valid()
    ensures payload != [] ==> Words(Normalized(Typed(payload, spellings))) != []
    ensures BytesOf(Words(Normalized(Typed(payload, spellings)))) == Some(payload)
    ensures Parse(Typed(payload, spellings)) == if payload == [] then Err(EmptyPayload) else Ok(payload)
  {
    hide Spelling.Word, IntOf, WithoutPrefix, Spelling.Valid;
    if payload == [] {
    } else {
      var rest := Typed(payload[1..], spellings[1..]);
      TypedIsRead(payload[1..], spellings[1..]);
      WordParses(payload[0], spellings[0]);
      TypedWord(payload[0], spellings[0], rest);
      OneWord(spellings[0].Word(payload[0]), Words(Normalized(rest)), payload[0]);
      assert payload == [payload[0]] + payload[1..];
    }
  }
}
