/**
 * Text: the conversions between numbers and text, and the splitting of a line
 * into words, as the C++ standard library performs them. The settings store
 * uses `std::to_string` and `std::stoi`; the text-file loaders read each line
 * through a `std::stringstream`, one `>>` extraction per word.
 */
module Text {
  import opened Wrappers

  function DigitChar(d: nat): char
    requires d < 10
  {
    "0123456789"[d]
  }

  predicate IsDigit(c: char)
  {
    '0' <= c <= '9'
  }

  /** The decimal digits of `n`, without leading zeros. */
  function Digits(n: nat): (s: string)
    ensures s != [] && forall i :: 0 <= i < |s| ==> IsDigit(s[i])
  {
    if n < 10 then [DigitChar(n)] else Digits(n / 10) + [DigitChar(n % 10)]
  }

  /** `std::to_string(int)`. */
  function IntToString(n: int): string
  {
    if n < 0 then "-" + Digits(-n) else Digits(n)
  }

  /** The value of a string of decimal digits (a character that is not a digit counts as 0). */
  function DigitsValue(s: string): nat
  {
    if s == [] then 0
    else
      var d := s[|s| - 1];
      10 * DigitsValue(s[..|s| - 1]) + (if IsDigit(d) then d as int - '0' as int else 0)
  }

  /** The length of the longest all-digit prefix. */
  function DigitRun(s: string): (k: nat)
    ensures k <= |s|
  {
    if s == [] || !IsDigit(s[0]) then 0 else 1 + DigitRun(s[1..])
  }

  /** The digit run is the longest prefix of digits. */
  lemma {:induction false} DigitRunSpan(s: string)
    ensures forall i :: 0 <= i < DigitRun(s) ==> IsDigit(s[i])
    ensures DigitRun(s) < |s| ==> !IsDigit(s[DigitRun(s)])
  {
    if s != [] && IsDigit(s[0]) {
      DigitRunSpan(s[1..]);
    }
  }

  predicate IsSpace(c: char)
  {
    c == ' ' || c == '\t' || c == '\n' || c == '\r' || c == 12 as char || c == 11 as char
  }

  function SkipSpace(s: string): (r: string)
    ensures |r| <= |s| && (r == [] || !IsSpace(r[0]))
  {
    if s != [] && IsSpace(s[0]) then SkipSpace(s[1..]) else s
  }

  const INT_MIN := -0x8000_0000
  const INT_MAX := 0x7fff_ffff

  /**
   * An optional sign followed by the longest run of decimal digits at the
   * start of `t`, as a number; None when no digit follows the sign.
   */
  function LeadingInt(t: string): (r: Option<int>)
  {
    var neg := t != [] && t[0] == '-';
    var u := if t != [] && (t[0] == '-' || t[0] == '+') then t[1..] else t;
    var k := DigitRun(u);
    if k == 0 then None
    else
      var m: int := DigitsValue(u[..k]);
      Some(if neg then 0 - m else m)
  }

  /**
   * `std::stoi`: leading white space, then a leading number; it throws (None
   * here) when there is no digit or the value is outside the 32-bit int
   * range. What follows the digits is ignored.
   */
  function Stoi(s: string): (r: Option<int>)
    ensures r.Some? ==> INT_MIN <= r.value <= INT_MAX
  {
    match LeadingInt(SkipSpace(s))
    case Some(v) => if INT_MIN <= v <= INT_MAX then Some(v) else None
    case None => None
  }

  /**
   * `stream >> n` for an int `n` when the stream stands at `word`: the number
   * the word starts with, clamped to the int range on overflow, or 0 when it
   * does not start with one.
   */
  function StreamInt(word: string): (r: int)
    ensures INT_MIN <= r <= INT_MAX
    ensures LeadingInt(word).None? ==> r == 0
  {
    match LeadingInt(word)
    case None => 0
    case Some(v) => if v < INT_MIN then INT_MIN else if v > INT_MAX then INT_MAX else v
  }

  /**
   * `stream >> b` for a bool `b` (numeric form): a leading 0 reads as false,
   * any other number as true, and a word without a number as false.
   */
  function StreamBool(word: string): bool
  {
    match LeadingInt(word)
    case None => false
    case Some(v) => v != 0
  }

  /** What `stream << b` writes for a bool. */
  function BoolText(b: bool): string
  {
    IntToString(if b then 1 else 0)
  }

  // ---------------------------------------------------------------------
  // Words of a line.

  /** A word as `>>` into a string reads it: at least one character and no white space. */
  predicate IsWord(w: string)
  {
    w != [] && forall i :: 0 <= i < |w| ==> !IsSpace(w[i])
  }

  /** The length of the longest prefix without white space. */
  function WordLength(t: string): (k: nat)
    ensures k <= |t|
  {
    if t == [] || IsSpace(t[0]) then 0 else 1 + WordLength(t[1..])
  }

  /** The successive words that `>>` extractions into strings take from a line. */
  function Words(line: string): (r: seq<string>)
    decreases |line|
  {
    var t := SkipSpace(line);
    if t == [] then []
    else
      var k := WordLength(t);
      [t[..k]] + Words(t[k..])
  }

  /** A "key value" line, as the files write a field. */
  function FieldLine(key: string, value: string): string
  {
    key + " " + value
  }

  /** The key the files' writers put before each field; the loaders skip it. */
  const FIELD_KEY := "-"

  /** One "key value" line per value. */
  function FieldLines(vs: seq<string>): (r: seq<string>)
    ensures |r| == |vs|
  {
    if vs == [] then [] else [FieldLine(FIELD_KEY, vs[0])] + FieldLines(vs[1..])
  }

  /** `stream >> key` on a line: its first word, or `key` unchanged when the line has none. */
  function KeyAfter(line: string, key: string): (r: string)
    ensures Words(line) != [] ==> r == Words(line)[0]
  {
    var ws := Words(line);
    if ws == [] then key else ws[0]
  }

  /** The word that `stream >> key >> field` reads into `field`; None when the extraction fails and leaves the field as it was. */
  function Second(line: string): (r: Option<string>)
  {
    var ws := Words(line);
    if |ws| >= 2 then Some(ws[1]) else None
  }

  /** `stream >> key >> s` into a string `s` holding `held`, where `v` is what `Second` finds on the line. */
  function WordValue(v: Option<string>, held: string): string
  {
    match v
    case Some(w) => w
    case None => held
  }

  /** `stream >> key >> n` into an int `n` holding `held`. */
  function IntValue(v: Option<string>, held: int): int
  {
    match v
    case Some(w) => StreamInt(w)
    case None => held
  }

  /** `stream >> key >> b` into a bool `b` holding `held`. */
  function BoolValue(v: Option<string>, held: bool): bool
  {
    match v
    case Some(w) => StreamBool(w)
    case None => held
  }

  // ---------------------------------------------------------------------
  // Lines of a text file, as `std::getline` delivers them.

  /**
   * The line the `k`-th `std::getline` delivers. Past the last line the read
   * fails; the first failing read empties the string and later ones leave it
   * empty, so it reads as "".
   */
  function LineAt(ls: seq<string>, k: nat): string
  {
    if k < |ls| then ls[k] else ""
  }

  /** What the next `n` lines each offer as a field value. */
  function FieldValues(ls: seq<string>, n: nat): (r: seq<Option<string>>)
    ensures |r| == n
  {
    seq(n, k requires 0 <= k => Second(LineAt(ls, k)))
  }

  /** What is left after `n` more lines have been read. */
  function Drop(ls: seq<string>, n: nat): (r: seq<string>)
    ensures |r| == if n <= |ls| then |ls| - n else 0
  {
    if n <= |ls| then ls[n..] else []
  }

  lemma {:induction false} DigitsValueOf(n: nat)
    ensures DigitsValue(Digits(n)) == n
  {
    if n >= 10 {
      var s := Digits(n);
      assert s[..|s| - 1] == Digits(n / 10);
      DigitsValueOf(n / 10);
    }
  }

  /** The text `std::to_string` writes for any int starts with that int. */
  lemma IntTextRoundTrip(n: int)
    ensures LeadingInt(IntToString(n)) == Some(n)
  {
    var m: nat := if n < 0 then -n else n;
    var d := Digits(m);
    DigitsValueOf(m);
    DigitRunAll(d);
    assert d[..|d|] == d;
    if n < 0 {
      assert IntToString(n) == "-" + d;
      assert ("-" + d)[1..] == d;
    } else {
      assert IntToString(n) == d;
      assert IsDigit(d[0]);
    }
  }

  /** What `std::to_string` writes, `std::stoi` reads back, for every 32-bit int. */
  lemma IntRoundTrip(n: int)
    requires INT_MIN <= n <= INT_MAX
    ensures Stoi(IntToString(n)) == Some(n)
  {
    IntTextRoundTrip(n);
    assert SkipSpace(IntToString(n)) == IntToString(n);
  }

  lemma {:induction false} DigitRunAll(s: string)
    requires forall i :: 0 <= i < |s| ==> IsDigit(s[i])
    ensures DigitRun(s) == |s|
  {
    if s != [] {
      DigitRunAll(s[1..]);
    }
  }

  /** What `stream << n` writes for an int, `stream >> n` reads back. */
  lemma StreamIntRoundTrip(n: int)
    requires INT_MIN <= n <= INT_MAX
    ensures StreamInt(IntToString(n)) == n
  {
    IntTextRoundTrip(n);
  }

  /** What `stream << b` writes, `stream >> b` reads back. */
  lemma StreamBoolRoundTrip(b: bool)
    ensures StreamBool(BoolText(b)) == b
  {
    IntTextRoundTrip(if b then 1 else 0);
  }

  /** A field line holding what `stream << n` wrote sets an int field to `n`. */
  lemma IntValueOf(v: Option<string>, n: int, held: int)
    requires INT_MIN <= n <= INT_MAX && v == Some(IntToString(n))
    ensures IntValue(v, held) == n
  {
    StreamIntRoundTrip(n);
  }

  /** A field line holding what `stream << b` wrote sets a bool field to `b`. */
  lemma BoolValueOf(v: Option<string>, b: bool, held: bool)
    requires v == Some(BoolText(b))
    ensures BoolValue(v, held) == b
  {
    StreamBoolRoundTrip(b);
  }

  lemma {:induction false} WordLengthOf(w: string, rest: string)
    requires forall i :: 0 <= i < |w| ==> !IsSpace(w[i])
    ensures WordLength(w + " " + rest) == |w|
  {
    if w != [] {
      assert (w + " " + rest)[1..] == w[1..] + " " + rest;
      WordLengthOf(w[1..], rest);
    }
  }

  /** The text `std::to_string` writes is one word. */
  lemma IntTextIsWord(n: int)
    ensures IsWord(IntToString(n))
  {
    var d := Digits(if n < 0 then -n else n);
    assert forall i :: 0 <= i < |d| ==> IsDigit(d[i]);
  }

  lemma {:induction false} WordLengthAll(w: string)
    requires forall i :: 0 <= i < |w| ==> !IsSpace(w[i])
    ensures WordLength(w) == |w|
  {
    if w != [] {
      WordLengthAll(w[1..]);
    }
  }

  /** A line that is a single word splits into just that word. */
  lemma WordAlone(w: string)
    requires IsWord(w)
    ensures Words(w) == [w]
  {
    assert SkipSpace(w) == w;
    WordLengthAll(w);
    assert w[..|w|] == w;
    assert w[|w|..] == [];
  }

  /** A "key value" line splits into its key and its value. */
  lemma FieldLineWords(key: string, value: string)
    requires IsWord(key) && IsWord(value)
    ensures Words(FieldLine(key, value)) == [key, value]
    ensures KeyAfter(FieldLine(key, value), "") == key
    ensures Second(FieldLine(key, value)) == Some(value)
  {
    var line := FieldLine(key, value);
    assert SkipSpace(line) == line;
    WordLengthOf(key, value);
    assert line[..|key|] == key;
    assert line[|key|..] == " " + value;
    assert SkipSpace(" " + value) == SkipSpace(value) by {
      assert (" " + value)[1..] == value;
    }
    assert Words(" " + value) == Words(value);
    WordAlone(value);
  }

  lemma {:induction false} FieldLinesAt(vs: seq<string>, k: nat)
    requires k < |vs|
    ensures FieldLines(vs)[k] == FieldLine(FIELD_KEY, vs[k])
  {
    if k > 0 {
      FieldLinesAt(vs[1..], k - 1);
    }
  }

  /** After a header line and the lines of `block`, what is left is what followed them. */
  lemma DropBlock(ls: seq<string>, block: seq<string>, rest: seq<string>)
    requires ls != [] && ls[1..] == block + rest
    ensures Drop(ls, 1 + |block|) == rest
  {
    assert ls[1 + |block|..] == ls[1..][|block|..];
  }

  /** Each line of `FieldLines(vs)`, whatever follows them, offers its value. */
  lemma FieldLinesRead(vs: seq<string>, rest: seq<string>)
    requires forall i :: 0 <= i < |vs| ==> IsWord(vs[i])
    ensures forall k :: 0 <= k < |vs| ==> FieldValues(FieldLines(vs) + rest, |vs|)[k] == Some(vs[k])
  {
    forall k | 0 <= k < |vs|
      ensures Second(LineAt(FieldLines(vs) + rest, k)) == Some(vs[k])
    {
      FieldLinesAt(vs, k);
      assert LineAt(FieldLines(vs) + rest, k) == FieldLine(FIELD_KEY, vs[k]);
      FieldLineWords(FIELD_KEY, vs[k]);
    }
  }
}
