/**
 * TextStream: the chained `>>` extractions the text loaders run on one line
 * through a `std::stringstream`.
 *
 * A line is read as its words. Extracting into a string or a float takes the
 * next whole word; extracting into an int takes the sign and digits at the
 * front of the next word and leaves the rest of that word to be read next.
 * Once an extraction fails (no word left, or an int where no number stands)
 * every later extraction on the line fails too and leaves its target as it
 * was. A float is held as the word it was read from, and any word is taken
 * whole as a float: the float syntax `>> f` checks is not modelled.
 */
module TextStream {
  import opened Wrappers
  import opened Text

  /**
   * A float variable: the word read into it, or None while it still holds
   * the indeterminate value of an uninitialised variable.
   */
  type FloatWord = Option<string>

  /** The stream over one line: the words not yet taken, and whether an extraction failed. */
  datatype Cursor = Cursor(words: seq<string>, failed: bool)

  /** `std::stringstream(line)`. */
  function Open(line: string): Cursor
  {
    Cursor(Words(line), false)
  }

  /** `>> s` into a string holding `held`. */
  function TakeWord(c: Cursor, held: string): (string, Cursor)
  {
    if c.failed || c.words == [] then (held, Cursor(c.words, true))
    else (c.words[0], Cursor(c.words[1..], false))
  }

  /** `>> f` into a float holding `held`. */
  function TakeFloat(c: Cursor, held: FloatWord): (FloatWord, Cursor)
  {
    if c.failed || c.words == [] then (held, Cursor(c.words, true))
    else (Some(c.words[0]), Cursor(c.words[1..], false))
  }

  /** Successive float extractions, one per element of `held`. */
  function TakeFloats(c: Cursor, held: seq<FloatWord>): (r: (seq<FloatWord>, Cursor))
    ensures |r.0| == |held|
    decreases |held|
  {
    if held == [] then ([], c)
    else
      var (f, c1) := TakeFloat(c, held[0]);
      var (fs, c2) := TakeFloats(c1, held[1..]);
      ([f] + fs, c2)
  }

  /** How many characters `>> n` takes from the front of a word: a sign, then digits. */
  function IntPrefix(w: string): (k: nat)
    ensures k <= |w|
  {
    var s := if w != [] && (w[0] == '-' || w[0] == '+') then 1 else 0;
    s + DigitRun(w[s..])
  }

  /**
   * `>> n` into an int holding `held` (None: uninitialised). A word that does
   * not start with a number stores 0 and fails; a number outside the int
   * range stores the nearest bound and fails; otherwise the number is stored
   * and the rest of its word stays to be read.
   */
  function TakeInt(c: Cursor, held: Option<int>): (r: (Option<int>, Cursor))
    ensures !c.failed && c.words != [] ==> r.0 == Some(StreamInt(c.words[0]))
    ensures c.failed || c.words == [] ==> r.0 == held && r.1.failed
  {
    if c.failed || c.words == [] then (held, Cursor(c.words, true))
    else
      var w := c.words[0];
      match LeadingInt(w)
      case None => (Some(0), Cursor(c.words, true))
      case Some(v) =>
        if v < INT_MIN || v > INT_MAX then (Some(StreamInt(w)), Cursor(c.words, true))
        else
          var k := IntPrefix(w);
          (Some(v), Cursor(if k == |w| then c.words[1..] else [w[k..]] + c.words[1..], false))
  }

  /**
   * The stream after `p` whole words of `ws` were taken: the rest of the
   * words, or a failed stream once an extraction ran past the last word.
   */
  function At(ws: seq<string>, p: nat): Cursor
  {
    if p <= |ws| then Cursor(ws[p..], false) else Cursor([], true)
  }

  /** The `p`-th word of a line, or `held` where the line has fewer words. */
  function WordAt(ws: seq<string>, p: nat, held: FloatWord): FloatWord
  {
    if p < |ws| then Some(ws[p]) else held
  }

  /** The string `>>` reads from the `p`-th word. */
  lemma TakeWordAt(ws: seq<string>, p: nat, held: string)
    ensures TakeWord(At(ws, p), held) == (if p < |ws| then ws[p] else held, At(ws, p + 1))
  {
  }

  /** Successive float extractions read successive words, or keep what they held past the last word. */
  lemma {:induction false} TakeFloatsAt(ws: seq<string>, p: nat, held: seq<FloatWord>)
    ensures TakeFloats(At(ws, p), held).1 == At(ws, p + |held|)
    ensures forall k :: 0 <= k < |held| ==> TakeFloats(At(ws, p), held).0[k] == WordAt(ws, p + k, held[k])
    decreases |held|
  {
    if held != [] {
      assert TakeFloat(At(ws, p), held[0]) == (WordAt(ws, p, held[0]), At(ws, p + 1));
      TakeFloatsAt(ws, p + 1, held[1..]);
      var r := TakeFloats(At(ws, p), held);
      forall k | 0 < k < |held|
        ensures r.0[k] == WordAt(ws, p + k, held[k])
      {
        assert r.0[k] == TakeFloats(At(ws, p + 1), held[1..]).0[k - 1];
      }
    }
  }

  /** The words of a line, one space apart. */
  function Unwords(ws: seq<string>): string
  {
    if ws == [] then "" else if |ws| == 1 then ws[0] else ws[0] + " " + Unwords(ws[1..])
  }

  /** Words written one space apart are read back as the same words. */
  lemma {:induction false} UnwordsWords(ws: seq<string>)
    requires forall i :: 0 <= i < |ws| ==> IsWord(ws[i])
    ensures Words(Unwords(ws)) == ws
  {
    if |ws| == 1 {
      WordAlone(ws[0]);
    } else if |ws| > 1 {
      var w := ws[0];
      var rest := Unwords(ws[1..]);
      var line := w + " " + rest;
      assert SkipSpace(line) == line;
      WordLengthOf(w, rest);
      assert line[..|w|] == w;
      assert line[|w|..] == " " + rest;
      assert SkipSpace(" " + rest) == SkipSpace(rest) by {
        assert (" " + rest)[1..] == rest;
      }
      assert Words(" " + rest) == Words(rest);
      UnwordsWords(ws[1..]);
      assert [w] + ws[1..] == ws;
    }
  }

  /** The text `std::to_string` writes reads back through `>> n` as that number, the whole word taken. */
  lemma TakeIntText(ws: seq<string>, p: nat, n: int, held: Option<int>)
    requires INT_MIN <= n <= INT_MAX
    requires p < |ws| && ws[p] == IntToString(n)
    ensures TakeInt(At(ws, p), held) == (Some(n), At(ws, p + 1))
  {
    var w := ws[p];
    IntTextRoundTrip(n);
    StreamIntRoundTrip(n);
    var s := if w != [] && (w[0] == '-' || w[0] == '+') then 1 else 0;
    var d := Digits(if n < 0 then -n else n);
    assert w == (if n < 0 then "-" + d else d);
    assert w[s..] == d;
    DigitRunAll(d);
    assert IntPrefix(w) == |w|;
  }

  /** A value line: the key, then the values one space apart. */
  function ValueLine(key: string, vs: seq<string>): string
  {
    Unwords([key] + vs)
  }

  /** A value line splits into its key and values, and is not blank. */
  lemma ValueLineWords(key: string, vs: seq<string>)
    requires IsWord(key) && forall i :: 0 <= i < |vs| ==> IsWord(vs[i])
    ensures Words(ValueLine(key, vs)) == [key] + vs
    ensures ValueLine(key, vs) != ""
  {
    var ws := [key] + vs;
    assert forall i :: 0 <= i < |ws| ==> IsWord(ws[i]);
    UnwordsWords(ws);
    assert Words(ValueLine(key, vs)) != [];
  }
}
