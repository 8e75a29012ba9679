/** String helpers shared by the models: Python's strip, lower, upper and split on ASCII text. */
module Text {

  predicate IsSpace(c: char) {
    c == ' ' || c == '\t' || c == '\n' || c == '\r'
  }

  function LowerChar(c: char): char {
    if 'A' <= c <= 'Z' then (c - 'A') + 'a' else c
  }

  function UpperChar(c: char): char {
    if 'a' <= c <= 'z' then (c - 'a') + 'A' else c
  }

  function Lower(s: string): (r: string)
    ensures |r| == |s|
  {
    seq(|s|, i requires 0 <= i < |s| => LowerChar(s[i]))
  }

  function Upper(s: string): (r: string)
    ensures |r| == |s|
  {
    seq(|s|, i requires 0 <= i < |s| => UpperChar(s[i]))
  }

  function StripLeft(s: string): (r: string) {
    if s != "" && IsSpace(s[0]) then StripLeft(s[1..]) else s
  }

  function StripRight(s: string): (r: string) {
    if s != "" && IsSpace(s[|s| - 1]) then StripRight(s[..|s| - 1]) else s
  }

  function Strip(s: string): string {
    StripRight(StripLeft(s))
  }

  /** The comparison form every matcher uses: trimmed and lower case. */
  function Norm(s: string): string {
    Lower(Strip(s))
  }

  predicate IsWordChar(c: char) {
    'a' <= c <= 'z' || '0' <= c <= '9'
  }

  /** The maximal alphanumeric runs of a lower-cased string; `run` is the run being read. */
  function WordsFrom(s: string, run: string): set<string> {
    if s == "" then if run == "" then {} else {run}
    else if IsWordChar(s[0]) then WordsFrom(s[1..], run + [s[0]])
    else (if run == "" then {} else {run}) + WordsFrom(s[1..], "")
  }

  function Words(s: string): set<string> {
    WordsFrom(Lower(s), "")
  }

  /** A string of letters and digits is one word, whatever its case. */
  lemma OneWord(s: string)
    requires s != "" && forall c :: c in Lower(s) ==> IsWordChar(c)
    ensures Words(s) == {Lower(s)}
  {
    RunIsOneWord(Lower(s), "");
    assert "" + Lower(s) == Lower(s);
  }

  lemma {:induction false} RunIsOneWord(s: string, run: string)
    requires run + s != "" && forall c :: c in s ==> IsWordChar(c)
    ensures WordsFrom(s, run) == {run + s}
    decreases |s|
  {
    if s == "" {
      assert run + s == run;
    } else {
      assert s[0] in s && run + s == (run + [s[0]]) + s[1..];
      RunIsOneWord(s[1..], run + [s[0]]);
    }
  }

  /** Any other character stands between words, and is in none. */
  lemma WordsEndThere(a: string, sep: char, b: string)
    requires !IsWordChar(LowerChar(sep))
    ensures Words(a + [sep] + b) == Words(a) + Words(b)
  {
    assert Lower(a + [sep] + b) == Lower(a) + [LowerChar(sep)] + Lower(b);
    RunsEndThere(Lower(a), LowerChar(sep), Lower(b), "");
  }

  lemma {:induction false} RunsEndThere(a: string, sep: char, b: string, run: string)
    requires !IsWordChar(sep)
    ensures WordsFrom(a + [sep] + b, run) == WordsFrom(a, run) + WordsFrom(b, "")
    decreases |a|
  {
    var s := a + [sep] + b;
    if a == "" {
      assert s[0] == sep && s[1..] == b;
    } else {
      assert s[0] == a[0] && s[1..] == a[1..] + [sep] + b;
      RunsEndThere(a[1..], sep, b, if IsWordChar(a[0]) then run + [a[0]] else "");
    }
  }
}
