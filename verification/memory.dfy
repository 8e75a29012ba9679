/** The owner's memory note (flowers/memory.py): bullets in one markdown text, deduplicated and capped by
    dropping the oldest. */
module Memory {
  import opened Text

  const CHAR_CAP := 6000
  const MAX_NOTE := 600
  const HEADER := "# What flowers knows about this user"

  // ------------------------------------------------------------------ text to notes and back

  predicate IsBreak(c: char) {
    c == '\n' || c == '\r'
  }

  /** The lines of a text; `line` is the one being read. A break pair adds an empty line, which holds no note. */
  function LinesFrom(s: string, line: string): seq<string> {
    if s == "" then if line == "" then [] else [line]
    else if IsBreak(s[0]) then [line] + LinesFrom(s[1..], "")
    else LinesFrom(s[1..], line + [s[0]])
  }

  function NoteOf(line: string): string {
    var s := Strip(line);
    if |s| >= 2 && s[..2] == "- " then Strip(s[2..]) else ""
  }

  function NotesIn(lines: seq<string>): seq<string> {
    if lines == [] then []
    else (if NoteOf(lines[0]) != "" then [NoteOf(lines[0])] else []) + NotesIn(lines[1..])
  }

  function ExistingNotes(md: string): seq<string> {
    NotesIn(LinesFrom(md, ""))
  }

  function Bullets(notes: seq<string>): string {
    if notes == [] then "" else "- " + notes[0] + "\n" + Bullets(notes[1..])
  }

  function Render(notes: seq<string>): string {
    if notes == [] then "" else HEADER + "\n" + Bullets(notes)
  }

  // ------------------------------------------------------------------ cleaning one note

  /** The words of a text, split at white space; `word` is the one being read. */
  function WordsOf(s: string, word: string): seq<string> {
    if s == "" then if word == "" then [] else [word]
    else if IsSpace(s[0]) then (if word == "" then [] else [word]) + WordsOf(s[1..], "")
    else WordsOf(s[1..], word + [s[0]])
  }

  function Spaced(words: seq<string>): string {
    if words == [] then "" else if |words| == 1 then words[0] else words[0] + " " + Spaced(words[1..])
  }

  function Clean(note: string): string {
    var line := Spaced(WordsOf(note, ""));
    Strip(if |line| > MAX_NOTE then line[..MAX_NOTE] else line)
  }

  /** One trimmed, bounded, non-empty line. */
  predicate Cleaned(n: string) {
    && n != "" && |n| <= MAX_NOTE
    && (forall i :: 0 <= i < |n| ==> !IsBreak(n[i]))
    && !IsSpace(n[0]) && !IsSpace(n[|n| - 1])
  }

  predicate OneLine(s: string) {
    forall i :: 0 <= i < |s| ==> !IsBreak(s[i])
  }

  lemma {:induction false} WordsHaveNoBreaks(s: string, word: string)
    requires OneLine(word)
    ensures forall w :: w in WordsOf(s, word) ==> OneLine(w)
  {
    if s != "" {
      if IsSpace(s[0]) { WordsHaveNoBreaks(s[1..], ""); } else { WordsHaveNoBreaks(s[1..], word + [s[0]]); }
    }
  }

  lemma {:induction false} SpacedIsOneLine(words: seq<string>)
    requires forall w :: w in words ==> OneLine(w)
    ensures OneLine(Spaced(words))
  {
    if |words| > 1 {
      SpacedIsOneLine(words[1..]);
      var a, b := words[0], Spaced(words[1..]);
      assert OneLine(a);
      var s := a + " " + b;
      forall i | 0 <= i < |s| ensures !IsBreak(s[i]) {
        assert s[i] == if i < |a| then a[i] else if i == |a| then ' ' else b[i - |a| - 1];
      }
    } else if |words| == 1 {
      assert OneLine(words[0]);
    }
  }

  lemma {:induction false} StripLeftTail(s: string)
    ensures |StripLeft(s)| <= |s| && StripLeft(s) == s[|s| - |StripLeft(s)|..]
    ensures StripLeft(s) == "" || !IsSpace(StripLeft(s)[0])
  {
    if s != "" { StripLeftTail(s[1..]); }
  }

  lemma {:induction false} StripRightHead(s: string)
    ensures |StripRight(s)| <= |s| && StripRight(s) == s[..|StripRight(s)|]
    ensures StripRight(s) == "" || !IsSpace(StripRight(s)[|StripRight(s)| - 1])
  {
    if s != "" { StripRightHead(s[..|s| - 1]); }
  }

  /** Cleaning leaves nothing, or a clean note. */
  lemma CleaningCleans(note: string)
    ensures Clean(note) == "" || Cleaned(Clean(note))
  {
    WordsHaveNoBreaks(note, "");
    SpacedIsOneLine(WordsOf(note, ""));
    var line := Spaced(WordsOf(note, ""));
    var cut := if |line| > MAX_NOTE then line[..MAX_NOTE] else line;
    StripLeftTail(cut);
    var left := StripLeft(cut);
    StripRightHead(left);
    var r := StripRight(left);
    forall i | 0 <= i < |r| ensures !IsBreak(r[i]) {
      assert r[i] == left[i] == cut[|cut| - |left| + i] == line[|cut| - |left| + i];
    }
  }

  predicate IsWord(w: string) {
    w != "" && forall i :: 0 <= i < |w| ==> !IsSpace(w[i])
  }

  lemma {:induction false} WordsAreWords(s: string, word: string)
    requires word == "" || IsWord(word)
    ensures forall w :: w in WordsOf(s, word) ==> IsWord(w)
  {
    if s != "" {
      if IsSpace(s[0]) { WordsAreWords(s[1..], ""); } else { WordsAreWords(s[1..], word + [s[0]]); }
    }
  }

  lemma {:induction false} ReadWord(w: string, rest: string, word: string)
    requires forall i :: 0 <= i < |w| ==> !IsSpace(w[i])
    ensures WordsOf(w + rest, word) == WordsOf(rest, word + w)
  {
    if w == "" {
      assert w + rest == rest && word + w == word;
    } else {
      assert (w + rest)[1..] == w[1..] + rest;
      assert word + [w[0]] + w[1..] == word + w;
      ReadWord(w[1..], rest, word + [w[0]]);
    }
  }

  /** Splitting undoes spacing. */
  lemma {:induction false} WordsOfSpaced(words: seq<string>)
    requires forall w :: w in words ==> IsWord(w)
    ensures WordsOf(Spaced(words), "") == words
  {
    if words != [] {
      assert IsWord(words[0]) && "" + words[0] == words[0];
      if |words| == 1 {
        assert words[0] + "" == words[0];
        ReadWord(words[0], "", "");
        assert words == [words[0]];
      } else {
        var rest := " " + Spaced(words[1..]);
        ReadWord(words[0], rest, "");
        assert words[0] + rest == Spaced(words);
        assert rest[0] == ' ' && rest[1..] == Spaced(words[1..]);
        WordsOfSpaced(words[1..]);
        assert [words[0]] + words[1..] == words;
      }
    }
  }

  /** What is spaced is trimmed. */
  lemma {:induction false} SpacedIsTrimmed(words: seq<string>)
    requires words != [] && forall w :: w in words ==> IsWord(w)
    ensures var s := Spaced(words); s != "" && !IsSpace(s[0]) && !IsSpace(s[|s| - 1])
  {
    assert IsWord(words[0]);
    if |words| > 1 {
      var last := Spaced(words[1..]);
      SpacedIsTrimmed(words[1..]);
      var s := words[0] + " " + last;
      assert s[|s| - 1] == last[|last| - 1] && s[0] == words[0][0];
    }
  }

  /** Cleaning keeps every word, in order, as long as they fit a note. */
  lemma CleaningKeepsTheWords(note: string)
    requires |Spaced(WordsOf(note, ""))| <= MAX_NOTE
    ensures WordsOf(Clean(note), "") == WordsOf(note, "")
  {
    WordsAreWords(note, "");
    WordsOfSpaced(WordsOf(note, ""));
    if WordsOf(note, "") != [] { SpacedIsTrimmed(WordsOf(note, "")); }
    var line := Spaced(WordsOf(note, ""));
    assert StripLeft(line) == line && StripRight(line) == line;
  }

  // ------------------------------------------------------------------ the round trip

  lemma {:induction false} ReadLine(l: string, rest: string, line: string)
    requires OneLine(l)
    ensures LinesFrom(l + "\n" + rest, line) == [line + l] + LinesFrom(rest, "")
  {
    var s := l + "\n" + rest;
    if l == "" {
      assert s[1..] == rest && line + l == line;
    } else {
      assert s[0] == l[0] && s[1..] == l[1..] + "\n" + rest;
      assert line + [l[0]] + l[1..] == line + l;
      ReadLine(l[1..], rest, line + [l[0]]);
    }
  }

  lemma NoteOfBullet(n: string)
    requires Cleaned(n)
    ensures NoteOf("- " + n) == n
  {
  }

  lemma {:induction false} BulletsRead(notes: seq<string>)
    requires forall n :: n in notes ==> Cleaned(n)
    ensures NotesIn(LinesFrom(Bullets(notes), "")) == notes
  {
    if notes != [] {
      var n, rest := notes[0], Bullets(notes[1..]);
      assert Cleaned(n);
      var l := "- " + n;
      assert Bullets(notes) == l + "\n" + rest;
      ReadLine(l, rest, "");
      assert "" + l == l;
      NoteOfBullet(n);
      BulletsRead(notes[1..]);
      assert ([l] + LinesFrom(rest, ""))[1..] == LinesFrom(rest, "");
      assert [n] + notes[1..] == notes;
    }
  }

  lemma {:induction false} HeaderHoldsNoNote()
    ensures OneLine(HEADER) && NoteOf(HEADER) == ""
  {
    assert HEADER[0] == '#';
    assert StripLeft(HEADER) == HEADER;
    StripRightHead(HEADER);
    var s := Strip(HEADER);
    assert |s| >= 2 ==> s[0] == '#' && s[..2][0] == '#';
  }

  /** Reading back what was rendered gives the same notes. */
  lemma RoundTrip(notes: seq<string>)
    requires forall n :: n in notes ==> Cleaned(n)
    ensures ExistingNotes(Render(notes)) == notes
  {
    if notes != [] {
      HeaderHoldsNoNote();
      var rest := Bullets(notes);
      ReadLine(HEADER, rest, "");
      assert "" + HEADER == HEADER;
      BulletsRead(notes);
      assert ([HEADER] + LinesFrom(rest, ""))[1..] == LinesFrom(rest, "");
    }
  }

  // ------------------------------------------------------------------ appending

  predicate Known(notes: seq<string>, n: string) {
    exists k :: k in notes && Lower(k) == Lower(n)
  }

  /** Drop the oldest notes until the text fits, keeping at least the newest. */
  function Fitting(notes: seq<string>): seq<string> {
    if |Render(notes)| > CHAR_CAP && |notes| > 1 then Fitting(notes[1..]) else notes
  }

  function Appended(notes: seq<string>, note: string): seq<string> {
    var n := Clean(note);
    if n == "" || Known(notes, n) then notes else Fitting(notes + [n])
  }

  method AppendNote(md: string, note: string) returns (out: string)
    ensures out == Render(Appended(ExistingNotes(md), note))
  {
    var n, notes := Clean(note), ExistingNotes(md);
    if n == "" || Known(notes, n) { return Render(notes); }
    ghost var all := notes + [n];
    notes := notes + [n];
    while |Render(notes)| > CHAR_CAP && |notes| > 1
      invariant notes != [] && Fitting(notes) == Fitting(all)
      decreases |notes|
    {
      notes := notes[1..];
    }
    return Render(notes);
  }

  method AppendNotes(md: string, notes: seq<string>) returns (out: string)
    ensures out == AllAppended(md, notes)
  {
    out := md;
    for i := 0 to |notes|
      invariant out == AllAppended(md, notes[..i])
    {
      assert notes[..i + 1][..i] == notes[..i];
      out := AppendNote(out, notes[i]);
    }
    assert notes[..|notes|] == notes;
  }

  function AllAppended(md: string, notes: seq<string>): string {
    if notes == [] then md
    else Render(Appended(ExistingNotes(AllAppended(md, notes[..|notes| - 1])), notes[|notes| - 1]))
  }

  predicate NoneTwice(notes: seq<string>) {
    forall i, j :: 0 <= i < j < |notes| ==> Lower(notes[i]) != Lower(notes[j])
  }

  /** A memory in good order: clean notes, none known twice, within the cap. */
  predicate InOrder(notes: seq<string>) {
    && (forall n :: n in notes ==> Cleaned(n))
    && NoneTwice(notes)
    && |Render(notes)| <= CHAR_CAP
  }

  lemma OneNoteFits(n: string)
    requires Cleaned(n)
    ensures |Render([n])| <= CHAR_CAP
  {
    assert Bullets([n][1..]) == "";
    assert |HEADER| < 100;
  }

  lemma {:induction false} FittingIsATail(notes: seq<string>) returns (k: nat)
    requires notes != [] && forall n :: n in notes ==> Cleaned(n)
    ensures k < |notes| && Fitting(notes) == notes[k..] && |Render(Fitting(notes))| <= CHAR_CAP
    ensures k > 0 ==> |Render(notes[k - 1..])| > CHAR_CAP
    decreases |notes|
  {
    k := 0;
    if |Render(notes)| > CHAR_CAP && |notes| > 1 {
      k := FittingIsATail(notes[1..]);
      assert notes[1..][k..] == notes[k + 1..];
      if k > 0 { assert notes[1..][k - 1..] == notes[k..]; } else { assert notes[0..] == notes; }
      k := k + 1;
    } else {
      assert notes[0..] == notes;
      if |notes| == 1 {
        assert notes == [notes[0]];
        OneNoteFits(notes[0]);
      }
    }
  }

  lemma AddNoneTwice(notes: seq<string>, n: string)
    requires NoneTwice(notes) && !Known(notes, n)
    ensures NoneTwice(notes + [n])
  {
  }

  /** A new note goes last, and the fewest oldest notes go to make room. */
  lemma NewNoteGoesLast(notes: seq<string>, n: string) returns (k: nat)
    requires InOrder(notes) && Cleaned(n) && !Known(notes, n)
    ensures k <= |notes| && Fitting(notes + [n]) == (notes + [n])[k..]
    ensures k > 0 ==> |Render((notes + [n])[k - 1..])| > CHAR_CAP
    ensures InOrder(Fitting(notes + [n])) && n in Fitting(notes + [n])
  {
    var all := notes + [n];
    forall x | x in all ensures Cleaned(x) {
      assert x in notes || x == n;
    }
    k := FittingIsATail(all);
    AddNoneTwice(notes, n);
    TailInOrder(all, k);
    assert all[k..][|all[k..]| - 1] == n;
  }

  lemma TailInOrder(all: seq<string>, k: nat)
    requires k <= |all| && NoneTwice(all) && |Render(all[k..])| <= CHAR_CAP
    requires forall x :: x in all ==> Cleaned(x)
    ensures InOrder(all[k..])
  {
  }

  /** One append keeps the memory in order: nothing changes, or the new note goes last and the fewest oldest
      notes go. */
  lemma {:induction false} AppendKeepsOrder(notes: seq<string>, note: string)
    requires InOrder(notes)
    ensures InOrder(Appended(notes, note))
    ensures Clean(note) == "" || Known(notes, Clean(note)) ==> Appended(notes, note) == notes
    ensures Clean(note) != "" ==> Known(Appended(notes, note), Clean(note))
    ensures Clean(note) != "" && !Known(notes, Clean(note)) ==>
      exists k: nat :: k <= |notes| && Appended(notes, note) == (notes + [Clean(note)])[k..]
                  && (k > 0 ==> |Render((notes + [Clean(note)])[k - 1..])| > CHAR_CAP)
  {
    CleaningCleans(note);
    if Clean(note) != "" && !Known(notes, Clean(note)) {
      var k := NewNoteGoesLast(notes, Clean(note));
    }
  }

  /** From an empty memory, any notes in any order: the text reads back as notes in good order, and its length
      never exceeds the cap. */
  lemma {:induction false} MemoryStaysInOrder(notes: seq<string>)
    ensures var md := AllAppended("", notes);
            md == Render(ExistingNotes(md)) && InOrder(ExistingNotes(md)) && |md| <= CHAR_CAP
  {
    if notes == [] {
      RoundTrip([]);
    } else {
      var before := AllAppended("", notes[..|notes| - 1]);
      MemoryStaysInOrder(notes[..|notes| - 1]);
      AppendKeepsOrder(ExistingNotes(before), notes[|notes| - 1]);
      RoundTrip(Appended(ExistingNotes(before), notes[|notes| - 1]));
    }
  }
}
