/** Registrable domains and the page-provenance rule (flowers/mandate.py). */
module Registrable {
  import opened Text
  import opened Mandate

  /** Shared suffixes of two and of three labels, right-most label last. */
  datatype SuffixList = SuffixList(two: set<(string, string)>, three: set<(string, string, string)>)
  {
    predicate Lists(parts: seq<string>) {
      || (|parts| == 2 && (parts[0], parts[1]) in two)
      || (|parts| == 3 && (parts[0], parts[1], parts[2]) in three)
    }
  }

  /** The non-empty labels of a dotted name; `run` is the label being read. */
  function LabelsFrom(s: string, run: string): seq<string> {
    if s == "" then if run == "" then [] else [run]
    else if s[0] == '.' then (if run == "" then [] else [run]) + LabelsFrom(s[1..], "")
    else LabelsFrom(s[1..], run + [s[0]])
  }

  function Labels(s: string): seq<string> {
    LabelsFrom(s, "")
  }

  function Join(parts: seq<string>): string {
    if parts == [] then ""
    else if |parts| == 1 then parts[0]
    else parts[0] + "." + Join(parts[1..])
  }

  function LastLabels(parts: seq<string>, n: nat): seq<string>
    requires n <= |parts|
  {
    parts[|parts| - n..]
  }

  /** How many labels are kept: two, or one more than a listed suffix; none when nothing precedes it. */
  function KeptCount(parts: seq<string>, suffixes: SuffixList): (n: nat)
    ensures n != 1 && n <= 4 && n <= |parts|
  {
    var k := |parts|;
    if k < 2 then 0
    else if k >= 3 && (parts[k - 3], parts[k - 2], parts[k - 1]) in suffixes.three then if k >= 4 then 4 else 0
    else if (parts[k - 2], parts[k - 1]) in suffixes.two then if k >= 3 then 3 else 0
    else 2
  }

  /** Cutting the dots off both ends first changes nothing once empty labels are dropped. */
  function RegistrableLabels(parts: seq<string>, suffixes: SuffixList): seq<string> {
    LastLabels(parts, KeptCount(parts, suffixes))
  }

  /** The registrable domain of a host, or "" when the host is itself a bare suffix. */
  function Registrable(domain: string, suffixes: SuffixList): string {
    Join(RegistrableLabels(Labels(Norm(domain)), suffixes))
  }

  /** An address is admissible from a page of its own organisation. */
  predicate HostAdmits(email: string, host: string, suffixes: SuffixList) {
    && Registrable(Domain(email), suffixes) != ""
    && Registrable(Domain(email), suffixes) == Registrable(host, suffixes)
  }

  // ------------------------------------------------------------------ splitting and joining

  predicate IsLabel(l: string) {
    l != "" && '.' !in l
  }

  ghost predicate AreLabels(parts: seq<string>) {
    forall p :: p in parts ==> IsLabel(p)
  }

  lemma {:induction false} LabelsAreLabels(s: string, run: string)
    requires '.' !in run
    ensures AreLabels(LabelsFrom(s, run))
  {
    if s != "" {
      if s[0] == '.' { LabelsAreLabels(s[1..], ""); } else { LabelsAreLabels(s[1..], run + [s[0]]); }
    }
  }

  lemma {:induction false} ReadLabel(l: string, rest: string, run: string)
    requires '.' !in l
    ensures LabelsFrom(l + rest, run) == LabelsFrom(rest, run + l)
  {
    if l == "" {
      assert l + rest == rest && run + l == run;
    } else {
      assert (l + rest)[1..] == l[1..] + rest;
      assert run + [l[0]] + l[1..] == run + l;
      ReadLabel(l[1..], rest, run + [l[0]]);
    }
  }

  lemma LabelsBehind(parts: seq<string>)
    requires AreLabels(parts) && parts != []
    ensures IsLabel(parts[0]) && AreLabels(parts[1..])
  {
    assert parts[0] in parts;
    forall p | p in parts[1..] ensures IsLabel(p) {
      assert p in parts;
    }
  }

  /** Splitting undoes joining. */
  lemma {:induction false} LabelsOfJoin(parts: seq<string>)
    requires AreLabels(parts)
    ensures Labels(Join(parts)) == parts
  {
    if parts != [] {
      LabelsBehind(parts);
      var l := parts[0];
      assert "" + l == l;
      if |parts| == 1 {
        ReadLabel(l, "", "");
        assert l + "" == l && parts == [l];
      } else {
        var rest := "." + Join(parts[1..]);
        assert Join(parts) == l + rest;
        ReadLabel(l, rest, "");
        assert rest[0] == '.' && rest[1..] == Join(parts[1..]);
        LabelsOfJoin(parts[1..]);
        assert [l] + parts[1..] == parts;
      }
    }
  }

  // ------------------------------------------------------------------ what the answer is worth

  /** The cut is stable and never leaves a listed suffix. */
  lemma CutIsStable(parts: seq<string>, suffixes: SuffixList)
    ensures var kept := RegistrableLabels(parts, suffixes);
            && RegistrableLabels(kept, suffixes) == kept
            && !suffixes.Lists(kept)
            && (kept == [] || 2 <= |kept| <= 4)
  {
    var k, n := |parts|, KeptCount(parts, suffixes);
    var kept := LastLabels(parts, n);
    if n > 0 {
      assert kept[n - 2] == parts[k - 2] && kept[n - 1] == parts[k - 1];
      assert n >= 3 ==> kept[n - 3] == parts[k - 3];
      assert KeptCount(kept, suffixes) == n;
    }
    assert LastLabels(kept, n) == kept;
  }

  /** The answer, read label by label, is never one of the listed suffixes, and one label is never enough. */
  lemma NeverAListedSuffix(domain: string, suffixes: SuffixList)
    ensures var r := Labels(Registrable(domain, suffixes));
            !suffixes.Lists(r) && (r == [] || 2 <= |r| <= 4)
  {
    var parts := Labels(Norm(domain));
    KeptAreLabels(domain, suffixes);
    LabelsOfJoin(RegistrableLabels(parts, suffixes));
    CutIsStable(parts, suffixes);
  }

  lemma KeptAreLabels(domain: string, suffixes: SuffixList)
    ensures AreLabels(RegistrableLabels(Labels(Norm(domain)), suffixes))
  {
    LabelsAreLabels(Norm(domain), "");
  }

  /** Leading or trailing space in what was kept. */
  predicate Ragged(s: string) {
    s != "" && (IsSpace(s[0]) || IsSpace(s[|s| - 1]))
  }

  lemma TrimmedIsNorm(s: string)
    requires !Ragged(s) && Lower(s) == s
    ensures Norm(s) == s
  {
  }

  lemma {:induction false} EndsOfJoin(parts: seq<string>)
    requires AreLabels(parts) && parts != []
    ensures var j, last := Join(parts), parts[|parts| - 1];
            && parts[0] != "" && last != ""
            && j != "" && j[0] == parts[0][0] && j[|j| - 1] == last[|last| - 1]
  {
    LabelsBehind(parts);
    if |parts| > 1 {
      EndsOfJoin(parts[1..]);
      var tail := Join(parts[1..]);
      var j := parts[0] + "." + tail;
      assert Join(parts) == j && j[0] == parts[0][0] && j[|j| - 1] == tail[|tail| - 1];
    }
  }

  /** No white space before the first nor after the last of the labels that will be kept. */
  predicate PlainEnds(parts: seq<string>, n: nat)
    requires n <= |parts|
  {
    n == 0 || (!StartsWithSpace(parts[|parts| - n]) && !EndsWithSpace(parts[|parts| - 1]))
  }

  predicate StartsWithSpace(s: string) {
    s != "" && IsSpace(s[0])
  }

  predicate EndsWithSpace(s: string) {
    s != "" && IsSpace(s[|s| - 1])
  }

  /** Taking the registrable domain twice changes nothing exactly when, in the host as given, the first of the
      labels to be kept does not start with white space and the last does not end with it. */
  lemma IdempotentIff(domain: string, suffixes: SuffixList)
    ensures var parts := Labels(Norm(domain));
            Registrable(Registrable(domain, suffixes), suffixes) == Registrable(domain, suffixes)
            <==> PlainEnds(parts, KeptCount(parts, suffixes))
  {
    var parts := Labels(Norm(domain));
    var n := KeptCount(parts, suffixes);
    KeptAreLabels(domain, suffixes);
    if n > 0 { RaggedIff(LastLabels(parts, n)); }
    StableIffPlain(domain, suffixes);
  }

  lemma RaggedIff(kept: seq<string>)
    requires AreLabels(kept) && kept != []
    ensures Ragged(Join(kept)) <==> StartsWithSpace(kept[0]) || EndsWithSpace(kept[|kept| - 1])
  {
    EndsOfJoin(kept);
  }

  /** A host without white space at either end of any of its labels is always stable. */
  lemma PlainHostIsIdempotent(domain: string, suffixes: SuffixList)
    requires forall l :: l in Labels(Norm(domain)) ==> !StartsWithSpace(l) && !EndsWithSpace(l)
    ensures Registrable(Registrable(domain, suffixes), suffixes) == Registrable(domain, suffixes)
  {
    IdempotentIff(domain, suffixes);
  }

  lemma StableIffPlain(domain: string, suffixes: SuffixList)
    ensures var r := Registrable(domain, suffixes);
            Registrable(r, suffixes) == r <==> !Ragged(r)
  {
    var r := Registrable(domain, suffixes);
    if Ragged(r) {
      NormShrinksRagged(r);
      CutIsShort(r, suffixes);
    } else {
      PlainIsStable(domain, suffixes);
    }
  }

  lemma PlainIsStable(domain: string, suffixes: SuffixList)
    requires !Ragged(Registrable(domain, suffixes))
    ensures Registrable(Registrable(domain, suffixes), suffixes) == Registrable(domain, suffixes)
  {
    var parts := Labels(Norm(domain));
    var kept := RegistrableLabels(parts, suffixes);
    LowerKept(domain, suffixes);
    TrimmedIsNorm(Join(kept));
    KeptAreLabels(domain, suffixes);
    LabelsOfJoin(kept);
    CutIsStable(parts, suffixes);
  }

  /** The space case does occur, whatever the list, as long as it lists no label that starts with a space. */
  lemma SpaceInsideAHostIsNotStable(suffixes: SuffixList)
    requires !suffixes.Lists([" a", "b"]) && !suffixes.Lists(["x", " a", "b"])
    ensures Registrable("x. a.b", suffixes) == " a.b" && Registrable(" a.b", suffixes) != " a.b"
  {
    var d := "x. a.b";
    assert StripLeft(d) == d && StripRight(d) == d;
    assert Lower(d) == d;
    var parts := ["x", " a", "b"];
    assert parts[0] == "x" && parts[1] == " a" && parts[2] == "b";
    assert parts[1..] == [" a", "b"] && [" a", "b"][1..] == ["b"];
    assert Join([" a", "b"]) == " a.b";
    assert Join(parts) == d;
    LabelsOfJoin(parts);
    assert LastLabels(parts, 2) == [" a", "b"];
    assert " a"[0] == ' ';
    IdempotentIff(d, suffixes);
  }

  lemma {:induction false} LowerLabels(s: string, run: string)
    requires Lower(s) == s && Lower(run) == run
    ensures forall l :: l in LabelsFrom(s, run) ==> Lower(l) == l
  {
    if s != "" {
      assert s[0] == Lower(s)[0] == LowerChar(s[0]);
      assert Lower(s[1..]) == s[1..] by {
        forall i | 0 <= i < |s| - 1 ensures LowerChar(s[1..][i]) == s[1..][i] {
          assert s[1..][i] == s[i + 1] == Lower(s)[i + 1];
        }
      }
      if s[0] == '.' {
        assert Lower("") == "";
        LowerLabels(s[1..], "");
      } else {
        assert Lower(run + [s[0]]) == run + [s[0]] by {
          forall i | 0 <= i < |run| + 1 ensures LowerChar((run + [s[0]])[i]) == (run + [s[0]])[i] {
            if i < |run| { assert run[i] == Lower(run)[i]; }
          }
        }
        LowerLabels(s[1..], run + [s[0]]);
      }
    }
  }

  lemma {:induction false} LowerJoin(parts: seq<string>)
    requires forall p :: p in parts ==> Lower(p) == p
    ensures Lower(Join(parts)) == Join(parts)
  {
    if |parts| > 1 {
      LowerJoin(parts[1..]);
      var a, b := parts[0], Join(parts[1..]);
      var j := a + "." + b;
      forall i | 0 <= i < |j| ensures LowerChar(j[i]) == j[i] {
        if i < |a| { assert a[i] == Lower(a)[i]; }
        else if i > |a| { assert j[i] == b[i - |a| - 1] == Lower(b)[i - |a| - 1]; }
      }
    }
  }

  lemma LowerKept(domain: string, suffixes: SuffixList)
    ensures var r := Registrable(domain, suffixes); Lower(r) == r
  {
    var n := Norm(domain);
    var t := Strip(domain);
    assert Lower(n) == n by {
      forall i | 0 <= i < |n| ensures LowerChar(n[i]) == n[i] { assert n[i] == LowerChar(t[i]); }
    }
    assert Lower("") == "";
    LowerLabels(n, "");
    LowerJoin(RegistrableLabels(Labels(n), suffixes));
  }

  lemma {:induction false} StripLeftShorter(s: string)
    ensures |StripLeft(s)| <= |s|
    ensures s != "" && IsSpace(s[0]) ==> |StripLeft(s)| < |s|
  {
    if s != "" { StripLeftShorter(s[1..]); }
  }

  lemma NormShrinksRagged(s: string)
    requires Ragged(s)
    ensures |Norm(s)| < |s|
  {
    StripLeftShorter(s);
    var t := StripLeft(s);
    StripRightTrims(t);
    if !IsSpace(s[0]) {
      assert t == s;
      StripRightTrims(s[..|s| - 1]);
    }
  }

  lemma {:induction false} LabelsFit(s: string, run: string)
    ensures |Join(LabelsFrom(s, run))| <= |s| + |run|
  {
    if s != "" {
      if s[0] == '.' {
        LabelsFit(s[1..], "");
        var rest := LabelsFrom(s[1..], "");
        if run != "" { assert ([run] + rest)[1..] == rest; }
        else { assert [] + rest == rest; }
      } else {
        LabelsFit(s[1..], run + [s[0]]);
      }
    }
  }

  lemma {:induction false} SuffixIsShorter(parts: seq<string>, k: nat)
    requires k <= |parts|
    ensures |Join(parts[k..])| <= |Join(parts)|
  {
    if k > 0 {
      SuffixIsShorter(parts[1..], k - 1);
      assert parts[1..][k - 1..] == parts[k..];
      if |parts| == 1 { assert parts[1..] == []; }
    } else {
      assert parts[k..] == parts;
    }
  }

  /** The answer is no longer than the trimmed question. */
  lemma CutIsShort(s: string, suffixes: SuffixList)
    ensures |Registrable(s, suffixes)| <= |Norm(s)|
  {
    var n := Norm(s);
    LabelsFit(n, "");
    var parts := Labels(n);
    SuffixIsShorter(parts, |parts| - KeptCount(parts, suffixes));
  }

  // ------------------------------------------------------------------ domain entries of the allow-list

  lemma {:induction false} SplitAtDot(a: string, e: string, run: string)
    ensures LabelsFrom(a + "." + e, run) == LabelsFrom(a, run) + LabelsFrom(e, "")
    decreases |a|
  {
    var s := a + "." + e;
    if a == "" {
      assert s[1..] == e;
    } else {
      assert s[0] == a[0] && s[1..] == a[1..] + "." + e;
      if a[0] == '.' {
        SplitAtDot(a[1..], e, "");
        var head := if run == "" then [] else [run];
        var mid, last := LabelsFrom(a[1..], ""), LabelsFrom(e, "");
        assert head + (mid + last) == (head + mid) + last;
      } else {
        SplitAtDot(a[1..], e, run + [a[0]]);
      }
    }
  }

  predicate EndsWithLabels(whole: seq<string>, tail: seq<string>) {
    |tail| <= |whole| && whole[|whole| - |tail|..] == tail
  }

  lemma {:induction false} NoAtIsItsOwnDomain(s: string)
    requires '@' !in s
    ensures AfterLastAt(s) == s
  {
  }

  /** A domain entry admits only hosts and addresses of that domain or below it, label by label: a name that
      merely ends in the same letters is never admitted. */
  lemma DomainEntryAdmitsLabelwise(recipient: string, entry: string)
    requires EntryAdmits(recipient, entry) && '@' !in DropAts(Norm(entry))
    ensures EndsWithLabels(Labels(Domain(recipient)), Labels(DropAts(Norm(entry))))
  {
    var d, r, e := Domain(recipient), Norm(recipient), DropAts(Norm(entry));
    if '@' !in r { NoAtIsItsOwnDomain(r); }
    if d != e {
      assert EndsWith(d, "." + e);
      var a := d[..|d| - |"." + e|];
      assert d == a + "." + e;
      SplitAtDot(a, e, "");
    }
  }

  lemma {:induction false} JoinSplits(front: seq<string>, back: seq<string>)
    requires front != [] && back != []
    ensures Join(front + back) == Join(front) + "." + Join(back)
  {
    if |front| == 1 {
      assert (front + back)[1..] == back;
    } else {
      assert (front + back)[1..] == front[1..] + back;
      JoinSplits(front[1..], back);
    }
  }

  /** And it admits all of these: every host or address whose domain, label by label, is the entry or lies below. */
  lemma DomainEntryAdmitsBelow(recipient: string, entry: string, whole: seq<string>, tail: seq<string>)
    requires Domain(recipient) == Join(whole) && DropAts(Norm(entry)) == Join(tail) && AreLabels(tail)
    requires tail != [] && EndsWithLabels(whole, tail) && Norm(recipient) != ""
    ensures EntryAdmits(recipient, entry)
  {
    EndsOfJoin(tail);
    var front, e := whole[..|whole| - |tail|], Join(tail);
    assert whole == front + tail;
    if front == [] {
      assert whole == tail;
    } else {
      JoinSplits(front, tail);
      assert Domain(recipient) == Join(front) + ("." + e);
      assert EndsWith(Domain(recipient), "." + e);
    }
  }

  // ------------------------------------------------------------------ how much of a host is kept

  /** The length of the longest suffix of a host that is shared by organisations; a last label always is. */
  function SharedSuffix(parts: seq<string>, suffixes: SuffixList): nat {
    if |parts| >= 3 && suffixes.Lists(LastLabels(parts, 3)) then 3
    else if |parts| >= 2 && suffixes.Lists(LastLabels(parts, 2)) then 2
    else 1
  }

  /** Kept is one label more than the longest shared suffix, when the host has one more. */
  lemma KeepsOneMoreThanShared(parts: seq<string>, suffixes: SuffixList)
    ensures var n := SharedSuffix(parts, suffixes) + 1;
            RegistrableLabels(parts, suffixes) == if n <= |parts| then LastLabels(parts, n) else []
  {
  }

  /** An address is admissible from a page exactly when its domain and the page's host keep the same labels, and
      some. */
  lemma HostAdmitsIff(email: string, host: string, suffixes: SuffixList)
    ensures HostAdmits(email, host, suffixes) <==>
      var own := RegistrableLabels(Labels(Norm(Domain(email))), suffixes);
      own != [] && own == RegistrableLabels(Labels(Norm(host)), suffixes)
  {
    KeptAreLabels(Domain(email), suffixes);
    KeptAreLabels(host, suffixes);
    var own := RegistrableLabels(Labels(Norm(Domain(email))), suffixes);
    LabelsOfJoin(own);
    LabelsOfJoin(RegistrableLabels(Labels(Norm(host)), suffixes));
    if own != [] { EndsOfJoin(own); }
  }
}
