/** The owner-approved autonomy scope (flowers/mandate.py): allow-list, magnitude caps and their counter. */
module Mandate {
  import opened Types
  import opened Text
  import opened Policy

  // ------------------------------------------------------------------ recipients

  /** Lower, trim, drop blanks and repeats, keeping first occurrences. */
  function DedupLower(items: seq<string>): (out: seq<string>)
    ensures NoRepeats(out)
    ensures forall r :: r in out <==> r != "" && exists i :: i in items && Norm(i) == r
  {
    if items == [] then []
    else
      var kept := DedupLower(items[..|items| - 1]);
      var s := Norm(items[|items| - 1]);
      assert items == items[..|items| - 1] + [items[|items| - 1]];
      if s == "" || s in kept then kept else kept + [s]
  }

  predicate NoRepeats<T(==)>(s: seq<T>) {
    forall i, j :: 0 <= i < j < |s| ==> s[i] != s[j]
  }

  method Dedup(items: seq<string>) returns (out: seq<string>)
    ensures out == DedupLower(items)
  {
    out := [];
    for i := 0 to |items|
      invariant out == DedupLower(items[..i])
    {
      var s := Norm(items[i]);
      assert items[..i + 1][..i] == items[..i];
      if s != "" && s !in out {
        out := out + [s];
      }
    }
    assert items[..|items|] == items;
  }

  function AfterLastAt(s: string): string {
    if '@' !in s then s else AfterLastAt(s[1..])
  }

  /** The part after the last '@', or the whole token when it has none. */
  function Domain(recipient: string): string {
    AfterLastAt(Norm(recipient))
  }

  predicate EndsWith(s: string, tail: string) {
    |tail| <= |s| && s[|s| - |tail|..] == tail
  }

  function DropAts(s: string): string {
    if s != "" && s[0] == '@' then DropAts(s[1..]) else s
  }

  predicate EntryAdmits(recipient: string, entry: string) {
    var r, e := Norm(recipient), DropAts(Norm(entry));
    var d := Domain(recipient);
    && r != "" && e != ""
    && (|| r == e
        || (d != "" && (d == e || EndsWith(d, "." + e)))
        || ('@' !in r && EndsWith(r, "." + e)))
  }

  /** Fail-closed allow-list: an exact token, or a domain entry and its subdomains. */
  predicate OnAllowlist(recipient: string, scope: seq<string>) {
    exists e :: e in scope && EntryAdmits(recipient, e)
  }

  /** A full address: something before an '@'. */
  predicate IsAddress(e: string) {
    && Norm(e) == e && e != "" && e[0] != '@' && '@' in e
  }

  lemma {:induction false} DomainHasNoAt(s: string)
    ensures '@' !in AfterLastAt(s)
  {
    if '@' in s {
      DomainHasNoAt(s[1..]);
    }
  }

  /** A domain written with its at-sign is the same entry. */
  lemma AtSignIsDropped(recipient: string, entry: string)
    requires Norm(entry) == entry
    ensures EntryAdmits(recipient, "@" + entry) <==> EntryAdmits(recipient, entry)
  {
    var e := "@" + entry;
    assert StripLeft(e) == e;
    if entry == "" {
      assert e == "@" && Norm(e) == e;
    } else {
      EndsUnstripped(entry);
      assert e[|e| - 1] == entry[|entry| - 1];
      assert StripRight(e) == e;
      assert Lower(e) == "@" + Lower(entry);
    }
    assert Norm(e) == e;
    assert e[1..] == entry;
  }

  lemma EndsUnstripped(s: string)
    requires Norm(s) == s && s != ""
    ensures !IsSpace(s[|s| - 1])
  {
    StripIsTrim(s);
    var t := Strip(s);
    assert s[|s| - 1] == LowerChar(t[|t| - 1]);
  }

  /** An exact address on the list admits that address and no other. */
  lemma AddressAdmitsOnlyItself(recipient: string, e: string)
    requires IsAddress(e)
    ensures EntryAdmits(recipient, e) <==> Norm(recipient) == e
  {
    var d, r := Domain(recipient), Norm(recipient);
    DomainHasNoAt(r);
    assert DropAts(e) == e;
    assert '@' in "." + e by {
      assert ("." + e)[1..] == e;
    }
    if EndsWith(d, "." + e) {
      TailKeepsMember(d, "." + e, '@');
    }
    if EndsWith(r, "." + e) {
      TailKeepsMember(r, "." + e, '@');
    }
  }

  lemma TailKeepsMember(s: string, tail: string, c: char)
    requires EndsWith(s, tail) && c in tail
    ensures c in s
  {
  }

  // ------------------------------------------------------------------ the mandate

  datatype Caps = Caps(maxSends: int, perDomain: int, perRecipient: int)

  datatype Mandate = NoMandate | Mandate(
    actionTypes: set<string>,
    scope: seq<string>,
    rawCaps: Caps,
    undoSeconds: int)

  const HARD := Caps(200, 100, 20)

  function Clamp(v: int, hard: int): (c: int)
    requires hard >= 1
    ensures 1 <= c <= hard && (1 <= v <= hard ==> c == v)
  {
    if v < 1 then 1 else if v > hard then hard else v
  }

  function EffectiveCaps(m: Mandate): Caps
    requires m.Mandate?
  {
    Caps(Clamp(m.rawCaps.maxSends, HARD.maxSends),
         Clamp(m.rawCaps.perDomain, HARD.perDomain),
         Clamp(m.rawCaps.perRecipient, HARD.perRecipient))
  }

  /** An undo window between 0 and an hour; none without a mandate. */
  function UndoSeconds(m: Mandate): int {
    if m.NoMandate? || m.undoSeconds < 0 then 0
    else if m.undoSeconds > 3600 then 3600 else m.undoSeconds
  }

  /** On the field as it was written: no window at zero or below, itself up to an hour, an hour beyond. */
  lemma UndoWindowClamps(m: Mandate)
    requires m.Mandate?
    ensures 1 <= m.undoSeconds <= 3600 ==> UndoSeconds(m) == m.undoSeconds
    ensures m.undoSeconds > 3600 ==> UndoSeconds(m) == 3600
    ensures m.undoSeconds < 1 ==> UndoSeconds(m) == 0
  {
  }

  /** Caps as written stand within the hard limits; beyond them the limit stands, and below one, one. */
  lemma CapsClamp(m: Mandate)
    requires m.Mandate?
    ensures EffectiveCaps(m) == Caps(Max(1, Min(m.rawCaps.maxSends, 200)), Max(1, Min(m.rawCaps.perDomain, 100)),
                                     Max(1, Min(m.rawCaps.perRecipient, 20)))
  {
  }

  /** How a call reaches people: the harvested recipient values, the delivering verbs, the fan-out keys. */
  datatype Reach = Reach(
    harvested: Call -> seq<string>,
    delivering: (string, string) -> bool,
    fanOut: Call -> bool)

  function Recipients(reach: Reach, c: Call): seq<string> {
    DedupLower(reach.harvested(c))
  }

  predicate HasRecipientIntent(reach: Reach, c: Call) {
    reach.delivering(c.toolkit, c.action) || Recipients(reach, c) != [] || reach.fanOut(c)
  }

  function CutLabel(s: string): (string, string)
    requires ':' in s
  {
    if s[0] == ':' then ("", s[1..]) else var (a, b) := CutLabel(s[1..]); ([s[0]] + a, b)
  }

  /** Lower-case toolkit, upper-case action, so case cannot dodge a scope match. */
  function NormLabel(tag: string): string {
    var s := Strip(tag);
    if ':' !in s then Lower(s)
    else var (tk, act) := CutLabel(s); Lower(Strip(tk)) + ":" + Upper(Strip(act))
  }

  /** A name as toolkits and actions have it: not blank at either end, and without a colon. */
  predicate IsName(s: string) {
    s != "" && !IsSpace(s[0]) && !IsSpace(s[|s| - 1]) && ':' !in s
  }

  lemma {:induction false} CutsAtTheColon(tk: string, act: string)
    requires ':' !in tk
    ensures ':' in tk + ":" + act && CutLabel(tk + ":" + act) == (tk, act)
  {
    var s := tk + ":" + act;
    assert s[|tk|] == ':';
    if tk == "" {
      assert s[1..] == act;
    } else {
      CutsAtTheColon(tk[1..], act);
      assert s[0] == tk[0] && tk[0] in tk && s[1..] == tk[1..] + ":" + act;
      assert [tk[0]] + tk[1..] == tk;
    }
  }

  lemma NormLabelReads(tk: string, act: string)
    requires IsName(tk) && IsName(act)
    ensures NormLabel(Label(tk, act)) == Lower(tk) + ":" + Upper(act)
  {
    var s := Label(tk, act);
    assert s[0] == tk[0] && s[|s| - 1] == act[|act| - 1];
    assert Strip(s) == s;
    CutsAtTheColon(tk, act);
  }

  /** Two classes are one exactly when their names agree up to case: no spelling slips out of a listed class, and no
      other class into it. */
  lemma LabelsMatchIff(tk: string, act: string, tk': string, act': string)
    requires IsName(tk) && IsName(act) && IsName(tk') && IsName(act')
    ensures NormLabel(Label(tk, act)) == NormLabel(Label(tk', act')) <==>
      Lower(tk) == Lower(tk') && Upper(act) == Upper(act')
  {
    NormLabelReads(tk, act);
    NormLabelReads(tk', act');
    LowerAddsNoColon(tk);
    LowerAddsNoColon(tk');
    CutsAtTheColon(Lower(tk), Upper(act));
    CutsAtTheColon(Lower(tk'), Upper(act'));
  }

  lemma LowerAddsNoColon(s: string)
    requires ':' !in s
    ensures ':' !in Lower(s)
  {
    forall i | 0 <= i < |s| ensures Lower(s)[i] != ':' {
      assert s[i] in s;
    }
  }

  predicate ListsAction(m: Mandate, c: Call) {
    m.Mandate? && NormLabel(Label(c.toolkit, c.action)) in m.actionTypes
  }

  // ------------------------------------------------------------------ the counter

  datatype Counts = Counts(
    total: nat,
    byDomain: map<string, nat>,
    byRecipient: map<string, nat>,
    digests: seq<Params>)

  const NewCounts := Counts(0, map[], map[], [])

  /** How many of the recipients live at a domain. */
  function AtDomain(rs: seq<string>, d: string): nat {
    if rs == [] then 0
    else AtDomain(rs[..|rs| - 1], d) + if Domain(rs[|rs| - 1]) == d then 1 else 0
  }

  function CountRecipients(c: Counts, rs: seq<string>): Counts {
    if rs == [] then c
    else
      var p := CountRecipients(c, rs[..|rs| - 1]);
      var r := rs[|rs| - 1];
      var d := Domain(r);
      p.(byRecipient := p.byRecipient[r := Get(p.byRecipient, r) + 1],
         byDomain := if d == "" then p.byDomain else p.byDomain[d := Get(p.byDomain, d) + 1])
  }

  /** The counter after one forwarded mandate-covered call. */
  function Bumped(c: Counts, rs: seq<string>, params: Params): Counts {
    var p := CountRecipients(c.(total := c.total + 1), rs);
    if params in p.digests then p else p.(digests := p.digests + [params])
  }

  method Bump(c: Counts, rs: seq<string>, params: Params) returns (out: Counts)
    ensures out == Bumped(c, rs, params)
  {
    out := c.(total := c.total + 1);
    for i := 0 to |rs|
      invariant out == CountRecipients(c.(total := c.total + 1), rs[..i])
    {
      assert rs[..i + 1][..i] == rs[..i];
      var r := rs[i];
      out := out.(byRecipient := out.byRecipient[r := Get(out.byRecipient, r) + 1]);
      var d := Domain(r);
      if d != "" {
        out := out.(byDomain := out.byDomain[d := Get(out.byDomain, d) + 1]);
      }
    }
    assert rs[..|rs|] == rs;
    if params !in out.digests {
      out := out.(digests := out.digests + [params]);
    }
  }

  // ------------------------------------------------------------------ the predicate

  /** The only way a mandate authorizes a call; caps are projected over this call's recipients. */
  predicate Covers(m: Mandate, rules: Rules, reach: Reach, c: Call, tier: Tier, counts: Counts) {
    && m.Mandate?
    && tier == Ask
    && !rules.refused(c.toolkit, c.action)
    && ListsAction(m, c)
    && var recips := Recipients(reach, c);
    && (forall r :: r in recips ==> OnAllowlist(r, m.scope))
    && !(HasRecipientIntent(reach, c) && recips == [])
    && c.params !in counts.digests
    && var caps := EffectiveCaps(m);
    && counts.total < caps.maxSends
    && (forall r :: r in recips ==> Get(counts.byRecipient, r) + multiset(recips)[r] <= caps.perRecipient)
    && (forall r :: r in recips && Domain(r) != "" ==>
          Get(counts.byDomain, Domain(r)) + AtDomain(recips, Domain(r)) <= caps.perDomain)
  }

  /** Learned trust: only a reversible class that reaches nobody, approved often enough. */
  predicate LearnedCovers(trust: map<string, nat>, threshold: int, rules: Rules, reach: Reach, c: Call, tier: Tier) {
    && tier == Ask
    && !rules.refused(c.toolkit, c.action)
    && !HasRecipientIntent(reach, c)
    && Get(trust, NormLabel(Label(c.toolkit, c.action))) >= (if threshold < 1 then 1 else threshold)
  }

  /** An action is learned exactly when its class was approved often enough, and this very call reaches nobody. */
  lemma LearnedIff(trust: map<string, nat>, threshold: int, rules: Rules, reach: Reach, c: Call, tier: Tier)
    ensures LearnedCovers(trust, threshold, rules, reach, c, tier) <==>
      && tier == Ask && !rules.refused(c.toolkit, c.action)
      && !reach.delivering(c.toolkit, c.action) && !reach.fanOut(c)
      && (forall i :: i in reach.harvested(c) ==> Norm(i) == "")
      && NormLabel(Label(c.toolkit, c.action)) in trust
      && trust[NormLabel(Label(c.toolkit, c.action))] >= Max(1, threshold)
  {
    var rs := Recipients(reach, c);
    if rs != [] { assert rs[0] in rs; }
    if i :| i in reach.harvested(c) && Norm(i) != "" { assert Norm(i) in rs; }
  }

  // ------------------------------------------------------------------ the two tallies agree

  /** The sum of a tally over a set of recipients. */
  ghost function SumOver(m: map<string, nat>, keys: set<string>): nat {
    if keys == {} then 0 else var k :| k in keys; Get(m, k) + SumOver(m, keys - {k})
  }

  lemma {:induction false} SumSplits(m: map<string, nat>, keys: set<string>, k: string)
    requires k in keys
    ensures SumOver(m, keys) == Get(m, k) + SumOver(m, keys - {k})
    decreases |keys|
  {
    var j :| j in keys && SumOver(m, keys) == Get(m, j) + SumOver(m, keys - {j});
    if j != k {
      SumSplits(m, keys - {j}, k);
      assert keys - {j} - {k} == keys - {k} - {j};
      SumSplits(m, keys - {k}, j);
    }
  }

  lemma {:induction false} SumUnchanged(m: map<string, nat>, n: map<string, nat>, keys: set<string>)
    requires forall k :: k in keys ==> Get(m, k) == Get(n, k)
    ensures SumOver(m, keys) == SumOver(n, keys)
    decreases |keys|
  {
    if keys != {} {
      var k :| k in keys;
      SumSplits(m, keys, k);
      SumSplits(n, keys, k);
      SumUnchanged(m, n, keys - {k});
    }
  }

  /** The recipients of a tally that live at a domain. */
  function Residents(m: map<string, nat>, d: string): set<string> {
    set r | r in m && Domain(r) == d
  }

  /** Each domain's count is the sum of the counts of its recipients. */
  ghost predicate Balanced(c: Counts) {
    forall d :: d != "" ==> Get(c.byDomain, d) == SumOver(c.byRecipient, Residents(c.byRecipient, d))
  }

  lemma OneMore(m: map<string, nat>, r: string, d: string)
    ensures var n := m[r := Get(m, r) + 1];
            SumOver(n, Residents(n, d)) == SumOver(m, Residents(m, d)) + if Domain(r) == d then 1 else 0
  {
    var n := m[r := Get(m, r) + 1];
    if Domain(r) != d {
      assert Residents(n, d) == Residents(m, d);
      SumUnchanged(n, m, Residents(m, d));
    } else {
      var others := Residents(m, d) - {r};
      assert Residents(n, d) - {r} == others;
      SumSplits(n, Residents(n, d), r);
      SumUnchanged(n, m, others);
      if r in m { SumSplits(m, Residents(m, d), r); } else { assert Residents(m, d) == others; }
    }
  }

  lemma {:induction false} CountingKeepsBalance(c: Counts, rs: seq<string>)
    requires Balanced(c)
    ensures Balanced(CountRecipients(c, rs))
  {
    if rs != [] {
      var p, r := CountRecipients(c, rs[..|rs| - 1]), rs[|rs| - 1];
      CountingKeepsBalance(c, rs[..|rs| - 1]);
      forall d | d != ""
        ensures Get(CountRecipients(c, rs).byDomain, d)
                == SumOver(CountRecipients(c, rs).byRecipient, Residents(CountRecipients(c, rs).byRecipient, d))
      {
        OneMore(p.byRecipient, r, d);
      }
    }
  }

  /** Recording a call keeps the two tallies in agreement. */
  lemma BumpKeepsBalance(c: Counts, rs: seq<string>, params: Params)
    requires Balanced(c)
    ensures Balanced(Bumped(c, rs, params))
  {
    var base := c.(total := c.total + 1);
    assert Balanced(base) by {
      forall d | d != "" ensures Get(base.byDomain, d) == SumOver(base.byRecipient, Residents(base.byRecipient, d)) {
        assert Get(c.byDomain, d) == SumOver(c.byRecipient, Residents(c.byRecipient, d));
      }
    }
    CountingKeepsBalance(base, rs);
    var p := CountRecipients(base, rs);
    var out := Bumped(c, rs, params);
    assert out.byDomain == p.byDomain && out.byRecipient == p.byRecipient;
  }

  // ------------------------------------------------------------------ the caps over a history

  /** One mandate-covered call that went out. */
  datatype Sent = Sent(recipients: seq<string>, params: Params)

  function ToRecipient(h: seq<Sent>, r: string): nat {
    if h == [] then 0 else ToRecipient(h[..|h| - 1], r) + multiset(h[|h| - 1].recipients)[r]
  }

  function ToDomain(h: seq<Sent>, d: string): nat {
    if h == [] then 0 else ToDomain(h[..|h| - 1], d) + AtDomain(h[|h| - 1].recipients, d)
  }

  /** The counter is an exact tally of the history: nothing forgotten, nothing counted twice. */
  ghost predicate Tallies(c: Counts, h: seq<Sent>) {
    && c.total == |h|
    && (forall r :: Get(c.byRecipient, r) == ToRecipient(h, r))
    && (forall d :: d != "" ==> Get(c.byDomain, d) == ToDomain(h, d))
    && |c.digests| == |h|
    && (forall i :: 0 <= i < |h| ==> c.digests[i] == h[i].params)
    && NoRepeats(c.digests)
  }

  ghost predicate WithinCaps(h: seq<Sent>, caps: Caps) {
    && |h| <= caps.maxSends
    && (forall r :: ToRecipient(h, r) <= caps.perRecipient)
    && (forall d :: d != "" ==> ToDomain(h, d) <= caps.perDomain)
  }

  lemma {:induction false} CountRecipientsAdds(c: Counts, rs: seq<string>)
    ensures var p := CountRecipients(c, rs);
            && p.total == c.total && p.digests == c.digests
            && (forall r :: Get(p.byRecipient, r) == Get(c.byRecipient, r) + multiset(rs)[r])
            && (forall d :: d != "" ==> Get(p.byDomain, d) == Get(c.byDomain, d) + AtDomain(rs, d))
  {
    if rs != [] {
      var init, last := rs[..|rs| - 1], rs[|rs| - 1];
      CountRecipientsAdds(c, init);
      assert rs == init + [last];
      assert multiset(rs) == multiset(init) + multiset{last};
    }
  }

  /** Recording a call whose parameters are new keeps the tally exact. */
  lemma BumpKeepsTally(counts: Counts, h: seq<Sent>, s: Sent)
    requires Tallies(counts, h) && s.params !in counts.digests
    ensures Tallies(Bumped(counts, s.recipients, s.params), h + [s])
  {
    var h' := h + [s];
    assert h'[..|h|] == h;
    var p := CountRecipients(counts.(total := counts.total + 1), s.recipients);
    CountRecipientsAdds(counts.(total := counts.total + 1), s.recipients);
    assert p.digests == counts.digests;
    var out := Bumped(counts, s.recipients, s.params);
    assert out == p.(digests := p.digests + [s.params]);
    forall r ensures Get(out.byRecipient, r) == ToRecipient(h', r) {
      assert Get(counts.byRecipient, r) == ToRecipient(h, r);
    }
    forall d | d != "" ensures Get(out.byDomain, d) == ToDomain(h', d) {
      assert Get(counts.byDomain, d) == ToDomain(h, d);
    }
  }

  /** A covered call keeps both the exact tally and every cap. */
  lemma {:induction false} CoveredSendStaysWithinCaps(m: Mandate, rules: Rules, reach: Reach, c: Call, tier: Tier,
                                                      counts: Counts, h: seq<Sent>)
    requires Covers(m, rules, reach, c, tier, counts)
    requires Tallies(counts, h) && WithinCaps(h, EffectiveCaps(m))
    ensures var h' := h + [Sent(Recipients(reach, c), c.params)];
            && Tallies(Bumped(counts, Recipients(reach, c), c.params), h')
            && WithinCaps(h', EffectiveCaps(m))
  {
    var rs := Recipients(reach, c);
    var h' := h + [Sent(rs, c.params)];
    BumpKeepsTally(counts, h, Sent(rs, c.params));
    CapsCoverOneMore(counts, h, Sent(rs, c.params), EffectiveCaps(m));
  }

  /** What coverage comes to, on the sends made so far instead of the counter: a listed ASK action whose recipients
      are all admitted, whose parameters are new, and with which the caps still hold. */
  lemma {:induction false} CoversIff(m: Mandate, rules: Rules, reach: Reach, c: Call, tier: Tier, counts: Counts,
                                     h: seq<Sent>)
    requires m.Mandate? && Tallies(counts, h) && WithinCaps(h, EffectiveCaps(m))
    ensures var rs := Recipients(reach, c);
            Covers(m, rules, reach, c, tier, counts) <==>
              && tier == Ask && !rules.refused(c.toolkit, c.action)
              && NormLabel(Label(c.toolkit, c.action)) in m.actionTypes
              && (forall r :: r in rs ==> exists e :: e in m.scope && EntryAdmits(r, e))
              && (rs == [] ==> !reach.delivering(c.toolkit, c.action) && !reach.fanOut(c))
              && (forall s :: s in h ==> s.params != c.params)
              && WithinCaps(h + [Sent(rs, c.params)], EffectiveCaps(m))
  {
    var rs, caps := Recipients(reach, c), EffectiveCaps(m);
    assert c.params in counts.digests <==> exists s :: s in h && s.params == c.params by {
      if c.params in counts.digests {
        var i :| 0 <= i < |h| && counts.digests[i] == c.params;
        assert h[i] in h;
      }
      if s :| s in h && s.params == c.params {
        var i :| 0 <= i < |h| && h[i] == s;
        assert counts.digests[i] == c.params;
      }
    }
    if Covers(m, rules, reach, c, tier, counts) {
      CoveredSendStaysWithinCaps(m, rules, reach, c, tier, counts, h);
    }
    if WithinCaps(h + [Sent(rs, c.params)], caps) {
      OneMoreWithin(counts, h, Sent(rs, c.params), caps);
    }
  }

  lemma OneMoreWithin(counts: Counts, h: seq<Sent>, s: Sent, caps: Caps)
    requires Tallies(counts, h) && WithinCaps(h + [s], caps)
    ensures counts.total < caps.maxSends
    ensures forall r :: r in s.recipients ==>
      Get(counts.byRecipient, r) + multiset(s.recipients)[r] <= caps.perRecipient
    ensures forall r :: r in s.recipients && Domain(r) != "" ==>
      Get(counts.byDomain, Domain(r)) + AtDomain(s.recipients, Domain(r)) <= caps.perDomain
  {
    var h' := h + [s];
    assert h'[..|h|] == h;
    forall r ensures Get(counts.byRecipient, r) + multiset(s.recipients)[r] <= caps.perRecipient {
      assert ToRecipient(h', r) == ToRecipient(h, r) + multiset(s.recipients)[r];
    }
    forall d | d != "" ensures Get(counts.byDomain, d) + AtDomain(s.recipients, d) <= caps.perDomain {
      assert ToDomain(h', d) == ToDomain(h, d) + AtDomain(s.recipients, d);
    }
  }

  lemma CapsCoverOneMore(counts: Counts, h: seq<Sent>, s: Sent, caps: Caps)
    requires Tallies(counts, h) && WithinCaps(h, caps) && counts.total < caps.maxSends
    requires forall r :: r in s.recipients ==>
      Get(counts.byRecipient, r) + multiset(s.recipients)[r] <= caps.perRecipient
    requires forall r :: r in s.recipients && Domain(r) != "" ==>
      Get(counts.byDomain, Domain(r)) + AtDomain(s.recipients, Domain(r)) <= caps.perDomain
    ensures WithinCaps(h + [s], caps)
  {
    var rs, h' := s.recipients, h + [s];
    assert h'[..|h|] == h;
    forall r ensures ToRecipient(h', r) <= caps.perRecipient {
      assert Get(counts.byRecipient, r) == ToRecipient(h, r);
      if r !in rs {
        assert multiset(rs)[r] == 0;
      }
    }
    forall d | d != "" ensures ToDomain(h', d) <= caps.perDomain {
      assert Get(counts.byDomain, d) == ToDomain(h, d);
      if x :| x in rs && Domain(x) == d {
      } else {
        NoneAtDomain(rs, d);
      }
    }
  }

  lemma {:induction false} NoneAtDomain(rs: seq<string>, d: string)
    requires forall r :: r in rs ==> Domain(r) != d
    ensures AtDomain(rs, d) == 0
  {
    if rs != [] {
      NoneAtDomain(rs[..|rs| - 1], d);
    }
  }

  // ------------------------------------------------------------------ the owner grant

  /** What the owner literally asked for: who was named and whether a send was asked for at all. */
  datatype Goal = Goal(named: set<string>, asksToSend: bool)

  /** The tight mandate a goal authorizes by itself, or nothing (then the owner sees the card). */
  function OwnerGrant(reach: Reach, proposedTypes: seq<(string, string)>, proposedScope: seq<string>,
                      goal: Goal): Mandate {
    var scope := DedupLower(proposedScope);
    if proposedTypes == [] || (exists t :: t in proposedTypes && !reach.delivering(t.0, t.1)) then NoMandate
    else if !goal.asksToSend || goal.named == {} then NoMandate
    else if scope == [] || (exists s :: s in scope && s !in goal.named) then NoMandate
    else Mandate(set t | t in proposedTypes :: NormLabel(Label(t.0, t.1)), scope,
                 Caps(|scope|, |scope|, 1), 0)
  }

  /** A goal authorizes by itself exactly when it asks for a send, only delivering actions are proposed, and the
      proposed recipients are there and all named in it. */
  lemma OwnerGrantIff(reach: Reach, types: seq<(string, string)>, proposedScope: seq<string>, goal: Goal)
    ensures OwnerGrant(reach, types, proposedScope, goal).Mandate? <==>
      && types != [] && (forall t :: t in types ==> reach.delivering(t.0, t.1))
      && goal.asksToSend && (exists i :: i in proposedScope && Norm(i) != "")
      && (forall i :: i in proposedScope && Norm(i) != "" ==> Norm(i) in goal.named)
  {
    var scope := DedupLower(proposedScope);
    if i :| i in proposedScope && Norm(i) != "" { assert Norm(i) in scope; }
    if scope != [] { assert scope[0] in scope; }
  }

  /** And then the first send to each named recipient is covered. */
  lemma {:induction false} GrantCoversTheFirstSend(reach: Reach, rules: Rules, types: seq<(string, string)>,
                                                   proposedScope: seq<string>, goal: Goal, c: Call)
    requires var m := OwnerGrant(reach, types, proposedScope, goal); m.Mandate?
    requires (c.toolkit, c.action) in types && !rules.refused(c.toolkit, c.action)
    requires |Recipients(reach, c)| == 1 && Recipients(reach, c)[0] in DedupLower(proposedScope)
    requires IsAddress(Recipients(reach, c)[0])
    ensures Covers(OwnerGrant(reach, types, proposedScope, goal), rules, reach, c, Ask, NewCounts)
  {
    var m, r := OwnerGrant(reach, types, proposedScope, goal), Recipients(reach, c)[0];
    AddressAdmitsOnlyItself(r, r);
    assert r in m.scope && EntryAdmits(r, r);
    assert Recipients(reach, c) == [r];
    assert multiset([r])[r] == 1 && AtDomain([r], Domain(r)) == 1 by { assert [r][..0] == []; }
  }

  /** An owner grant lists owner-named addresses only, so the recipients it admits are among the named. */
  lemma GrantAdmitsOnlyNamed(reach: Reach, types: seq<(string, string)>, proposedScope: seq<string>, goal: Goal,
                             c: Call, r: string)
    requires forall n :: n in goal.named ==> IsAddress(n)
    requires var m := OwnerGrant(reach, types, proposedScope, goal); m.Mandate? && OnAllowlist(r, m.scope)
    requires r in Recipients(reach, c)
    ensures r in goal.named
  {
    var e :| e in OwnerGrant(reach, types, proposedScope, goal).scope && EntryAdmits(r, e);
    AddressAdmitsOnlyItself(r, e);
    var i :| i in reach.harvested(c) && Norm(i) == r;
    NormTwice(i);
  }

  lemma NormTwice(s: string)
    ensures Norm(Norm(s)) == Norm(s)
  {
    StripIsTrim(s);
    var t := Strip(s);
    var l := Lower(t);
    if t != "" {
      assert l[0] == LowerChar(t[0]) && l[|l| - 1] == LowerChar(t[|t| - 1]);
      assert StripLeft(l) == l && StripRight(l) == l;
    }
    assert Lower(l) == l;
  }

  /** A stripped string neither starts nor ends with a space. */
  lemma StripIsTrim(s: string)
    ensures var t := Strip(s); t == "" || (!IsSpace(t[0]) && !IsSpace(t[|t| - 1]))
  {
    StripLeftTrims(s);
    StripRightTrims(StripLeft(s));
  }

  lemma {:induction false} StripLeftTrims(s: string)
    ensures var t := StripLeft(s); t == "" || !IsSpace(t[0])
  {
    if s != "" { StripLeftTrims(s[1..]); }
  }

  lemma {:induction false} StripRightTrims(s: string)
    ensures var t := StripRight(s);
            (t == "" || !IsSpace(t[|t| - 1])) && |t| <= |s| && t == s[..|t|]
  {
    if s != "" { StripRightTrims(s[..|s| - 1]); }
  }
}
