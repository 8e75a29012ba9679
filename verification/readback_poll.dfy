/** Polling an independent read-back until an effect settles (flowers/broker.py, _verify_readback). */
module ReadbackPoll {
  import opened Types
  import opened ReadBack

  /** One read-back attempt: a surface, nothing, a transient error, or an error no retry can cure. */
  datatype Probe = Seen(surface: Surface) | Nothing | Flaky | Broken

  /** What an effect record carries away from its read-back. */
  datatype Readback = Readback(drift: Option<bool>, expected: Option<bool>, broken: bool)

  const Unsettled := Readback(None, None, false)

  function At(polls: seq<Probe>, i: nat): Probe {
    if i < |polls| then polls[i] else Nothing
  }

  function Observe(before: Surface, after: Surface, fp: Option<Fingerprint>): Readback {
    Readback(Some(HasEffect(SnapshotDiff(before, after))), HasExpectedEffect(before, after, fp), false)
  }

  predicate Stops(r: Readback, fp: Option<Fingerprint>) {
    r.expected == Some(true) || (fp.None? && r.drift == Some(true))
  }

  /** Attempts i..n, `last` being what the attempts before i left behind. */
  function PollFrom(before: Surface, polls: seq<Probe>, fp: Option<Fingerprint>, i: nat, n: nat,
                    last: Readback): Readback
    decreases n - i
  {
    if i >= n then last
    else match At(polls, i)
      case Broken => Readback(None, None, true)
      case Seen(after) =>
        var r := Observe(before, after, fp);
        if Stops(r, fp) then r else PollFrom(before, polls, fp, i + 1, n, r)
      case _ => PollFrom(before, polls, fp, i + 1, n, Unsettled)
  }

  function Attempts(configured: int): nat {
    if configured < 1 then 1 else configured
  }

  function Verify(before: Probe, polls: seq<Probe>, fp: Option<Fingerprint>, attempts: int): Readback {
    match before
    case Seen(b) => PollFrom(b, polls, fp, 0, Attempts(attempts), Unsettled)
    case Broken => Readback(None, None, true)
    case _ => Unsettled
  }

  method VerifyReadback(before: Probe, polls: seq<Probe>, fp: Option<Fingerprint>, attempts: int) returns (r: Readback)
    ensures r == Verify(before, polls, fp, attempts)
  {
    if !before.Seen? {
      return if before.Broken? then Readback(None, None, true) else Unsettled;
    }
    r := Unsettled;
    var n := Attempts(attempts);
    for i := 0 to n
      invariant Verify(before, polls, fp, attempts) == PollFrom(before.surface, polls, fp, i, n, r)
    {
      match At(polls, i)
      case Broken => return Readback(None, None, true);
      case Seen(after) =>
        r := Observe(before.surface, after, fp);
        if Stops(r, fp) { return; }
      case _ => r := Unsettled;
    }
  }

  // ------------------------------------------------------------------ exactly when it verifies

  /** Attempt `i` sees the expected effect. */
  predicate Hit(before: Surface, polls: seq<Probe>, fp: Option<Fingerprint>, i: nat) {
    At(polls, i).Seen? && HasExpectedEffect(before, At(polls, i).surface, fp) == Some(true)
  }

  /** Attempt `i` ends the polling, whatever the budget. */
  predicate Ends(before: Surface, polls: seq<Probe>, fp: Option<Fingerprint>, i: nat) {
    At(polls, i).Broken? || (At(polls, i).Seen? && Stops(Observe(before, At(polls, i).surface, fp), fp))
  }

  function Left(before: Surface, polls: seq<Probe>, fp: Option<Fingerprint>, i: nat): Readback {
    match At(polls, i)
    case Broken => Readback(None, None, true)
    case Seen(after) => Observe(before, after, fp)
    case _ => Unsettled
  }

  /** The polling settles on what ONE attempt left: the first that ends it, or else the very last. */
  lemma {:induction false} SettlesOnOneAttempt(before: Surface, polls: seq<Probe>, fp: Option<Fingerprint>,
                                               i: nat, n: nat, last: Readback) returns (k: nat)
    requires i < n
    ensures i <= k < n
    ensures forall j :: i <= j < k ==> !Ends(before, polls, fp, j)
    ensures Ends(before, polls, fp, k) || k == n - 1
    ensures PollFrom(before, polls, fp, i, n, last) == Left(before, polls, fp, k)
    decreases n - i
  {
    if Ends(before, polls, fp, i) || i == n - 1 {
      k := i;
      if i == n - 1 && !Ends(before, polls, fp, i) {
        assert PollFrom(before, polls, fp, n, n, Left(before, polls, fp, i)) == Left(before, polls, fp, i);
      }
    } else {
      k := SettlesOnOneAttempt(before, polls, fp, i + 1, n, Left(before, polls, fp, i));
    }
  }

  /** Verified exactly when some attempt within the budget matches before any unrecoverable error. */
  lemma VerifiedIff(before: Surface, polls: seq<Probe>, fp: Option<Fingerprint>, attempts: int)
    ensures Verify(Seen(before), polls, fp, attempts).expected == Some(true) <==>
      exists i :: 0 <= i < Attempts(attempts) && Hit(before, polls, fp, i) &&
                  forall j :: 0 <= j < i ==> !At(polls, j).Broken?
  {
    var n := Attempts(attempts);
    var k := SettlesOnOneAttempt(before, polls, fp, 0, n, Unsettled);
    if Hit(before, polls, fp, k) {
      forall j | 0 <= j < k ensures !At(polls, j).Broken? {
        assert !Ends(before, polls, fp, j);
      }
    }
    if i :| 0 <= i < n && Hit(before, polls, fp, i) && forall j :: 0 <= j < i ==> !At(polls, j).Broken? {
      assert fp.Some?;
      assert Ends(before, polls, fp, i);
      if k < i {
        assert Ends(before, polls, fp, k);
        assert !At(polls, k).Broken?;
        assert Hit(before, polls, fp, k);
      }
    }
  }

  /** More attempts never lose a verification. */
  lemma MoreAttemptsStillVerify(before: Probe, polls: seq<Probe>, fp: Option<Fingerprint>, few: int, more: int)
    requires few <= more
    requires Verify(before, polls, fp, few).expected == Some(true)
    ensures Verify(before, polls, fp, more).expected == Some(true)
  {
    VerifiedIff(before.surface, polls, fp, few);
    VerifiedIff(before.surface, polls, fp, more);
  }

  /** Proven missing: a usable fingerprint, no match and no unrecoverable error in the whole budget, and a
      surface in hand at the LAST attempt. */
  lemma ProvenMissingIff(before: Surface, polls: seq<Probe>, fp: Option<Fingerprint>, attempts: int)
    ensures Verify(Seen(before), polls, fp, attempts).expected == Some(false) <==>
      && (forall i :: 0 <= i < Attempts(attempts) ==> !Hit(before, polls, fp, i) && !At(polls, i).Broken?)
      && At(polls, Attempts(attempts) - 1).Seen?
      && HasExpectedEffect(before, before, fp).Some?
  {
    var n := Attempts(attempts);
    var k := SettlesOnOneAttempt(before, polls, fp, 0, n, Unsettled);
    var r := Verify(Seen(before), polls, fp, attempts);
    assert r == Left(before, polls, fp, k);
    if r.expected == Some(false) {
      assert fp.Some? && !Ends(before, polls, fp, k);
      assert k == n - 1;
      forall i | 0 <= i < n ensures !Hit(before, polls, fp, i) && !At(polls, i).Broken? {
        if i < k { assert !Ends(before, polls, fp, i); }
      }
    }
    if (forall i :: 0 <= i < n ==> !Hit(before, polls, fp, i) && !At(polls, i).Broken?)
       && At(polls, n - 1).Seen? && HasExpectedEffect(before, before, fp).Some? {
      assert !Hit(before, polls, fp, k) && !At(polls, k).Broken?;
      assert k == n - 1;
    }
  }

  /** A read that showed the effect absent is forgotten when the attempt after it comes back empty: the
      outcome is unverifiable although one attempt did return a surface. */
  lemma AbsentThenBlipIsUnverifiable()
    ensures var polls := [Seen(map[]), Nothing];
            && At(polls, 0).Seen?
            && Verify(Seen(map[]), polls, Some(map["to" := "a@b.co"]), 2) == Unsettled
            && Verify(Seen(map[]), polls, Some(map["to" := "a@b.co"]), 1).expected == Some(false)
  {
    var polls := [Seen(map[]), Nothing];
    var fp := Some(map["to" := "a@b.co"]);
    assert fp.value["to"][0] == 'a' && fp.value["to"][5] == 'o';
    assert !Blank("a@b.co") by {
      assert Text.StripLeft("a@b.co") == "a@b.co";
      assert Text.StripRight("a@b.co") == "a@b.co";
    }
    assert "to" in fp.value && !Blank(fp.value["to"]);
    assert HasExpectedEffect(map[], map[], fp) == Some(false);
    assert !Stops(Observe(map[], map[], fp), fp);
    assert PollFrom(map[], polls, fp, 2, 2, Unsettled) == Unsettled;
    assert PollFrom(map[], polls, fp, 1, 2, Observe(map[], map[], fp)) == Unsettled;
  }

  /** Unverifiable without a broken tool: nobody matched, nothing broke, and the last attempt was empty-handed
      (or no fingerprint value exists to look for). */
  lemma UnverifiableIff(before: Surface, polls: seq<Probe>, fp: Option<Fingerprint>, attempts: int)
    requires HasExpectedEffect(before, before, fp).Some?
    ensures Verify(Seen(before), polls, fp, attempts) == Unsettled <==>
      && (forall i :: 0 <= i < Attempts(attempts) ==> !Hit(before, polls, fp, i) && !At(polls, i).Broken?)
      && !At(polls, Attempts(attempts) - 1).Seen?
  {
    var n := Attempts(attempts);
    var k := SettlesOnOneAttempt(before, polls, fp, 0, n, Unsettled);
    var r := Verify(Seen(before), polls, fp, attempts);
    assert r == Left(before, polls, fp, k);
    if r == Unsettled {
      assert !Ends(before, polls, fp, k);
      assert k == n - 1;
      forall i | 0 <= i < n ensures !Hit(before, polls, fp, i) && !At(polls, i).Broken? {
        if i < k { assert !Ends(before, polls, fp, i); }
      }
    }
    if (forall i :: 0 <= i < n ==> !Hit(before, polls, fp, i) && !At(polls, i).Broken?)
              && !At(polls, n - 1).Seen? {
      assert !Hit(before, polls, fp, k) && !At(polls, k).Broken?;
      assert k == n - 1;
    }
  }

  /** The record says the tool is broken exactly when the baseline or an attempt met an unrecoverable error before
      anything ended the polling. */
  lemma BrokenIff(before: Probe, polls: seq<Probe>, fp: Option<Fingerprint>, attempts: int)
    ensures Verify(before, polls, fp, attempts).broken <==>
      || before.Broken?
      || (before.Seen? && exists i :: 0 <= i < Attempts(attempts) && At(polls, i).Broken?
                                      && forall j :: 0 <= j < i ==> !Ends(before.surface, polls, fp, j))
  {
    if before.Seen? {
      var b, n := before.surface, Attempts(attempts);
      var k := SettlesOnOneAttempt(b, polls, fp, 0, n, Unsettled);
      if i :| 0 <= i < n && At(polls, i).Broken? && forall j :: 0 <= j < i ==> !Ends(b, polls, fp, j) {
        assert Ends(b, polls, fp, i);
        assert i == k;
      }
    }
  }

  /** Without a fingerprint, drift is reported exactly when some attempt, before any unrecoverable error, saw a surface
      other than the baseline. */
  lemma DriftIff(before: Surface, polls: seq<Probe>, attempts: int)
    ensures Verify(Seen(before), polls, None, attempts).drift == Some(true) <==>
      exists i :: 0 <= i < Attempts(attempts) && At(polls, i).Seen? && At(polls, i).surface != before
                  && forall j :: 0 <= j < i ==> !At(polls, j).Broken?
  {
    var n := Attempts(attempts);
    var k := SettlesOnOneAttempt(before, polls, None, 0, n, Unsettled);
    forall i | 0 <= i < n && At(polls, i).Seen?
      ensures Ends(before, polls, None, i) <==> At(polls, i).surface != before
    {
      HasEffectIffDifferent(before, At(polls, i).surface);
    }
    forall j | 0 <= j < k ensures !At(polls, j).Broken? {
      assert !Ends(before, polls, None, j);
    }
    if i :| 0 <= i < n && At(polls, i).Seen? && At(polls, i).surface != before
            && forall j :: 0 <= j < i ==> !At(polls, j).Broken? {
      assert Ends(before, polls, None, i);
      assert k <= i && Ends(before, polls, None, k) && !At(polls, k).Broken?;
    }
  }
}
