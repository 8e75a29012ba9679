/** The offline backend (flowers/seams/integrations.py): what it stores, what its read-back hides and for how
    long, and what that makes of the broker's verification. */
module Integrations {
  import opened Types
  import opened Text
  import opened ReadBack
  import opened ReadbackPoll
  import opened Mandate
  import opened BrokerModel

  // ------------------------------------------------------------------ the backend

  type ActionKey = (string, string)

  datatype ActionKind = ReadAction | WriteAction

  function KeyFor(c: Call): ActionKey {
    (Lower(c.toolkit), Upper(c.action))
  }

  /** What a backend is constructed with: its action table and its injected faults. */
  datatype Backend = Backend(
    actions: map<ActionKey, (ActionKind, string)>,
    idBound: set<ActionKey>,
    unverifiable: set<ActionKey>,
    drop: set<ActionKey>,
    noReadback: set<string>,
    flaky: set<ActionKey>,
    lag: map<ActionKey, int>)

  /** One user's items by resource, the polls each item is still hidden for, and the mutable faults. */
  datatype Provider = Provider(
    surfaces: map<string, Surface>,
    hidden: map<string, nat>,
    counter: nat,
    probes: map<ActionKey, nat>,
    broken: set<ActionKey>,
    unauthorized: set<string>)

  function SurfaceOf(w: Provider, resource: string): Surface {
    if resource in w.surfaces then w.surfaces[resource] else map[]
  }

  function HideOf(hidden: map<string, nat>, item: string): nat {
    Get(hidden, item)
  }

  function Digits(n: nat): string {
    (if n < 10 then "" else Digits(n / 10)) + [('0' as int + n % 10) as char]
  }

  /** The record id the caller names, when it names one. */
  function RecordId(p: Params): string {
    if "email_id" in p && p["email_id"] != "" then p["email_id"]
    else if "message_id" in p && p["message_id"] != "" then p["message_id"]
    else if "id" in p then p["id"] else ""
  }

  function ItemKey(w: Provider, c: Call): string {
    if RecordId(c.params) != "" then RecordId(c.params) else "item_" + Digits(w.counter + 1)
  }

  function ItemFor(c: Call): Item {
    if RecordId(c.params) != "" && "id" !in c.params then c.params["id" := RecordId(c.params)] else c.params
  }

  function LagOf(be: Backend, c: Call): nat {
    if KeyFor(c) in be.lag && be.lag[KeyFor(c)] > 0 then be.lag[KeyFor(c)] else 0
  }

  function Land(be: Backend, w: Provider, c: Call, resource: string): Provider {
    var key := ItemKey(w, c);
    w.(surfaces := w.surfaces[resource := SurfaceOf(w, resource)[key := ItemFor(c)]],
       hidden := if LagOf(be, c) > 0 then w.hidden[key := LagOf(be, c)] else w.hidden,
       counter := if RecordId(c.params) != "" then w.counter else w.counter + 1)
  }

  /** What a created-record id is worth to the caller: nothing unless the action binds it. */
  function CreatedKey(be: Backend, c: Call, id: string): Option<string> {
    if KeyFor(c) in be.idBound then Some(id) else None
  }

  function Perform(be: Backend, w: Provider, c: Call): (Provider, Execution) {
    var key := KeyFor(c);
    if Lower(c.toolkit) in w.unauthorized then (w, Rejected(true, true))
    else if key !in be.actions then (w, Rejected(false, false))
    else if be.actions[key].0.ReadAction? then (w, Accepted(CreatedKey(be, c, ""), ""))
    else if key in be.drop then (w, Accepted(CreatedKey(be, c, ""), ""))
    else (Land(be, w, c, be.actions[key].1), Accepted(CreatedKey(be, c, ItemKey(w, c)), ""))
  }

  function Visible(surface: Surface, hidden: map<string, nat>): Surface {
    map k | k in surface && HideOf(hidden, k) == 0 :: surface[k]
  }

  /** Every hidden item of the surface that was looked at comes one look closer. */
  function Aged(surface: Surface, hidden: map<string, nat>): map<string, nat> {
    map k | k in hidden :: if k in surface && hidden[k] > 0 then hidden[k] - 1 else hidden[k]
  }

  predicate HasReadback(be: Backend, c: Call) {
    Lower(c.toolkit) !in be.noReadback && KeyFor(c) !in be.unverifiable && KeyFor(c) in be.actions
  }

  function Snapshot(be: Backend, w: Provider, c: Call): (Provider, Option<Surface>) {
    if !HasReadback(be, c) then (w, None)
    else
      var surface := SurfaceOf(w, be.actions[KeyFor(c)].1);
      (w.(hidden := Aged(surface, w.hidden)), Some(Visible(surface, w.hidden)))
  }

  function ProbesOf(w: Provider, key: ActionKey): nat {
    Get(w.probes, key)
  }

  /** The read-back as the verification sees it: a broken tool, a blip after the first look, or a surface. */
  function Probed(be: Backend, w: Provider, c: Call): (Provider, Probe) {
    var key := KeyFor(c);
    if key in w.broken then (w, Broken)
    else
      var w1 := if key in be.flaky then w.(probes := w.probes[key := ProbesOf(w, key) + 1]) else w;
      if key in be.flaky && ProbesOf(w1, key) > 1 then (w1, Flaky)
      else
        var (w2, s) := Snapshot(be, w1, c);
        (w2, if s.Some? then Seen(s.value) else Nothing)
  }

  /** The countdowns and the visible items once the items in `done` were looked at. */
  function AgedOver(done: set<string>, hidden: map<string, nat>): map<string, nat> {
    map k | k in hidden :: if k in done && hidden[k] > 0 then hidden[k] - 1 else hidden[k]
  }

  function VisibleOver(done: set<string>, surface: Surface, hidden: map<string, nat>): Surface {
    map k | k in surface && k in done && HideOf(hidden, k) == 0 :: surface[k]
  }

  lemma LookAtOne(done: set<string>, k: string, surface: Surface, hidden: map<string, nat>)
    requires k in surface && k !in done
    ensures HideOf(AgedOver(done, hidden), k) == HideOf(hidden, k)
    ensures AgedOver(done + {k}, hidden) ==
      if HideOf(hidden, k) > 0 then AgedOver(done, hidden)[k := HideOf(hidden, k) - 1] else AgedOver(done, hidden)
    ensures VisibleOver(done + {k}, surface, hidden) ==
      if HideOf(hidden, k) > 0 then VisibleOver(done, surface, hidden)
      else VisibleOver(done, surface, hidden)[k := surface[k]]
  {
  }

  lemma AllLookedAt(surface: Surface, hidden: map<string, nat>)
    ensures AgedOver(surface.Keys, hidden) == Aged(surface, hidden)
    ensures VisibleOver(surface.Keys, surface, hidden) == Visible(surface, hidden)
  {
  }

  class FakeIntegrations {
    const be: Backend
    var surfaces: map<string, Surface>
    var lagHide: map<string, nat>
    var counter: nat
    var probeCalls: map<ActionKey, nat>
    var readbackErrors: set<ActionKey>
    var unauthorized: set<string>

    ghost function Abstract(): Provider
      reads this
    {
      Provider(surfaces, lagHide, counter, probeCalls, readbackErrors, unauthorized)
    }

    constructor (be: Backend, readbackErrors: set<ActionKey>, unauthorized: set<string>)
      ensures this.be == be
      ensures Abstract() == Provider(map[], map[], 0, map[], readbackErrors, unauthorized)
    {
      this.be := be;
      surfaces, lagHide, counter, probeCalls := map[], map[], 0, map[];
      this.readbackErrors, this.unauthorized := readbackErrors, unauthorized;
    }

    method NextId() returns (id: string)
      modifies this`counter
      ensures counter == old(counter) + 1 && id == "item_" + Digits(counter)
    {
      counter := counter + 1;
      id := "item_" + Digits(counter);
    }

    method ExecuteAction(c: Call) returns (x: Execution)
      modifies this
      ensures (Abstract(), x) == Perform(be, old(Abstract()), c)
    {
      var key := KeyFor(c);
      if Lower(c.toolkit) in unauthorized { return Rejected(true, true); }
      if key !in be.actions { return Rejected(false, false); }
      var (kind, resource) := be.actions[key];
      if kind.ReadAction? || key in be.drop { return Accepted(CreatedKey(be, c, ""), ""); }
      var fields := c.params;
      var id := RecordId(c.params);
      if id != "" {
        if "id" !in fields { fields := fields["id" := id]; }
      } else {
        id := NextId();
      }
      var surface := if resource in surfaces then surfaces[resource] else map[];
      surfaces := surfaces[resource := surface[id := fields]];
      if key in be.lag && be.lag[key] > 0 {
        lagHide := lagHide[id := be.lag[key]];
      }
      return Accepted(CreatedKey(be, c, id), "");
    }

    /** Look at one item: show it, or bring it one look closer. */
    method LookAtItem(surface: Surface, k: string, visible: Surface, ghost done: set<string>,
                      ghost was: map<string, nat>)
      returns (shown: Surface)
      requires k in surface && k !in done
      requires lagHide == AgedOver(done, was) && visible == VisibleOver(done, surface, was)
      modifies this`lagHide
      ensures lagHide == AgedOver(done + {k}, was) && shown == VisibleOver(done + {k}, surface, was)
    {
      LookAtOne(done, k, surface, was);
      var n := HideOf(lagHide, k);
      shown := visible;
      if n > 0 {
        lagHide := lagHide[k := n - 1];
      } else {
        shown := visible[k := surface[k]];
      }
    }

    /** Walk the surface, in any order. */
    method WalkSurface(surface: Surface) returns (visible: Surface)
      modifies this`lagHide
      ensures visible == Visible(surface, old(lagHide)) && lagHide == Aged(surface, old(lagHide))
    {
      var todo := surface.Keys;
      visible := map[];
      ghost var was, done := lagHide, {};
      assert AgedOver({}, was) == was && VisibleOver({}, surface, was) == map[];
      while todo != {}
        invariant done + todo == surface.Keys && done !! todo
        invariant lagHide == AgedOver(done, was) && visible == VisibleOver(done, surface, was)
        decreases |todo|
      {
        var k :| k in todo;
        visible := LookAtItem(surface, k, visible, done, was);
        todo, done := todo - {k}, done + {k};
      }
      AllLookedAt(surface, was);
    }

    method TakeSnapshot(c: Call) returns (seen: Option<Surface>)
      modifies this`lagHide
      ensures (Abstract(), seen) == Snapshot(be, old(Abstract()), c)
    {
      if !HasReadback(be, c) { return None; }
      var resource := be.actions[KeyFor(c)].1;
      var visible := WalkSurface(if resource in surfaces then surfaces[resource] else map[]);
      return Some(visible);
    }

    method SnapshotProbe(c: Call) returns (p: Probe)
      modifies this`lagHide, this`probeCalls
      ensures (Abstract(), p) == Probed(be, old(Abstract()), c)
    {
      var key := KeyFor(c);
      if key in readbackErrors { return Broken; }
      if key in be.flaky {
        probeCalls := probeCalls[key := (if key in probeCalls then probeCalls[key] else 0) + 1];
        if probeCalls[key] > 1 { return Flaky; }
      }
      var s := TakeSnapshot(c);
      p := if s.Some? then Seen(s.value) else Nothing;
    }
  }

  // ------------------------------------------------------------------ polling it

  /** The next n looks. */
  function Polls(be: Backend, w: Provider, c: Call, n: nat): seq<Probe>
    decreases n
  {
    if n == 0 then []
    else var (w1, p) := Probed(be, w, c); [p] + Polls(be, w1, c, n - 1)
  }

  /** No read-back fault touches this action. */
  predicate Healthy(be: Backend, w: Provider, c: Call) {
    HasReadback(be, c) && KeyFor(c) !in w.broken && KeyFor(c) !in be.flaky
  }

  function Watched(be: Backend, w: Provider, c: Call): Surface
    requires HasReadback(be, c)
  {
    SurfaceOf(w, be.actions[KeyFor(c)].1)
  }

  /** Look number i shows exactly the items hidden for at most i looks. */
  function After(surface: Surface, hidden: map<string, nat>, i: nat): Surface {
    map k | k in surface && HideOf(hidden, k) <= i :: surface[k]
  }

  lemma {:induction false} PollShows(be: Backend, w: Provider, c: Call, n: nat, i: nat)
    requires Healthy(be, w, c) && i < n
    ensures |Polls(be, w, c, n)| == n
    ensures Polls(be, w, c, n)[i] == Seen(After(Watched(be, w, c), w.hidden, i))
    decreases n
  {
    var surface := Watched(be, w, c);
    var w1 := Probed(be, w, c).0;
    assert Watched(be, w1, c) == surface;
    if n > 1 {
      PollShows(be, w1, c, n - 1, if i > 0 then i - 1 else 0);
    }
    if i > 0 {
      assert After(surface, w1.hidden, i - 1) == After(surface, w.hidden, i);
    } else {
      assert Visible(surface, w.hidden) == After(surface, w.hidden, 0);
    }
  }

  /** An item that carries the whole fingerprint. */
  predicate Carries(fp: Fingerprint, key: string, item: Item) {
    (forall v | v in IdValues(fp) :: v == ItemId(key, item)) && ItemMatches(item, TextValues(fp))
  }

  /** Against any state of the backend: verified exactly when some item the baseline did not show carries the
      fingerprint and comes out of hiding within the attempts; otherwise proven missing. */
  lemma VerifiedAgainstBackendIff(be: Backend, w: Provider, c: Call, before: Surface, fp: Option<Fingerprint>,
                                  attempts: int)
    requires Healthy(be, w, c) && HasExpectedEffect(before, before, fp).Some?
    ensures var n := Attempts(attempts);
            var surface := Watched(be, w, c);
            Verify(Seen(before), Polls(be, w, c, n), fp, attempts).expected ==
              Some(exists k :: k in surface && k !in before && HideOf(w.hidden, k) < n
                               && Carries(fp.value, k, surface[k]))
  {
    var n, surface := Attempts(attempts), Watched(be, w, c);
    var polls := Polls(be, w, c, n);
    forall i | 0 <= i < n
      ensures At(polls, i) == Seen(After(surface, w.hidden, i))
      ensures Hit(before, polls, fp, i) <==>
        exists k :: k in surface && k !in before && HideOf(w.hidden, k) <= i && Carries(fp.value, k, surface[k])
    {
      PollShows(be, w, c, n, i);
      HitMeans(before, polls, fp, i, surface, w.hidden);
    }
    VerifiedIff(before, polls, fp, attempts);
    ProvenMissingIff(before, polls, fp, attempts);
    if k :| k in surface && k !in before && HideOf(w.hidden, k) < n && Carries(fp.value, k, surface[k]) {
      assert Hit(before, polls, fp, HideOf(w.hidden, k));
    }
  }

  lemma HitMeans(before: Surface, polls: seq<Probe>, fp: Option<Fingerprint>, i: nat, surface: Surface,
                 hidden: map<string, nat>)
    requires At(polls, i) == Seen(After(surface, hidden, i)) && HasExpectedEffect(before, before, fp).Some?
    ensures Hit(before, polls, fp, i) <==>
      exists k :: k in surface && k !in before && HideOf(hidden, k) <= i && Carries(fp.value, k, surface[k])
  {
    var after := After(surface, hidden, i);
    forall k ensures Witness(before, after, fp.value, k) <==>
      (k in surface && k !in before && HideOf(hidden, k) <= i && Carries(fp.value, k, surface[k]))
    {
    }
    if k :| k in surface && k !in before && HideOf(hidden, k) <= i && Carries(fp.value, k, surface[k]) {
      assert k in after && Witness(before, after, fp.value, k);
    }
  }

  /** A fingerprint made of the call's own fields, record ids aside, is carried by the item the call stores. */
  lemma OwnItemCarries(fp: Fingerprint, key: string, item: Item)
    requires forall f :: f in fp ==> f !in ID_FIELDS && f in item && item[f] == fp[f]
    ensures Carries(fp, key, item)
  {
  }

  /** On a toolkit that is not connected any call asks to connect it and changes nothing; once connected, a known write
      that is not dropped is stored under its key, and a read or a dropped write stores nothing. */
  lemma WhatACallStores(be: Backend, w: Provider, c: Call)
    ensures Lower(c.toolkit) in w.unauthorized ==> Perform(be, w, c) == (w, Rejected(true, true))
    ensures var there := Acted(be, w, Connects(c.toolkit)); var (v, x) := Perform(be, there, c);
            && (KeyFor(c) !in be.actions ==> !x.Accepted? && v == there)
            && (KeyFor(c) in be.actions ==>
                  var (kind, resource) := be.actions[KeyFor(c)];
                  && x.Accepted?
                  && if kind.WriteAction? && KeyFor(c) !in be.drop
                     then ItemKey(there, c) in SurfaceOf(v, resource)
                          && SurfaceOf(v, resource)[ItemKey(there, c)] == ItemFor(c)
                     else v == there)
  {
  }

  /** A non-blank value the caller gave for this parameter. */
  predicate Gives(p: Params, name: string) {
    name in p && p[name] != ""
  }

  /** The item is stored under the record id the caller gives, the mail's before the message's before the plain one,
      and bears it; without one, under the next number. A binding action answers with that very key, and with a blank
      one when the write was dropped; any other action answers with none. */
  lemma ItemBearsItsId(be: Backend, w: Provider, c: Call)
    requires Lower(c.toolkit) !in w.unauthorized && KeyFor(c) in be.actions && be.actions[KeyFor(c)].0.WriteAction?
    ensures var (v, x) := Perform(be, w, c); var p, stored := c.params, SurfaceOf(v, be.actions[KeyFor(c)].1);
            var (key, item) :=
              if Gives(p, "email_id") then (p["email_id"], if "id" in p then p else p["id" := p["email_id"]])
              else if Gives(p, "message_id") then (p["message_id"], if "id" in p then p else p["id" := p["message_id"]])
              else if Gives(p, "id") then (p["id"], p)
              else ("item_" + Digits(w.counter + 1), p);
            var dropped := KeyFor(c) in be.drop;
            && x.Accepted? && (x.created.Some? <==> KeyFor(c) in be.idBound)
            && (!dropped ==> key in stored && stored[key] == item && (x.created.Some? ==> x.created.value == key))
            && (dropped ==> v == w && (x.created.Some? ==> x.created.value == ""))
  {
  }

  // ------------------------------------------------------------------ a send from start to verdict

  /** The write goes through: connected, known, a write, and not dropped. */
  predicate Lands(be: Backend, w: Provider, c: Call) {
    && Lower(c.toolkit) !in w.unauthorized && KeyFor(c) in be.actions
    && be.actions[KeyFor(c)].0.WriteAction? && KeyFor(c) !in be.drop
  }

  /** No earlier item is still waiting to appear. */
  predicate SettledDown(w: Provider) {
    forall k :: k in w.hidden ==> w.hidden[k] == 0
  }

  /** Baseline, execute, poll: what the verification of one call comes to. */
  function Verdict(be: Backend, w: Provider, c: Call, fp: Option<Fingerprint>, attempts: int): Readback {
    var (w1, before) := Probed(be, w, c);
    var (w2, x) := Perform(be, w1, c);
    Verify(before, Polls(be, w2, c, Attempts(attempts)), fp, attempts)
  }

  lemma ShownBefore(be: Backend, w: Provider, c: Call)
    requires Healthy(be, w, c) && SettledDown(w)
    ensures Probed(be, w, c) == (w, Seen(Watched(be, w, c)))
  {
    var surface := Watched(be, w, c);
    assert Visible(surface, w.hidden) == surface;
    assert Aged(surface, w.hidden) == w.hidden;
  }

  /** A new item that carries the fingerprint verifies exactly when there are more attempts than lag; with fewer
      the send that did land is reported proven missing. */
  lemma LandedSendVerifiesIff(be: Backend, w: Provider, c: Call, fp: Option<Fingerprint>, attempts: int)
    requires Healthy(be, w, c) && Lands(be, w, c) && SettledDown(w)
    requires ItemKey(w, c) !in Watched(be, w, c)
    requires HasExpectedEffect(map[], map[], fp).Some? && Carries(fp.value, ItemKey(w, c), ItemFor(c))
    ensures Verdict(be, w, c, fp, attempts).expected == Some(Attempts(attempts) > LagOf(be, c))
  {
    var surface := Watched(be, w, c);
    ShownBefore(be, w, c);
    var w2 := Perform(be, w, c).0;
    var key := ItemKey(w, c);
    assert Watched(be, w2, c) == surface[key := ItemFor(c)];
    VerifiedAgainstBackendIff(be, w2, c, surface, fp, attempts);
    assert HideOf(w2.hidden, key) == LagOf(be, c);
    if Attempts(attempts) > LagOf(be, c) {
      assert key in Watched(be, w2, c) && key !in surface && HideOf(w2.hidden, key) < Attempts(attempts);
    }
  }

  /** A dropped write over a settled backend is always proven missing, whoever else writes its surface. */
  lemma SettledDropIsProvenMissing(be: Backend, w: Provider, c: Call, fp: Option<Fingerprint>, attempts: int)
    requires Healthy(be, w, c) && KeyFor(c) in be.drop && SettledDown(w)
    requires HasExpectedEffect(map[], map[], fp).Some?
    ensures Verdict(be, w, c, fp, attempts).expected == Some(false)
  {
    ShownBefore(be, w, c);
    VerifiedAgainstBackendIff(be, w, c, Watched(be, w, c), fp, attempts);
  }

  /** A late arrival verifies a write that was dropped: the added item need not be the one this call made. It takes
      an action table in which something else writes the same surface, for a dropped action adds nothing to it. */
  lemma LateItemVerifiesADroppedSend(be: Backend, w: Provider, c: Call, fp: Option<Fingerprint>, attempts: int,
                                     late: string)
    requires Healthy(be, w, c) && KeyFor(c) in be.drop
    requires HasExpectedEffect(map[], map[], fp).Some?
    requires late in Watched(be, w, c) && Carries(fp.value, late, Watched(be, w, c)[late])
    requires 0 < HideOf(w.hidden, late) <= Attempts(attempts)
    ensures Verdict(be, w, c, fp, attempts).expected == Some(true)
    ensures Perform(be, w, c).0 == w
  {
    var surface := Watched(be, w, c);
    var before := Visible(surface, w.hidden);
    var w1 := Probed(be, w, c).0;
    assert Probed(be, w, c).1 == Seen(before);
    assert Watched(be, w1, c) == surface;
    VerifiedAgainstBackendIff(be, w1, c, before, fp, attempts);
    assert late !in before && HideOf(w1.hidden, late) < Attempts(attempts);
  }

  /** No attempt of the call's verification shows the item it stored itself. */
  predicate OwnItemStaysHidden(be: Backend, w: Provider, c: Call, attempts: int)
    requires HasReadback(be, c)
  {
    var v := Perform(be, Probed(be, w, c).0, c).0;
    forall i :: 0 <= i < Attempts(attempts) ==> ItemKey(w, c) !in After(Watched(be, v, c), v.hidden, i)
  }

  /** The same happens to a write that landed: an earlier item of the same content, just coming out of hiding,
      verifies it while its own item stays hidden through every attempt. */
  lemma LateItemVerifiesALandedSend(be: Backend, w: Provider, c: Call, fp: Option<Fingerprint>, attempts: int,
                                    late: string)
    requires Healthy(be, w, c) && Lands(be, w, c) && LagOf(be, c) >= Attempts(attempts)
    requires HasExpectedEffect(map[], map[], fp).Some?
    requires late in Watched(be, w, c) && late != ItemKey(w, c) && Carries(fp.value, late, Watched(be, w, c)[late])
    requires 0 < HideOf(w.hidden, late) <= Attempts(attempts)
    ensures Verdict(be, w, c, fp, attempts).expected == Some(true)
    ensures OwnItemStaysHidden(be, w, c, attempts)
  {
    var surface := Watched(be, w, c);
    var before := Visible(surface, w.hidden);
    var w1 := Probed(be, w, c).0;
    assert Probed(be, w, c).1 == Seen(before);
    assert Watched(be, w1, c) == surface && ItemKey(w1, c) == ItemKey(w, c);
    var w2 := Perform(be, w1, c).0;
    assert Watched(be, w2, c) == surface[ItemKey(w, c) := ItemFor(c)];
    VerifiedAgainstBackendIff(be, w2, c, before, fp, attempts);
    assert late !in before && late in Watched(be, w2, c) && HideOf(w2.hidden, late) < Attempts(attempts);
  }

  // ------------------------------------------------------------------ the surface of a dropped action

  /** What can happen to a provider: calls and looks of any action, inbound mail, a repaired read-back tool, a
      completed connect. */
  datatype Act = Executes(call: Call) | Probes(call: Call) | Snapshots(call: Call) | Arrives(item: Item)
               | Heals(keys: set<ActionKey>) | Connects(toolkit: string)

  function Acted(be: Backend, w: Provider, a: Act): Provider {
    match a
    case Executes(c) => Perform(be, w, c).0
    case Probes(c) => Probed(be, w, c).0
    case Snapshots(c) => Snapshot(be, w, c).0
    case Arrives(item) =>
      w.(surfaces := w.surfaces["inbox" := SurfaceOf(w, "inbox")["item_" + Digits(w.counter + 1) := item]],
         counter := w.counter + 1)
    case Heals(keys) => w.(broken := w.broken - keys)
    case Connects(toolkit) => w.(unauthorized := w.unauthorized - {Lower(toolkit)})
  }

  /** A provider after a whole history, from empty surfaces. */
  function Lived(be: Backend, broken: set<ActionKey>, unauthorized: set<string>, acts: seq<Act>): Provider {
    if acts == [] then Provider(map[], map[], 0, map[], broken, unauthorized)
    else Acted(be, Lived(be, broken, unauthorized, acts[..|acts| - 1]), acts[|acts| - 1])
  }

  /** Nothing that lands writes this surface. */
  predicate OnlyDropsWrite(be: Backend, resource: string) {
    && resource != "inbox"
    && forall k :: k in be.actions && be.actions[k] == (WriteAction, resource) ==> k in be.drop
  }

  lemma {:induction false} UnwrittenStaysEmpty(be: Backend, broken: set<ActionKey>, unauthorized: set<string>,
                                               acts: seq<Act>, resource: string)
    requires OnlyDropsWrite(be, resource)
    ensures SurfaceOf(Lived(be, broken, unauthorized, acts), resource) == map[]
  {
    if acts != [] { UnwrittenStaysEmpty(be, broken, unauthorized, acts[..|acts| - 1], resource); }
  }

  /** A write that is dropped is proven missing after any history whatever, when nothing that lands writes its
      surface. */
  lemma {:induction false} DroppedSendIsProvenMissing(be: Backend, broken: set<ActionKey>, unauthorized: set<string>,
                                                      acts: seq<Act>, c: Call, fp: Option<Fingerprint>,
                                                      attempts: int)
    requires var w := Lived(be, broken, unauthorized, acts);
             Healthy(be, w, c) && OnlyDropsWrite(be, be.actions[KeyFor(c)].1)
    requires be.actions[KeyFor(c)].0.WriteAction? && KeyFor(c) in be.drop
    requires HasExpectedEffect(map[], map[], fp).Some?
    ensures Verdict(be, Lived(be, broken, unauthorized, acts), c, fp, attempts).expected == Some(false)
  {
    var w := Lived(be, broken, unauthorized, acts);
    UnwrittenStaysEmpty(be, broken, unauthorized, acts, be.actions[KeyFor(c)].1);
    var w1 := Probed(be, w, c).0;
    assert Visible(map[], w.hidden) == map[];
    assert Probed(be, w, c).1 == Seen(map[]);
    assert Perform(be, w1, c).0 == w1 && Watched(be, w1, c) == map[];
    VerifiedAgainstBackendIff(be, w1, c, map[], fp, attempts);
  }

  // ------------------------------------------------------------------ at most once, in the world

  /** The broker's side of that call. */
  function Served(be: Backend, w: Provider, c: Call, attempts: int): World {
    var (w1, before) := Probed(be, w, c);
    var (w2, x) := Perform(be, w1, c);
    World(before, x, Polls(be, w2, c, Attempts(attempts)), false, "")
  }

  /** The record the broker makes of that call. */
  lemma {:induction false} ServedVerifiesIff(be: Backend, w: Provider, cfg: Config, c: Call, id: nat)
    requires Healthy(be, w, c) && Lands(be, w, c) && SettledDown(w) && ItemKey(w, c) !in Watched(be, w, c) && !c.browser
    requires var fp := BindCreated(cfg.fingerprint(c), CreatedKey(be, c, ItemKey(w, c)));
             HasExpectedEffect(map[], map[], fp).Some? && Carries(fp.value, ItemKey(w, c), ItemFor(c))
    ensures var served := Served(be, w, c, cfg.verifyAttempts);
            && served.execution.Accepted?
            && ForwardedEffect(cfg, c, served, id).expected == Some(Attempts(cfg.verifyAttempts) > LagOf(be, c))
  {
    var fp := BindCreated(cfg.fingerprint(c), CreatedKey(be, c, ItemKey(w, c)));
    ShownBefore(be, w, c);
    LandedSendVerifiesIff(be, w, c, fp, cfg.verifyAttempts);
    var served := Served(be, w, c, cfg.verifyAttempts);
    var looks := Looks(c, served.polls);
    assert looks == served.polls by {
      forall i | 0 <= i < |looks| ensures looks[i] == served.polls[i] {}
    }
    assert Look(c, served.before) == served.before;
    assert Verify(served.before, looks, fp, cfg.verifyAttempts) == Verdict(be, w, c, fp, cfg.verifyAttempts);
  }

  /** A granted call whose key is open runs. */
  lemma GrantedOpenCallRuns(cfg: Config, s: State, grants: set<GrantKey>, c: Call, w: World, id: nat)
    requires !Floored(cfg, c, w) && KeyOf(c) in grants && KeyOf(c) !in s.forwarded
    ensures var d := Decide(cfg, s, grants, c, w);
            d.Execute? && Handle(cfg, s, grants, c, w, id) == RunCall(cfg, s, c, w, id, d.authority)
    ensures Handle(cfg, s, grants, c, w, id).1.executed
  {
  }

  lemma SideEffectCloses(cfg: Config, s: State, c: Call, w: World, id: nat, authority: Authority)
    requires w.execution.Accepted? && Side(cfg, c) && KeyOf(c) !in s.forwarded
    ensures KeyOf(c) in RunCall(cfg, s, c, w, id, authority).0.forwarded <==>
      ForwardedEffect(cfg, c, w, id).expected != Some(false)
  {
  }

  /** A granted send that lands is closed to a repetition exactly when the attempts outlast the lag. When they do
      not, the same granted request executes again, whatever the world. */
  lemma {:induction false} RepetitionIsReplayedIff(be: Backend, w: Provider, cfg: Config, s: State,
                                                   grants: set<GrantKey>, c: Call, id: nat, again: World)
    requires Healthy(be, w, c) && Lands(be, w, c) && SettledDown(w) && ItemKey(w, c) !in Watched(be, w, c)
    requires !c.browser && Side(cfg, c) && !cfg.rules.refused(c.toolkit, c.action)
    requires KeyOf(c) in grants && KeyOf(c) !in s.forwarded
    requires var fp := BindCreated(cfg.fingerprint(c), CreatedKey(be, c, ItemKey(w, c)));
             HasExpectedEffect(map[], map[], fp).Some? && Carries(fp.value, ItemKey(w, c), ItemFor(c))
    ensures var (t, r) := Handle(cfg, s, grants, c, Served(be, w, c, cfg.verifyAttempts), id);
            && r.executed
            && (Decide(cfg, t, grants, c, again) == Replay <==> Attempts(cfg.verifyAttempts) > LagOf(be, c))
            && (Decide(cfg, t, grants, c, again) != Replay ==> Handle(cfg, t, grants, c, again, id + 1).1.executed)
  {
    ServedVerifiesIff(be, w, cfg, c, id);
    var served := Served(be, w, c, cfg.verifyAttempts);
    GrantedOpenCallRuns(cfg, s, grants, c, served, id);
    var authority := Decide(cfg, s, grants, c, served).authority;
    SideEffectCloses(cfg, s, c, served, id, authority);
    var t := Handle(cfg, s, grants, c, served, id).0;
    if KeyOf(c) !in t.forwarded { GrantedOpenCallRuns(cfg, t, grants, c, again, id + 1); }
  }

  // ------------------------------------------------------------------ twice, in the world

  /** The provider after the next n looks. */
  function AfterLooks(be: Backend, w: Provider, c: Call, n: nat): Provider
    decreases n
  {
    if n == 0 then w else AfterLooks(be, Probed(be, w, c).0, c, n - 1)
  }

  /** The provider once a call was served with all its attempts used. */
  function AfterServing(be: Backend, w: Provider, c: Call, attempts: int): Provider {
    AfterLooks(be, Perform(be, Probed(be, w, c).0, c).0, c, Attempts(attempts))
  }

  lemma {:induction false} LooksOnlyAge(be: Backend, w: Provider, c: Call, n: nat)
    ensures var v := AfterLooks(be, w, c, n);
            && v.surfaces == w.surfaces && v.counter == w.counter
            && v.unauthorized == w.unauthorized && v.broken == w.broken
    decreases n
  {
    if n > 0 { LooksOnlyAge(be, Probed(be, w, c).0, c, n - 1); }
  }

  /** The number an item name spells. */
  function Spelled(s: string): int {
    if s == "" then 0 else Spelled(s[..|s| - 1]) * 10 + (s[|s| - 1] as int - '0' as int)
  }

  lemma {:induction false} DigitsSpell(n: nat)
    ensures Spelled(Digits(n)) == n
    decreases n
  {
    var front := if n < 10 then "" else Digits(n / 10);
    assert Digits(n)[..|Digits(n)| - 1] == front;
    if n >= 10 { DigitsSpell(n / 10); }
  }

  lemma NewNumbersAreNewNames(m: nat, n: nat)
    requires m != n
    ensures "item_" + Digits(m) != "item_" + Digits(n)
  {
    DigitsSpell(m);
    DigitsSpell(n);
    assert ("item_" + Digits(m))[5..] == Digits(m) && ("item_" + Digits(n))[5..] == Digits(n);
  }

  lemma StoresAnother(be: Backend, w: Provider, c: Call)
    requires Lands(be, w, c) && HasReadback(be, c) && RecordId(c.params) == ""
    ensures var v := Perform(be, w, c).0; var key := ItemKey(w, c);
            && v.counter == w.counter + 1 && v.unauthorized == w.unauthorized
            && Watched(be, v, c) == Watched(be, w, c)[key := c.params]
  {
  }

  /** When the lag outlasts the attempts, a granted send without a record id that is asked for twice lands twice:
      both calls reach the provider, and its surface then holds two items with the very same content. */
  lemma ImpatientRepetitionLandsTwice(be: Backend, w: Provider, cfg: Config, s: State, grants: set<GrantKey>, c: Call,
                                      id: nat)
    requires Healthy(be, w, c) && Lands(be, w, c) && SettledDown(w) && ItemKey(w, c) !in Watched(be, w, c)
    requires !c.browser && Side(cfg, c) && !cfg.rules.refused(c.toolkit, c.action) && RecordId(c.params) == ""
    requires KeyOf(c) in grants && KeyOf(c) !in s.forwarded
    requires var fp := BindCreated(cfg.fingerprint(c), CreatedKey(be, c, ItemKey(w, c)));
             HasExpectedEffect(map[], map[], fp).Some? && Carries(fp.value, ItemKey(w, c), ItemFor(c))
    requires Attempts(cfg.verifyAttempts) <= LagOf(be, c)
    ensures var (t, r) := Handle(cfg, s, grants, c, Served(be, w, c, cfg.verifyAttempts), id);
            var w1 := AfterServing(be, w, c, cfg.verifyAttempts);
            var again := Handle(cfg, t, grants, c, Served(be, w1, c, cfg.verifyAttempts), id + 1).1;
            var w2 := AfterServing(be, w1, c, cfg.verifyAttempts);
            && r.executed && again.executed
            && exists k, l :: k != l && k in Watched(be, w2, c) && l in Watched(be, w2, c)
                 && Watched(be, w2, c)[k] == Watched(be, w2, c)[l] == c.params
                 && k !in Watched(be, w, c)
  {
    var attempts := cfg.verifyAttempts;
    var w1 := AfterServing(be, w, c, attempts);
    RepetitionIsReplayedIff(be, w, cfg, s, grants, c, id, Served(be, w1, c, attempts));
    TwoCopies(be, w, c, attempts);
  }

  lemma TwoCopies(be: Backend, w: Provider, c: Call, attempts: int)
    requires HasReadback(be, c) && Lands(be, w, c) && RecordId(c.params) == "" && ItemKey(w, c) !in Watched(be, w, c)
    ensures var w2 := AfterServing(be, AfterServing(be, w, c, attempts), c, attempts);
            exists k, l :: k != l && k in Watched(be, w2, c) && l in Watched(be, w2, c)
              && Watched(be, w2, c)[k] == Watched(be, w2, c)[l] == c.params && k !in Watched(be, w, c)
  {
    var first := ServingStores(be, w, c, attempts);
    var w1 := AfterServing(be, w, c, attempts);
    var second := ServingStores(be, w1, c, attempts);
    NewNumbersAreNewNames(w.counter + 1, w1.counter + 1);
    assert first == "item_" + Digits(w.counter + 1) && second == "item_" + Digits(w1.counter + 1);
    var end := Watched(be, AfterServing(be, w1, c, attempts), c);
    assert first != second && first in end && second in end && end[first] == end[second] == c.params;
  }

  lemma ServingStores(be: Backend, w: Provider, c: Call, attempts: int) returns (key: string)
    requires HasReadback(be, c) && Lands(be, w, c) && RecordId(c.params) == ""
    ensures var v := AfterServing(be, w, c, attempts);
            && key == ItemKey(w, c) && v.counter == w.counter + 1 && Lands(be, v, c)
            && Watched(be, v, c) == Watched(be, w, c)[key := c.params]
  {
    key := ItemKey(w, c);
    var looked := Probed(be, w, c).0;
    StoresAnother(be, looked, c);
    LooksOnlyAge(be, Perform(be, looked, c).0, c, Attempts(attempts));
  }

  /** The expected fields of an action, as far as the call fills them; none when it fills none. */
  function FingerprintFor(fields: set<string>, c: Call): Option<Fingerprint> {
    var fp := map f | f in c.params && f in fields && c.params[f] != "" :: c.params[f];
    if fp == map[] then None else Some(fp)
  }

  /** For an ordinary send, fingerprinted by its own fields, the item it stores always carries the fingerprint, so
      over a settled provider it verifies exactly when the attempts outlast the lag. */
  lemma OwnSendVerifiesIff(be: Backend, w: Provider, c: Call, fields: set<string>, attempts: int)
    requires Healthy(be, w, c) && Lands(be, w, c) && SettledDown(w)
    requires ItemKey(w, c) !in Watched(be, w, c) && fields !! ID_FIELDS
    requires HasExpectedEffect(map[], map[], FingerprintFor(fields, c)).Some?
    ensures Verdict(be, w, c, FingerprintFor(fields, c), attempts).expected == Some(Attempts(attempts) > LagOf(be, c))
  {
    var fp := FingerprintFor(fields, c);
    OwnItemCarries(fp.value, ItemKey(w, c), ItemFor(c));
    LandedSendVerifiesIff(be, w, c, fp, attempts);
  }

  lemma {:induction false} LooksBringCloser(be: Backend, w: Provider, c: Call, n: nat, k: string)
    requires Healthy(be, w, c) && k in Watched(be, w, c)
    ensures HideOf(AfterLooks(be, w, c, n).hidden, k) == if HideOf(w.hidden, k) > n then HideOf(w.hidden, k) - n else 0
    decreases n
  {
    if n > 0 { LooksBringCloser(be, Probed(be, w, c).0, c, n - 1, k); }
  }

  lemma HiddenAfterServing(be: Backend, w: Provider, c: Call, attempts: int)
    requires Healthy(be, w, c) && Lands(be, w, c) && LagOf(be, c) > Attempts(attempts)
    ensures HideOf(AfterServing(be, w, c, attempts).hidden, ItemKey(w, c)) == LagOf(be, c) - Attempts(attempts)
  {
    var v := Perform(be, Probed(be, w, c).0, c).0;
    assert HideOf(v.hidden, ItemKey(w, c)) == LagOf(be, c);
    LooksBringCloser(be, v, c, Attempts(attempts), ItemKey(w, c));
  }

  /** It needs no more than a repetition. An ordinary send whose lag is longer than its attempts, but at most twice
      as long, is reported missing; sent again, it is verified by the first item, its own still hidden. */
  lemma RepetitionIsVerifiedByTheFirst(be: Backend, w: Provider, c: Call, fields: set<string>, attempts: int)
    requires Healthy(be, w, c) && Lands(be, w, c) && SettledDown(w) && RecordId(c.params) == ""
    requires ItemKey(w, c) !in Watched(be, w, c) && fields !! ID_FIELDS
    requires HasExpectedEffect(map[], map[], FingerprintFor(fields, c)).Some?
    requires Attempts(attempts) < LagOf(be, c) <= 2 * Attempts(attempts)
    ensures var fp := FingerprintFor(fields, c);
            var w1 := AfterServing(be, w, c, attempts);
            && Verdict(be, w, c, fp, attempts).expected == Some(false)
            && Verdict(be, w1, c, fp, attempts).expected == Some(true)
            && OwnItemStaysHidden(be, w1, c, attempts)
  {
    OwnSendVerifiesIff(be, w, c, fields, attempts);
    var first := ServingStores(be, w, c, attempts);
    var w1 := AfterServing(be, w, c, attempts);
    HiddenAfterServing(be, w, c, attempts);
    LooksOnlyAge(be, Perform(be, Probed(be, w, c).0, c).0, c, Attempts(attempts));
    NewNumbersAreNewNames(w.counter + 1, w1.counter + 1);
    var fp := FingerprintFor(fields, c);
    OwnItemCarries(fp.value, first, c.params);
    LateItemVerifiesALandedSend(be, w1, c, fp, attempts, first);
  }
}
