/** Read-back diffing and fingerprint matching (flowers/effects.py). */
module ReadBack {
  import opened Types
  import opened Text

  type Item = map<string, string>
  type Surface = map<string, Item>
  type Fingerprint = map<string, string>

  datatype Diff = Diff(added: set<string>, changed: set<string>, removed: set<string>)

  function SnapshotDiff(before: Surface, after: Surface): Diff {
    Diff(after.Keys - before.Keys,
         (set k | k in before.Keys && k in after.Keys && before[k] != after[k]),
         before.Keys - after.Keys)
  }

  predicate HasEffect(d: Diff) {
    d.added != {} || d.changed != {} || d.removed != {}
  }

  /** Drift is exactly inequality of the two surfaces: no change goes unseen, none is invented. */
  lemma HasEffectIffDifferent(before: Surface, after: Surface)
    ensures HasEffect(SnapshotDiff(before, after)) <==> before != after
  {
  }

  const ID_FIELDS := {"email_id", "message_id", "id", "thread_id", "draft_id"}

  predicate Blank(s: string) {
    Strip(s) == ""
  }

  /** Every expected text is carried: an address as a whole field, free text word by word in one field. */
  predicate ItemMatches(item: Item, expected: set<string>) {
    forall e | e in expected && Norm(e) != "" ::
      if '@' in Norm(e) then exists f | f in item :: Norm(item[f]) == Norm(e)
      else Words(e) == {} || exists f | f in item :: Words(e) <= Words(item[f])
  }

  function IdValues(fp: Fingerprint): set<string> {
    set k | k in fp && k in ID_FIELDS && !Blank(fp[k]) :: Norm(fp[k])
  }

  function TextValues(fp: Fingerprint): set<string> {
    set k | k in fp && k !in ID_FIELDS && !Blank(fp[k]) :: fp[k]
  }

  /** An item's own identity: its `id` field, else its read-back key. */
  function ItemId(key: string, item: Item): string {
    if "id" in item && item["id"] != "" then Norm(item["id"]) else Norm(key)
  }

  /** `key` names an item that was ADDED between the two surfaces and carries the whole fingerprint. */
  predicate Witness(before: Surface, after: Surface, fp: Fingerprint, key: string) {
    && key in after && key !in before
    && (forall v | v in IdValues(fp) :: v == ItemId(key, after[key]))
    && ItemMatches(after[key], TextValues(fp))
  }

  /** Did the specific expected effect land? None when no fingerprint value can be formed. */
  function HasExpectedEffect(before: Surface, after: Surface, fp: Option<Fingerprint>): Option<bool> {
    if fp.None? || (forall k | k in fp.value :: Blank(fp.value[k])) then None
    else Some(exists key | key in after :: Witness(before, after, fp.value, key))
  }

  /** What a create returned: not id-bound, or id-bound with the id it carried ("" when it carried none). */
  const NO_CREATED_ID := "\0:flowers-no-created-id"

  function BindCreated(fp: Option<Fingerprint>, created: Option<string>): Option<Fingerprint> {
    match created
    case None => fp
    case Some(id) =>
      var base: Fingerprint := if fp.Some? then fp.value else map[];
      Some(base["id" := if id != "" then id else NO_CREATED_ID])
  }

  /** A create verified through its bound id was seen as a NEW item whose own id is exactly that id. */
  lemma BoundCreateIsExact(before: Surface, after: Surface, fp: Option<Fingerprint>, id: string)
    requires !Blank(id)
    requires HasExpectedEffect(before, after, BindCreated(fp, Some(id))) == Some(true)
    ensures exists key :: key in after && key !in before && ItemId(key, after[key]) == Norm(id)
  {
    var bound := BindCreated(fp, Some(id)).value;
    assert Strip("") == "";
    assert bound["id"] == id;
    assert "id" in bound && "id" in ID_FIELDS && !Blank(bound["id"]);
    assert Norm(id) in IdValues(bound);
    var key :| key in after && Witness(before, after, bound, key);
    assert ItemId(key, after[key]) == Norm(id);
  }

  /** A create that returned no id verifies only against a new item that bears the reserved id itself. */
  lemma DroppedCreateNeedsSentinel(before: Surface, after: Surface, fp: Option<Fingerprint>)
    requires HasExpectedEffect(before, after, BindCreated(fp, Some(""))) == Some(true)
    ensures exists key :: key in after && key !in before && ItemId(key, after[key]) == Norm(NO_CREATED_ID)
  {
    var bound := BindCreated(fp, Some("")).value;
    var sentinel := NO_CREATED_ID;
    assert bound["id"] == sentinel;
    assert StripLeft(sentinel) == sentinel;
    assert StripRight(sentinel) == sentinel;
    assert !Blank(sentinel);
    assert "id" in bound && "id" in ID_FIELDS;
    assert Norm(sentinel) in IdValues(bound);
    var key :| key in after && Witness(before, after, bound, key);
    assert ItemId(key, after[key]) == Norm(sentinel);
  }

  /** What one field of a fingerprint asks of an item. */
  predicate CarriesField(key: string, item: Item, field: string, value: string) {
    if field in ID_FIELDS then Norm(value) == ItemId(key, item)
    else if '@' in Norm(value) then exists f :: f in item && Norm(item[f]) == Norm(value)
    else Words(value) == {} || exists f :: f in item && Words(value) <= Words(item[f])
  }

  predicate CarriesAll(key: string, item: Item, fp: Fingerprint) {
    forall field :: field in fp && !Blank(fp[field]) ==> CarriesField(key, item, field, fp[field])
  }

  /** And such an item always verifies, as long as there is a value to look for at all. */
  lemma CarryingItemVerifies(before: Surface, after: Surface, fp: Fingerprint, key: string)
    requires key in after && key !in before && CarriesAll(key, after[key], fp)
    requires exists field :: field in fp && !Blank(fp[field])
    ensures HasExpectedEffect(before, after, Some(fp)) == Some(true)
  {
    forall v | v in IdValues(fp) ensures v == ItemId(key, after[key]) {
      var field :| field in fp && field in ID_FIELDS && !Blank(fp[field]) && Norm(fp[field]) == v;
      assert CarriesField(key, after[key], field, fp[field]);
    }
    forall e | e in TextValues(fp)
      ensures if '@' in Norm(e) then exists f | f in after[key] :: Norm(after[key][f]) == Norm(e)
              else Words(e) == {} || exists f | f in after[key] :: Words(e) <= Words(after[key][f])
    {
      var field :| field in fp && field !in ID_FIELDS && !Blank(fp[field]) && fp[field] == e;
      assert CarriesField(key, after[key], field, fp[field]);
    }
    assert Witness(before, after, fp, key);
  }

  /** Verified means one single new item carries every value: a record id as its own id, an address as a whole
      field, the words of a text inside one field. */
  lemma VerifiedItemCarriesEveryValue(before: Surface, after: Surface, fp: Fingerprint)
    requires HasExpectedEffect(before, after, Some(fp)) == Some(true)
    ensures exists key :: key in after && key !in before && CarriesAll(key, after[key], fp)
  {
    var key :| key in after && Witness(before, after, fp, key);
    forall field | field in fp && !Blank(fp[field]) ensures CarriesField(key, after[key], field, fp[field]) {
      if field in ID_FIELDS {
        assert Norm(fp[field]) in IdValues(fp);
      } else {
        assert fp[field] in TextValues(fp);
        assert |Norm(fp[field])| == |Strip(fp[field])|;
      }
    }
  }
}
