/**
 * The list-item collection as a map from identifier to document, and the
 * fan-out save of a batch of drafts.
 */
module ListStore {
  import opened Wrappers
  import opened ListItem

  /** The stored documents, and the identifier the next constructed document receives. */
  datatype Store = Store(items: map<ObjectId, Item>, nextId: ObjectId)

  /** Every stored identifier was handed out before `nextId`. */
  predicate Valid(s: Store) {
    forall k :: k in s.items ==> k < s.nextId
  }

  /** `after` keeps every document of `before` unchanged. */
  ghost predicate AppendOnly(before: Store, after: Store) {
    forall k :: k in before.items ==> k in after.items && after.items[k] == before.items[k]
  }

  /**
   * Saving one constructed document: it takes the next identifier whether or
   * not it validates, and is written only when it validates.
   */
  function Save(s: Store, d: Draft, now: nat): (r: (Store, bool))
    requires Valid(s)
    ensures Valid(r.0) && AppendOnly(s, r.0)
    ensures r.0.nextId == s.nextId + 1
    ensures r.1 <==> Validate(d, now).Ok?
    ensures r.1 ==> r.0.items == s.items[s.nextId := Validate(d, now).value]
    ensures !r.1 ==> r.0.items == s.items
  {
    match Validate(d, now)
    case Ok(item) => (Store(s.items[s.nextId := item], s.nextId + 1), true)
    case Err(_) => (Store(s.items, s.nextId + 1), false)
  }

  /**
   * Saving a batch whose saves are all started and then awaited together.
   * Draft `i` gets identifier `nextId + i`; what is written is stated by
   * `SaveAllWritesValidDrafts`.
   */
  function SaveAll(s: Store, ds: seq<Draft>, now: nat): (r: (Store, bool))
    requires Valid(s)
    ensures Valid(r.0) && AppendOnly(s, r.0)
    ensures r.0.nextId == s.nextId + |ds|
    decreases |ds|
  {
    if |ds| == 0 then
      (s, true)
    else
      var front := SaveAll(s, ds[..|ds| - 1], now);
      var last := Save(front.0, ds[|ds| - 1], now);
      (last.0, front.1 && last.1)
  }

  /** A batch save writes no identifier outside the block it reserved. */
  lemma {:induction false} SaveAllNewKeysInBlock(s: Store, ds: seq<Draft>, now: nat)
    requires Valid(s)
    ensures forall k :: k in SaveAll(s, ds, now).0.items && k !in s.items ==> s.nextId <= k < s.nextId + |ds|
    decreases |ds|
  {
    if |ds| > 0 {
      SaveAllNewKeysInBlock(s, ds[..|ds| - 1], now);
    }
  }

  /** Identifier `nextId + i` holds draft `i`'s document exactly when that draft validates. */
  lemma {:induction false} SaveAllSlots(s: Store, ds: seq<Draft>, now: nat)
    requires Valid(s)
    ensures forall i :: 0 <= i < |ds| ==>
      (s.nextId + i in SaveAll(s, ds, now).0.items <==> Validate(ds[i], now).Ok?) &&
      (Validate(ds[i], now).Ok? ==> SaveAll(s, ds, now).0.items[s.nextId + i] == Validate(ds[i], now).value)
    decreases |ds|
  {
    if |ds| > 0 {
      var init := ds[..|ds| - 1];
      SaveAllSlots(s, init, now);
      assert forall i :: 0 <= i < |init| ==> init[i] == ds[i];
    }
  }

  /** The batch reports success exactly when every draft validated. */
  lemma {:induction false} SaveAllReportsAllValid(s: Store, ds: seq<Draft>, now: nat)
    requires Valid(s)
    ensures SaveAll(s, ds, now).1 <==> forall i :: 0 <= i < |ds| ==> Validate(ds[i], now).Ok?
    decreases |ds|
  {
    if |ds| > 0 {
      var init := ds[..|ds| - 1];
      SaveAllReportsAllValid(s, init, now);
      assert forall i :: 0 <= i < |init| ==> init[i] == ds[i];
    }
  }

  /**
   * What a batch save writes: the new documents are exactly the valid drafts,
   * each at its own identifier (a failing save does not stop the others), and
   * the batch reports success only when every draft validated.
   */
  lemma SaveAllWritesValidDrafts(s: Store, ds: seq<Draft>, now: nat)
    requires Valid(s)
    ensures forall k :: k in SaveAll(s, ds, now).0.items && k !in s.items ==> s.nextId <= k < s.nextId + |ds|
    ensures forall i :: 0 <= i < |ds| ==> (s.nextId + i in SaveAll(s, ds, now).0.items <==> Validate(ds[i], now).Ok?)
    ensures forall i :: 0 <= i < |ds| && Validate(ds[i], now).Ok? ==>
      SaveAll(s, ds, now).0.items[s.nextId + i] == Validate(ds[i], now).value
    ensures SaveAll(s, ds, now).1 <==> forall i :: 0 <= i < |ds| ==> Validate(ds[i], now).Ok?
  {
    SaveAllNewKeysInBlock(s, ds, now);
    SaveAllSlots(s, ds, now);
    SaveAllReportsAllValid(s, ds, now);
  }
}
