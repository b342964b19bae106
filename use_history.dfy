/**
 * The `useHistory(type)` composable of the Vue front end: an in-memory list
 * of history items, mirrored to one local-storage key that every instance of
 * the hook shares, and a `filtered` view of the items of the hook's type that
 * changes only on `refresh`.
 *
 * `load` returns whatever JSON the key holds, unchecked, so the list is a
 * list of JSON values; the items `add` puts there are objects.
 */
module UseHistory {
  import opened Wrappers
  import opened Json
  import opened HistoryLog

  /** The one storage key every hook instance reads and writes. */
  const StorageKey := "firecrawl_history"

  /** A `HistoryItem`; its `type` is called `kind` here. `result` is None when absent. */
  datatype HistoryItem = HistoryItem(id: string, kind: string, status: string, createdAt: int, result: Option<Value>)

  /** The item as a JSON object, with the key `type`; an absent `result` has no key (JSON.stringify drops it). */
  function ItemValue(item: HistoryItem): (v: Value)
    ensures v.Obj? && Field(v, "id") == Some(Str(item.id)) && Field(v, "type") == Some(Str(item.kind))
    ensures Field(v, "status") == Some(Str(item.status)) && Field(v, "createdAt") == Some(Num(item.createdAt))
    ensures Field(v, "result") == item.result
    ensures v.fields.Keys == {"id", "type", "status", "createdAt"} + (if item.result.Some? then {"result"} else {})
  {
    var fields := map["id" := Str(item.id), "type" := Str(item.kind), "status" := Str(item.status),
                      "createdAt" := Num(item.createdAt)];
    Obj(if item.result.Some? then fields["result" := item.result.value] else fields)
  }

  /**
   * One property of a `Partial<HistoryItem>` object: not an own key, an own
   * key holding `undefined`, or an own key holding a value.
   */
  datatype Setting<T> = Unset | SetUndefined | SetTo(value: T)

  /** A `Partial<HistoryItem>`, field by field. */
  datatype Patch = Patch(
    id: Setting<string>,
    kind: Setting<string>,
    status: Setting<string>,
    createdAt: Setting<int>,
    result: Setting<Value>)

  /** The own keys of the patch that hold values, with those values as JSON. */
  function PatchFields(patch: Patch): (m: map<string, Value>)
    ensures "id" in m <==> patch.id.SetTo?
    ensures "type" in m <==> patch.kind.SetTo?
    ensures "status" in m <==> patch.status.SetTo?
    ensures "createdAt" in m <==> patch.createdAt.SetTo?
    ensures "result" in m <==> patch.result.SetTo?
    ensures m.Keys <= {"id", "type", "status", "createdAt", "result"}
    ensures patch.id.SetTo? ==> m["id"] == Str(patch.id.value)
    ensures patch.kind.SetTo? ==> m["type"] == Str(patch.kind.value)
    ensures patch.status.SetTo? ==> m["status"] == Str(patch.status.value)
    ensures patch.createdAt.SetTo? ==> m["createdAt"] == Num(patch.createdAt.value)
    ensures patch.result.SetTo? ==> m["result"] == patch.result.value
  {
    var m0: map<string, Value> := map[];
    var m1 := if patch.id.SetTo? then m0["id" := Str(patch.id.value)] else m0;
    var m2 := if patch.kind.SetTo? then m1["type" := Str(patch.kind.value)] else m1;
    var m3 := if patch.status.SetTo? then m2["status" := Str(patch.status.value)] else m2;
    var m4 := if patch.createdAt.SetTo? then m3["createdAt" := Num(patch.createdAt.value)] else m3;
    if patch.result.SetTo? then m4["result" := patch.result.value] else m4
  }

  /** The own keys of the patch that hold `undefined`. */
  function ClearedKeys(patch: Patch): (c: set<string>)
    ensures "id" in c <==> patch.id.SetUndefined?
    ensures "type" in c <==> patch.kind.SetUndefined?
    ensures "status" in c <==> patch.status.SetUndefined?
    ensures "createdAt" in c <==> patch.createdAt.SetUndefined?
    ensures "result" in c <==> patch.result.SetUndefined?
    ensures c * PatchFields(patch).Keys == {}
  {
    (if patch.id.SetUndefined? then {"id"} else {}) +
    (if patch.kind.SetUndefined? then {"type"} else {}) +
    (if patch.status.SetUndefined? then {"status"} else {}) +
    (if patch.createdAt.SetUndefined? then {"createdAt"} else {}) +
    (if patch.result.SetUndefined? then {"result"} else {})
  }

  /**
   * `{ ...item, ...data }` for an object item: each key of the patch
   * overrides, every other key is kept. A key the patch sets to `undefined`
   * reads as undefined and is dropped by `JSON.stringify`, so it is removed.
   */
  function Merge(fields: map<string, Value>, patch: Patch): (r: map<string, Value>)
    ensures r.Keys == (fields.Keys - ClearedKeys(patch)) + PatchFields(patch).Keys
    ensures forall k :: k in ClearedKeys(patch) ==> k !in r
    ensures forall k :: k in PatchFields(patch) ==> r[k] == PatchFields(patch)[k]
    ensures forall k :: k in fields && k !in PatchFields(patch) && k !in ClearedKeys(patch) ==> r[k] == fields[k]
  {
    (fields - ClearedKeys(patch)) + PatchFields(patch)
  }

  /** Spreading the same patch twice is spreading it once, and an empty patch changes nothing. */
  lemma MergeLaws(fields: map<string, Value>, patch: Patch)
    ensures Merge(Merge(fields, patch), patch) == Merge(fields, patch)
    ensures Merge(fields, Patch(Unset, Unset, Unset, Unset, Unset)) == fields
  {
    MergeTwice(fields, patch);
    MergeNothing(fields);
  }

  /** The patch's keys already hold the patch's values after one spread. */
  lemma MergeTwice(fields: map<string, Value>, patch: Patch)
    ensures Merge(Merge(fields, patch), patch) == Merge(fields, patch)
  {
    var once := Merge(fields, patch);
    assert Merge(once, patch).Keys == once.Keys;
  }

  /** A patch with no own keys neither sets nor removes anything. */
  lemma MergeNothing(fields: map<string, Value>)
    ensures Merge(fields, Patch(Unset, Unset, Unset, Unset, Unset)) == fields
  {
    var none := Patch(Unset, Unset, Unset, Unset, Unset);
    assert ClearedKeys(none) == {} && PatchFields(none) == map[];
  }

  /** `i.id === id`: only an object whose `id` is that very string matches. */
  predicate HasId(v: Value, id: string)
  {
    Field(v, "id") == Some(Str(id))
  }

  /** `list.findIndex(i => i.id === id)`: the first index with that id, or None for -1. */
  function FindIndex(list: seq<Value>, id: string): (r: Option<nat>)
    ensures r.Some? ==> r.value < |list| && HasId(list[r.value], id) &&
                        forall j :: 0 <= j < r.value ==> !HasId(list[j], id)
    ensures r.None? ==> forall j :: 0 <= j < |list| ==> !HasId(list[j], id)
  {
    if list == [] then None
    else if HasId(list[0], id) then Some(0)
    else match FindIndex(list[1..], id)
      case None => None
      case Some(k) => Some(k + 1)
  }

  /**
   * The list after `update(id, data)`: when no item has the id it is
   * unchanged; otherwise only the first item with the id is merged.
   */
  function Updated(list: seq<Value>, id: string, patch: Patch): (r: seq<Value>)
    ensures (forall j :: 0 <= j < |list| ==> !HasId(list[j], id)) ==> r == list
    ensures forall i :: 0 <= i < |list| && HasId(list[i], id) && (forall j :: 0 <= j < i ==> !HasId(list[j], id)) ==>
              list[i].Obj? && r == list[i := Obj(Merge(list[i].fields, patch))]
  {
    match FindIndex(list, id)
    case None => list
    case Some(i) => list[i := Obj(Merge(list[i].fields, patch))]
  }

  /** `i.type === type`. */
  predicate HasType(v: Value, kind: string)
  {
    Field(v, "type") == Some(Str(kind))
  }

  /** `list.filter(i => i.type === type)` over a list without null entries. */
  function OfType(list: seq<Value>, kind: string): (r: seq<Value>)
    ensures |r| <= |list|
    ensures forall x :: x in r <==> x in list && HasType(x, kind)
  {
    if list == [] then []
    else (if HasType(list[0], kind) then [list[0]] else []) + OfType(list[1..], kind)
  }

  /** The filter keeps list order: filtering a concatenation filters each part in turn. */
  lemma {:induction false} OfTypeConcat(first: seq<Value>, second: seq<Value>, kind: string)
    ensures OfType(first + second, kind) == OfType(first, kind) + OfType(second, kind)
  {
    if first != [] {
      assert (first + second)[0] == first[0];
      assert (first + second)[1..] == first[1..] + second;
      OfTypeConcat(first[1..], second, kind);
    } else {
      assert first + second == second;
    }
  }

  /** An item whose `type` is updated to `undefined` has no type, so the next `refresh` leaves it out of every view. */
  lemma UndefinedTypeLeavesView(list: seq<Value>, id: string, patch: Patch, kind: string, i: nat)
    requires patch.kind == SetUndefined
    requires i < |list| && HasId(list[i], id) && forall j :: 0 <= j < i ==> !HasId(list[j], id)
    ensures Updated(list, id, patch)[i] !in OfType(Updated(list, id, patch), kind)
  {
    assert "type" in ClearedKeys(patch);
    var updated := Updated(list, id, patch);
    assert updated[i] == Obj(Merge(list[i].fields, patch));
    assert !HasType(updated[i], kind);
  }

  /** After `add(item)` and `refresh()`, the view leads with the item exactly when it has the hook's type. */
  lemma RefreshAfterAdd(item: HistoryItem, list: seq<Value>, kind: string)
    ensures OfType([ItemValue(item)] + list, kind)
            == (if item.kind == kind then [ItemValue(item)] + OfType(list, kind) else OfType(list, kind))
  {
    OfTypeConcat([ItemValue(item)], list, kind);
  }

  /** `load()`: the stored JSON as it is; an array `[]` when nothing, or only "", is stored, or when parsing throws. */
  function Load(slot: Option<Blob>, parse: string -> Option<Value>): (r: Value)
    ensures slot.None? || slot == Some(Raw("")) ==> r == Arr([])
    ensures slot.Some? && slot.value.Raw? && parse(slot.value.text).None? ==> r == Arr([])
    ensures slot.Some? && slot.value.Raw? && slot.value.text != "" && parse(slot.value.text).Some? ==>
              r == parse(slot.value.text).value
    ensures slot.Some? && slot.value.Written? ==> r == slot.value.value
  {
    match slot
    case None => Arr([])
    case Some(Raw(text)) =>
      if text == "" then Arr([])
      else (match parse(text)
            case None => Arr([])
            case Some(v) => v)
    case Some(Written(v)) => v
  }

  /**
   * `refresh()` on a loaded value: the items of the type, or the TypeError
   * thrown when the value is not an array (no `filter`) or holds a null
   * entry (reading `i.type` of null).
   */
  function Filtered(list: Value, kind: string): (r: Result<seq<Value>, Failure>)
    ensures r.Ok? <==> list.Arr? && NoNullItem(list.items)
    ensures r.Err? ==> r.error == TypeError
    ensures r.Ok? ==> r.value == OfType(list.items, kind)
  {
    if list.Arr? && NoNullItem(list.items) then Ok(OfType(list.items, kind)) else Err(TypeError)
  }

  /** Text that does not parse, or no text, opens an empty history. */
  lemma UnparsableStorageOpensEmpty(text: string, kind: string, parse: string -> Option<Value>)
    requires text == "" || parse(text).None?
    ensures Filtered(Load(Some(Raw(text)), parse), kind) == Ok([])
  {
  }

  /** Text that parses to `null`, `{}` or `[null]` makes opening the hook throw. */
  lemma ParsedNonListThrows(text: string, kind: string, parse: string -> Option<Value>)
    requires text != ""
    requires parse(text) == Some(Null) || parse(text) == Some(Obj(map[])) || parse(text) == Some(Arr([Null]))
    ensures Filtered(Load(Some(Raw(text)), parse), kind) == Err(TypeError)
  {
    if parse(text) == Some(Arr([Null])) {
      assert Arr([Null]).items[0].Null?;
    }
  }

  /** What a hook saves, the next hook opened on the same storage loads back. */
  lemma ReloadAfterSave(slots: map<string, Blob>, list: seq<Value>, parse: string -> Option<Value>)
    ensures Load(Slot(slots[StorageKey := Written(Arr(list))], StorageKey), parse) == Arr(list)
  {
  }

  /** One hook instance: the list, the filtered view it returns as `history`, and the shared storage. */
  class HistoryStore {
    const kind: string
    const storage: LocalStorage
    var list: seq<Value>
    var filtered: seq<Value>

    /** The list never holds null: opening the hook throws on one, and `add` and `update` put objects. */
    predicate Valid()
      reads this
    {
      NoNullItem(list)
    }

    /** The hook after `load()` has returned an array without null entries and `refresh()` has run. */
    constructor(kind: string, storage: LocalStorage, items: seq<Value>)
      requires NoNullItem(items)
      ensures this.kind == kind && this.storage == storage
      ensures list == items && filtered == OfType(items, kind) && History() == filtered && Valid()
    {
      this.kind := kind;
      this.storage := storage;
      list := items;
      filtered := [];
      new;
      Refresh();
    }

    /** `history`, the ref the hook returns: the filtered view itself, not a copy. */
    function History(): seq<Value>
      reads this
    {
      filtered
    }

    /** `save()`: overwrite the shared key with the whole list; every other key is kept. */
    method Save()
      modifies storage
      ensures storage.slots == old(storage.slots)[StorageKey := Written(Arr(list))]
    {
      storage.slots := storage.slots[StorageKey := Written(Arr(list))];
    }

    /** `add(item)`: put the item first, without a bound, and persist. */
    method Add(item: HistoryItem)
      requires Valid()
      modifies this, storage
      ensures list == [ItemValue(item)] + old(list) && Valid()
      ensures storage.slots == old(storage.slots)[StorageKey := Written(Arr(list))]
      ensures filtered == old(filtered)
    {
      list := [ItemValue(item)] + list;
      Save();
    }

    /** `update(id, data)`: merge into the first item with the id and persist; do nothing when there is none. */
    method Update(id: string, patch: Patch)
      requires Valid()
      modifies this, storage
      ensures list == Updated(old(list), id, patch) && Valid()
      ensures storage.slots == if FindIndex(old(list), id).Some?
                               then old(storage.slots)[StorageKey := Written(Arr(list))]
                               else old(storage.slots)
      ensures filtered == old(filtered)
    {
      var idx := FindIndex(list, id);
      if idx.Some? {
        list := list[idx.value := Obj(Merge(list[idx.value].fields, patch))];
        Save();
      }
    }

    /** `refresh()`: recompute the filtered view from the list. */
    method Refresh()
      requires Valid()
      modifies this
      ensures Filtered(Arr(list), kind) == Ok(filtered) && filtered == OfType(list, kind)
      ensures list == old(list)
    {
      filtered := OfType(list, kind);
    }
  }

  /**
   * `useHistory(type)`: load the shared key, then `refresh()`. Opening the
   * hook throws the TypeError of `refresh` when the loaded value is not an
   * array or holds a null entry; otherwise the hook holds the loaded list.
   */
  method OpenHistory(kind: string, storage: LocalStorage, parse: string -> Option<Value>)
    returns (r: Result<HistoryStore, Failure>)
    ensures var loaded := Load(Slot(storage.slots, StorageKey), parse);
            (r.Err? <==> Filtered(loaded, kind).Err?) && (r.Err? ==> r.error == TypeError)
    ensures var loaded := Load(Slot(storage.slots, StorageKey), parse);
            r.Ok? ==> fresh(r.value) && r.value.kind == kind && r.value.storage == storage && r.value.Valid() &&
                      r.value.list == loaded.items && r.value.History() == Filtered(loaded, kind).value
  {
    var loaded := Load(Slot(storage.slots, StorageKey), parse);
    if !loaded.Arr? || !NoNullItem(loaded.items) {
      return Err(TypeError);
    }
    var hook := new HistoryStore(kind, storage, loaded.items);
    r := Ok(hook);
  }
}
