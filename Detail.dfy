/**
 * The detail normalisation shared by the list and the retrieve view: an
 * upstream detail payload becomes a flat record whose `types` are the type
 * names in order and whose `front_default_sprite` is `sprites.front_default`.
 * Payloads the normalisation cannot read are the cases where Python raises
 * (`KeyError`, `TypeError`, `AttributeError`); they yield `None`.
 */
module Detail {
  import opened Wrappers
  import opened Json

  /** The normalised record (fields as in the record's serializer). */
  datatype Item = Item(id: Json, name: Json, height: Json, weight: Json, types: seq<Json>, frontSprite: Json)

  /** Reads a record back from its dictionary form. */
  function ItemOf(j: Json): Option<Item>
  {
    if j.JObj? && "id" in j.fields && "name" in j.fields && "height" in j.fields
      && "weight" in j.fields && "types" in j.fields && j.fields["types"].JList?
      && "front_default_sprite" in j.fields
    then
      var f := j.fields;
      Some(Item(f["id"], f["name"], f["height"], f["weight"], f["types"].items, f["front_default_sprite"]))
    else
      None
  }

  /** The dictionary the views build, cache and return for a record. */
  function ItemJson(item: Item): (j: Json)
    ensures Truthy(j)
    ensures ItemOf(j) == Some(item)
  {
    var fields := map[
      "id" := item.id,
      "name" := item.name,
      "height" := item.height,
      "weight" := item.weight,
      "types" := JList(item.types),
      "front_default_sprite" := item.frontSprite
    ];
    assert "id" in fields;
    JObj(fields)
  }

  /** An entry `t` for which `t['type']['name']` does not raise. */
  predicate IsTypeEntry(t: Json)
  {
    t.JObj? && "type" in t.fields && t.fields["type"].JObj? && "name" in t.fields["type"].fields
  }

  function TypeName(t: Json): Json
    requires IsTypeEntry(t)
  {
    t.fields["type"].fields["name"]
  }

  /** `[t['type']['name'] for t in ts]`: defined exactly when every entry is readable, and then in order. */
  function TypeNames(ts: seq<Json>): (r: Option<seq<Json>>)
    ensures r.Some? <==> forall k :: 0 <= k < |ts| ==> IsTypeEntry(ts[k])
    ensures r.Some? ==> |r.value| == |ts| && forall k :: 0 <= k < |ts| ==> r.value[k] == TypeName(ts[k])
  {
    if ts == [] then Some([])
    else
      match TypeNames(ts[..|ts| - 1])
      case None => None
      case Some(names) =>
        var t := ts[|ts| - 1];
        if IsTypeEntry(t) then Some(names + [TypeName(t)]) else None
  }

  /**
   * The `types` field: `[]` when `data.get('types')` is None, otherwise the
   * comprehension over whatever is stored there. Iterating an empty string or
   * dictionary yields nothing; a non-empty one yields strings, on which
   * `t['type']` raises; numbers and booleans are not iterable.
   */
  function TypesOf(v: Json): Option<seq<Json>>
  {
    match v
    case JNull => Some([])
    case JList(ts) => TypeNames(ts)
    case JStr(s) => if s == "" then Some([]) else None
    case JObj(m) => if m == map[] then Some([]) else None
    case _ => None
  }

  /** `data.get('sprites', {}).get('front_default')`: raises when `sprites` holds a non-dictionary. */
  function SpriteOf(fields: map<string, Json>): Option<Json>
  {
    if "sprites" !in fields then Some(JNull)
    else
      match fields["sprites"]
      case JObj(sprites) => Some(Get(sprites, "front_default", JNull))
      case _ => None
  }

  /** The normalisation dictionary of the list and the retrieve view; `None` where Python raises. */
  function Normalize(data: Json): (r: Option<Item>)
    ensures r.Some? ==> data.JObj?
    ensures r.Some? ==>
      && r.value.id == Get(data.fields, "id", JNull) && r.value.name == Get(data.fields, "name", JNull)
      && r.value.height == Get(data.fields, "height", JNull) && r.value.weight == Get(data.fields, "weight", JNull)
    ensures r.Some? && "types" in data.fields && data.fields["types"].JList? ==>
      |r.value.types| == |data.fields["types"].items|
  {
    if !data.JObj? then None
    else
      var f := data.fields;
      match (TypesOf(Get(f, "types", JNull)), SpriteOf(f))
      case (Some(types), Some(sprite)) =>
        Some(Item(Get(f, "id", JNull), Get(f, "name", JNull), Get(f, "height", JNull), Get(f, "weight", JNull), types, sprite))
      case _ => None
  }

  /**
   * Normalisation succeeds exactly when the payload is a dictionary, every
   * `types` entry has a `type.name` (or `types` is absent, null or an empty
   * collection) and `sprites`, if present, is a dictionary; the scalar fields
   * are copied and missing ones become null.
   */
  lemma NormalizeDefinedness(f: map<string, Json>)
    ensures Normalize(JObj(f)).Some? <==>
      TypesOf(Get(f, "types", JNull)).Some? && ("sprites" !in f || f["sprites"].JObj?)
    ensures Normalize(JObj(f)).Some? ==>
      var item := Normalize(JObj(f)).value;
      && item.id == Get(f, "id", JNull) && item.name == Get(f, "name", JNull)
      && item.height == Get(f, "height", JNull) && item.weight == Get(f, "weight", JNull)
  {
  }

  /** Only dictionaries normalise. */
  lemma NormalizeNeedsObject(data: Json)
    requires !data.JObj?
    ensures Normalize(data) == None
  {
  }

  /** `types` flattens to the type names, same length, same order. */
  lemma NormalizeTypesInOrder(f: map<string, Json>, ts: seq<Json>)
    requires "types" in f && f["types"] == JList(ts)
    requires Normalize(JObj(f)).Some?
    ensures var item := Normalize(JObj(f)).value;
      && |item.types| == |ts|
      && forall k :: 0 <= k < |ts| ==> IsTypeEntry(ts[k]) && item.types[k] == TypeName(ts[k])
  {
  }

  /** A payload without `types` (or with `types: null`) gets `types: []`. */
  lemma NormalizeMissingTypes(f: map<string, Json>)
    requires "types" !in f || f["types"] == JNull
    requires "sprites" !in f || f["sprites"].JObj?
    ensures Normalize(JObj(f)).Some? && Normalize(JObj(f)).value.types == []
  {
  }

  /** A payload without `sprites` gets a null sprite; with one, its `front_default` (or null). */
  lemma NormalizeSprite(f: map<string, Json>)
    requires Normalize(JObj(f)).Some?
    ensures "sprites" !in f ==> Normalize(JObj(f)).value.frontSprite == JNull
    ensures "sprites" in f ==>
      (f["sprites"].JObj? && Normalize(JObj(f)).value.frontSprite == Get(f["sprites"].fields, "front_default", JNull))
  {
  }

  /** The `types` list of an upstream record naming `names`, in order. */
  function TypeEntries(names: seq<Json>): (ts: seq<Json>)
    ensures |ts| == |names|
    ensures forall k :: 0 <= k < |ts| ==> IsTypeEntry(ts[k]) && TypeName(ts[k]) == names[k]
  {
    seq(|names|, k requires 0 <= k < |names| => JObj(map["type" := JObj(map["name" := names[k]])]))
  }

  /** An upstream detail record with the given fields, two levels deep as the upstream nests them. */
  function DetailPayload(id: Json, name: Json, height: Json, weight: Json, typeNames: seq<Json>, sprite: Json): Json
  {
    JObj(map["id" := id, "name" := name, "height" := height, "weight" := weight,
             "types" := JList(TypeEntries(typeNames)), "sprites" := JObj(map["front_default" := sprite])])
  }

  /** Normalising a well-formed upstream record recovers its fields, with the type names in order. */
  lemma NormalizeRecoversRecord(id: Json, name: Json, height: Json, weight: Json, typeNames: seq<Json>, sprite: Json)
    ensures Normalize(DetailPayload(id, name, height, weight, typeNames, sprite))
      == Some(Item(id, name, height, weight, typeNames, sprite))
  {
    var ts := TypeEntries(typeNames);
    var names := TypeNames(ts).value;
    assert names == typeNames;
  }


  const DetailsUnavailable: string := "Details unavailable"

  const DetailsProcessingFailed: string := "Details processing failed"

  /** The stand-in the list view puts where an item's details could not be had. */
  function Placeholder(id: int, entry: map<string, Json>, reason: string): (j: Json)
    ensures j.JObj? && j.fields.Keys == {"id", "name", "error"}
    ensures j.fields["id"] == JInt(id) && j.fields["error"] == JStr(reason)
    ensures j.fields["name"] == if "name" in entry then entry["name"] else JStr("Unknown")
  {
    JObj(map["id" := JInt(id), "name" := Get(entry, "name", JStr("Unknown")), "error" := JStr(reason)])
  }
}
