/** Translation of the backend router's model catalog into LM Studio's
    model-listing shape (`_transform_litellm_model_to_lmstudio_format`, the
    empty-catalog test of `_fetch_models_from_litellm` and the listing
    endpoint that applies the translation to every entry). */
module Catalog {
  import opened JsonModel

  /** The model alias used when a catalog entry has no `id`; the deployment
      can override it through its environment. */
  const DefaultModelAlias := "groq-llama4-scout"

  /** Publisher reported for an entry without an `owned_by` field. */
  const DefaultPublisher := "litellm-proxied"

  const ContextLength: real := 32768.0

  /** The seven fields every LM Studio record carries with the same value. */
  const FixedFields: map<string, Json> := map[
    "object" := JString("model"),
    "type" := JString("chat"),
    "arch" := JString("unknown"),
    "compatibility_type" := JString("openai"),
    "quantization" := JString("unknown"),
    "state" := JString("loaded"),
    "max_context_length" := JNumber(ContextLength)]

  /** One catalog entry as an LM Studio record; `alias` is the configured
      default model alias. An entry that is not a dict has no `.get`. */
  function TransformModel(entry: Json, alias: string): Result<map<string, Json>>
  {
    if !entry.JObject? then Err(AttributeError)
    else
      var m := entry.fields;
      Ok(FixedFields["id" := GetOr(m, "id", JString(alias))]["publisher" := GetOr(m, "owned_by", JString(DefaultPublisher))])
  }

  /** `[transform(m) for m in models]`: the first entry that is not a dict
      aborts the listing. */
  function TransformAll(entries: seq<Json>, alias: string): Result<seq<Json>>
    decreases |entries|
  {
    if entries == [] then Ok([])
    else match TransformModel(entries[0], alias)
      case Err(e) => Err(e)
      case Ok(first) =>
        match TransformAll(entries[1..], alias)
        case Err(e) => Err(e)
        case Ok(rest) => Ok([JObject(first)] + rest)
  }

  /** The models the backend listed, `body.get("data", [])`, refused when
      falsy: an empty catalog is an error, never an empty listing. A truthy
      `data` that is not a list yields strings (a dict's keys, a string's
      characters) that have no `.get`, or is not iterable at all. */
  function CatalogEntries(body: Json): Result<seq<Json>>
  {
    if !body.JObject? then Err(AttributeError)
    else
      var data := GetOr(body.fields, "data", JArray([]));
      if !Truthy(data) then Err(NoModels)
      else match data
        case JArray(items) => Ok(items)
        case JString(_) => Err(AttributeError)
        case JObject(_) => Err(AttributeError)
        case _ => Err(TypeError)
  }

  /** The listing returned to the caller: `{"object": "list", "data": [...]}`. */
  function ListModels(body: Json, alias: string): Result<map<string, Json>>
  {
    match CatalogEntries(body)
    case Err(e) => Err(e)
    case Ok(entries) =>
      match TransformAll(entries, alias)
      case Err(e) => Err(e)
      case Ok(records) => Ok(map["object" := JString("list"), "data" := JArray(records)])
  }

  // ---------------------------------------------------------------------
  // Properties

  /** A translated record has exactly nine fields: `id` from the entry or the
      alias, `publisher` from `owned_by` or the default, and the seven fixed
      fields, whatever else the entry carries. */
  lemma TransformModelShape(entry: Json, alias: string)
    requires entry.JObject?
    ensures TransformModel(entry, alias).Ok?
    ensures var r := TransformModel(entry, alias).value;
      && r.Keys == FixedFields.Keys + {"id", "publisher"}
      && r["id"] == (if "id" in entry.fields then entry.fields["id"] else JString(alias))
      && r["publisher"] == (if "owned_by" in entry.fields then entry.fields["owned_by"] else JString(DefaultPublisher))
      && forall k :: k in FixedFields ==> r[k] == FixedFields[k]
  {
  }

  /** With the deployment's default alias, an entry without `id` is listed
      under that alias and one without `owned_by` under the default
      publisher. */
  lemma DefaultAliasRecord(entry: Json)
    requires entry.JObject? && "id" !in entry.fields && "owned_by" !in entry.fields
    ensures TransformModel(entry, DefaultModelAlias).Ok?
    ensures TransformModel(entry, DefaultModelAlias).value["id"] == JString("groq-llama4-scout")
    ensures TransformModel(entry, DefaultModelAlias).value["publisher"] == JString("litellm-proxied")
  {
    TransformModelShape(entry, DefaultModelAlias);
  }

  /** Translating the list keeps its length and order, and fails exactly
      when some entry is not a dict. */
  lemma {:induction false} TransformAllElementwise(entries: seq<Json>, alias: string)
    ensures TransformAll(entries, alias).Ok? <==> forall i :: 0 <= i < |entries| ==> entries[i].JObject?
    ensures TransformAll(entries, alias).Ok? ==>
              && |TransformAll(entries, alias).value| == |entries|
              && forall i :: 0 <= i < |entries| ==>
                   TransformAll(entries, alias).value[i] == JObject(TransformModel(entries[i], alias).value)
    decreases |entries|
  {
    if entries != [] {
      var tail := entries[1..];
      TransformAllElementwise(tail, alias);
      forall i | 1 <= i < |entries|
        ensures entries[i] == tail[i - 1]
      {
      }
    }
  }

  /** The listing succeeds exactly when the backend sent a dict whose `data`
      is a non-empty list of dicts; it then holds one record per entry, in
      the backend's order. */
  lemma ListModelsSpec(body: Json, alias: string)
    ensures ListModels(body, alias).Ok? <==>
              && body.JObject? && "data" in body.fields && body.fields["data"].JArray?
              && body.fields["data"].items != []
              && forall i :: 0 <= i < |body.fields["data"].items| ==> body.fields["data"].items[i].JObject?
    ensures ListModels(body, alias).Ok? ==>
              var entries, listing := body.fields["data"].items, ListModels(body, alias).value;
              && listing.Keys == {"object", "data"}
              && listing["object"] == JString("list")
              && listing["data"].JArray?
              && |listing["data"].items| == |entries|
              && forall i :: 0 <= i < |entries| ==>
                   listing["data"].items[i] == JObject(TransformModel(entries[i], alias).value)
  {
    if body.JObject? {
      var data := GetOr(body.fields, "data", JArray([]));
      if data.JArray? {
        TransformAllElementwise(data.items, alias);
      }
    }
  }

  /** An empty or missing catalog is reported as an error, not as an empty
      listing. */
  lemma EmptyCatalogIsError(body: Json, alias: string)
    requires body.JObject?
    requires "data" !in body.fields || body.fields["data"] == JArray([])
    ensures ListModels(body, alias) == Err(NoModels)
  {
  }
}
