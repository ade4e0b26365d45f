/**
 * The request helpers of the store API: stripping server-controlled
 * fields from payloads, the field rules of create and update, the
 * parameter split of `/search`, and the translation of `/search_raw`
 * parameters into an Elasticsearch query object.
 *
 * Routing, JSON rendering and the authorization rules are outside; the
 * requesting user, the `authorize` decision and the helper functions
 * `atoi` and `_csv_split` (whose code is not part of this model) are inputs.
 */
module Store {
  import opened JsonData
  import opened Documents
  import opened Annotations

  const CreateFilterFields: seq<string> := ["updated", "created", "consumer", "id"]
  const UpdateFilterFields: seq<string> := ["updated", "created", "user", "consumer"]

  // ---------------------------------------------------------------------
  // Payload filtering and the owner field
  // ---------------------------------------------------------------------

  /** `obj` with each of `fields` popped in turn. */
  function Stripped(obj: map<string, Json>, fields: seq<string>): (r: map<string, Json>)
    ensures forall k :: k in r <==> k in obj && k !in fields
    ensures forall k :: k in r ==> r[k] == obj[k]
  {
    if fields == [] then obj
    else
      var init := fields[..|fields| - 1];
      assert forall k :: k in fields <==> k in init || k == fields[|fields| - 1];
      Stripped(obj, init) - {fields[|fields| - 1]}
  }

  /** `_filter_input(obj, fields)`: removes exactly the listed keys and keeps every other entry. */
  method FilterInput(obj: map<string, Json>, fields: seq<string>) returns (r: map<string, Json>)
    ensures r == Stripped(obj, fields)
    ensures forall k :: k in r <==> k in obj && k !in fields
  {
    r := obj;
    var i := 0;
    while i < |fields|
      invariant 0 <= i <= |fields|
      invariant r == Stripped(obj, fields[..i])
    {
      assert fields[..i + 1][..i] == fields[..i];
      r := r - {fields[i]};
      i := i + 1;
    }
    assert fields[..i] == fields;
  }

  /**
   * `_get_annotation_user(ann)`: None for a missing or falsy owner, the
   * `id` entry (or None) of an object-valued owner, the value otherwise.
   */
  function AnnotationUser(ann: map<string, Json>): Json {
    var user := Get(ann, "user");
    if !Truthy(user) then JNull
    else if user.JObj? then Get(user.fields, "id")
    else user
  }

  /** An owner value that `_get_annotation_user` gives back unchanged. */
  predicate PlainId(j: Json) {
    j == JNull || (Truthy(j) && !j.JObj?)
  }

  /**
   * Reading the owner back after setting it: a plain value comes back as it
   * is, an object gives its `id` (None without one); a missing or falsy
   * owner reads as None.
   */
  lemma OwnerRoundTrip(ann: map<string, Json>, u: Json)
    ensures PlainId(u) ==> AnnotationUser(ann["user" := u]) == u
    ensures u.JObj? && Truthy(u) ==> AnnotationUser(ann["user" := u]) == Get(u.fields, "id")
    ensures !Truthy(Get(ann, "user")) ==> AnnotationUser(ann) == JNull
    ensures "user" in ann && Truthy(ann["user"]) && !ann["user"].JObj? ==> AnnotationUser(ann) == ann["user"]
  {
  }

  // ---------------------------------------------------------------------
  // Create and update
  // ---------------------------------------------------------------------

  /** The requesting user, as the authentication layer supplies it. */
  datatype User = User(id: Json, consumerKey: Json)

  /** What a handler answers: a JSON body, a refusal with its status, or an escaping exception. */
  datatype Reply = Success(body: Json) | Refused(status: nat) | Raised(error: PyError)

  /** `obj.pop(field, None)` on a decoded body that is not an object. */
  function PopError(j: Json): PyError {
    if j.JArr? then TypeError else AttributeError
  }

  /**
   * `request.json is None`: no JSON body, or the JSON body `null` (both read
   * as None).
   */
  predicate NoPayload(payload: Option<Json>) {
    payload.None? || payload.value.JNull?
  }

  /** The annotation `create_annotation` builds from a payload before saving it. */
  function CreatedAnnotation(payload: map<string, Json>, user: User): map<string, Json> {
    var a := Stripped(payload, CreateFilterFields)["consumer" := user.consumerKey];
    if AnnotationUser(a) != user.id then a["user" := user.id] else a
  }

  /**
   * Create's field rules: `id`, `created` and `updated` never come from the
   * payload, `consumer` is the requester's consumer key, the owner reads as
   * the requester's id (for a plain id), and the payload's other entries
   * are kept.
   */
  lemma CreateFieldRules(payload: map<string, Json>, user: User)
    ensures var r := CreatedAnnotation(payload, user);
            && "consumer" in r && r["consumer"] == user.consumerKey
            && "id" !in r && "created" !in r && "updated" !in r
            && (forall k :: k in payload && k !in CreateFilterFields && k != "user" ==> k in r && r[k] == payload[k])
            && (PlainId(user.id) ==> AnnotationUser(r) == user.id)
            && ("user" in r ==> r["user"] == user.id || ("user" in payload && r["user"] == payload["user"]))
  {
    var r := CreatedAnnotation(payload, user);
    var a := Stripped(payload, CreateFilterFields)["consumer" := user.consumerKey];
    if AnnotationUser(a) != user.id {
      OwnerRoundTrip(a, user.id);
    }
  }

  /** A payload without `permissions` is stored with the default read permission. */
  lemma CreateDefaultsPermissions(payload: map<string, Json>, user: User, group: string)
    requires "permissions" !in payload
    ensures WithDefaultPermissions(CreatedAnnotation(payload, user), group)["permissions"]
            == JObj(map["read" := JArr([JStr(group)])])
  {
  }

  /**
   * `create_annotation`: refused for an anonymous requester, a 400 without
   * a JSON payload (or with `null`); otherwise the filtered payload with forced consumer and
   * owner is saved (lifecycle hooks and the `refresh` flag are not modelled).
   */
  method CreateAnnotation(cfg: Config, user: Option<User>, payload: Option<Json>, index: DocumentIndex)
    returns (reply: Reply)
    modifies index`records
    ensures user.None? || NoPayload(payload) || !payload.value.JObj? ==> index.records == old(index.records)
    ensures user.None? ==> reply == Refused(401)
    ensures user.Some? && NoPayload(payload) ==> reply == Refused(400)
    ensures user.Some? && !NoPayload(payload) && !payload.value.JObj? ==> reply == Raised(PopError(payload.value))
    ensures user.Some? && payload.Some? && payload.value.JObj? ==>
              var stored := WithDefaultPermissions(CreatedAnnotation(payload.value.fields, user.value), cfg.groupConsumer);
              match SavedRecords(stored, old(index.records))
              case Ok(rs) => index.records == rs && reply == Success(JObj(stored))
              case Err(e) => index.records == old(index.records) && reply == Raised(e)
  {
    if user.None? {
      return Refused(401);
    }
    if payload.None? || payload.value.JNull? {
      return Refused(400);
    }
    if !payload.value.JObj? {
      return Raised(PopError(payload.value));
    }
    var fields := FilterInput(payload.value.fields, CreateFilterFields);
    var annotation := new Annotation(fields);
    annotation.fields := annotation.fields["consumer" := user.value.consumerKey];
    if AnnotationUser(annotation.fields) != user.value.id {
      annotation.fields := annotation.fields["user" := user.value.id];
    }
    var saved := annotation.Save(index, cfg.groupConsumer);
    match saved {
      case Ok(a) => reply := Success(JObj(a));
      case Err(e) => reply := Raised(e);
    }
  }

  /** The entries an update applies: the filtered payload with the id from the URL. */
  function UpdatedFields(payload: map<string, Json>, id: string): map<string, Json> {
    Stripped(payload, UpdateFilterFields)["id" := JStr(id)]
  }

  /** The update carries permissions that differ from the current ones (`{}` when there are none). */
  predicate ChangingPermissions(updated: map<string, Json>, current: map<string, Json>) {
    "permissions" in updated && updated["permissions"] != GetOrDefault(current, "permissions", JObj(map[]))
  }

  /** How `update_annotation` decides, before anything is saved. */
  datatype UpdateStep =
    | NotFound
    | Denied(action: string)
    | Unchanged(annotation: map<string, Json>)
    | Failed(error: PyError)
    | Apply(annotation: map<string, Json>)

  function UpdateDecision(id: string, stored: Option<map<string, Json>>, payload: Option<Json>,
                          authorize: (map<string, Json>, string) -> bool): UpdateStep
  {
    if stored.None? || stored.value == map[] then NotFound
    else if !authorize(stored.value, "update") then Denied("update")
    else if NoPayload(payload) then Unchanged(stored.value)
    else if !payload.value.JObj? then Failed(PopError(payload.value))
    else
      var updated := UpdatedFields(payload.value.fields, id);
      if ChangingPermissions(updated, stored.value) && !authorize(stored.value, "admin") then Denied("admin")
      else Apply(stored.value + updated)
  }

  /**
   * An applied update has the URL's id whatever the payload says, keeps
   * the stored `updated`, `created`, `user` and `consumer`, takes every
   * other payload entry, and keeps the stored entries the payload lacks.
   */
  lemma UpdateFieldRules(id: string, stored: Option<map<string, Json>>, payload: Option<Json>,
                         authorize: (map<string, Json>, string) -> bool)
    ensures var step := UpdateDecision(id, stored, payload, authorize);
            step.Apply? ==>
              && stored.Some? && payload.Some? && payload.value.JObj?
              && "id" in step.annotation && step.annotation["id"] == JStr(id)
              && (forall k :: k in UpdateFilterFields ==>
                    (k in step.annotation <==> k in stored.value)
                    && (k in stored.value ==> step.annotation[k] == stored.value[k]))
              && (forall k :: k in payload.value.fields && k !in UpdateFilterFields && k != "id" ==>
                    k in step.annotation && step.annotation[k] == payload.value.fields[k])
              && (forall k :: k in stored.value && k !in payload.value.fields && k != "id" ==>
                    k in step.annotation && step.annotation[k] == stored.value[k])
  {
  }

  /**
   * Once the update itself is authorized and a payload object arrived, the
   * admin check decides the outcome exactly when the permissions change.
   */
  lemma AdminCheckOnlyForPermissionChange(id: string, stored: Option<map<string, Json>>, payload: Option<Json>,
                                          authorize: (map<string, Json>, string) -> bool)
    requires stored.Some? && stored.value != map[] && authorize(stored.value, "update")
    requires payload.Some? && payload.value.JObj?
    ensures var changing := ChangingPermissions(UpdatedFields(payload.value.fields, id), stored.value);
            && (UpdateDecision(id, stored, payload, authorize) == Denied("admin") <==>
                  changing && !authorize(stored.value, "admin"))
            && (UpdateDecision(id, stored, payload, authorize).Apply? <==>
                  !changing || authorize(stored.value, "admin"))
  {
  }

  /**
   * `update_annotation`: 404 for an unknown id, 401 unless the update (and,
   * for a change of permissions, the admin action) is authorized; the
   * applied update is saved. Without a payload (or with `null`) the stored
   * annotation is returned untouched.
   */
  method UpdateAnnotation(cfg: Config, id: string, stored: Option<map<string, Json>>, payload: Option<Json>,
                          authorize: (map<string, Json>, string) -> bool, index: DocumentIndex)
    returns (reply: Reply)
    modifies index`records
    ensures var step := UpdateDecision(id, stored, payload, authorize);
            && (!step.Apply? ==> index.records == old(index.records))
            && (step.NotFound? ==> reply == Refused(404))
            && (step.Denied? ==> reply == Refused(401))
            && (step.Unchanged? ==> reply == Success(JObj(step.annotation)))
            && (step.Failed? ==> reply == Raised(step.error))
            && (step.Apply? ==>
                  var saved := WithDefaultPermissions(step.annotation, cfg.groupConsumer);
                  match SavedRecords(saved, old(index.records))
                  case Ok(rs) => index.records == rs && reply == Success(JObj(saved))
                  case Err(e) => index.records == old(index.records) && reply == Raised(e))
  {
    if stored.None? || stored.value == map[] {
      return Refused(404);
    }
    var annotation := new Annotation(stored.value);
    if !authorize(annotation.fields, "update") {
      return Refused(401);
    }
    if payload.Some? && !payload.value.JNull? {
      if !payload.value.JObj? {
        return Raised(PopError(payload.value));
      }
      var updated := FilterInput(payload.value.fields, UpdateFilterFields);
      updated := updated["id" := JStr(id)];
      var changing := "permissions" in updated
                      && updated["permissions"] != GetOrDefault(annotation.fields, "permissions", JObj(map[]));
      if changing && !authorize(annotation.fields, "admin") {
        return Refused(401);
      }
      annotation.fields := annotation.fields + updated;
      var saved := annotation.Save(index, cfg.groupConsumer);
      if saved.Err? {
        return Raised(saved.error);
      }
    }
    reply := Success(JObj(annotation.fields));
  }

  // ---------------------------------------------------------------------
  // The `/search` parameter split
  // ---------------------------------------------------------------------

  /**
   * `atoi(v)` (with its own default), `atoi(v, default=None)` and
   * `_csv_split(v, sep)` (None for the default separator), whose code is
   * not part of this model.
   */
  datatype Helpers = Helpers(atoi: Json -> int, atoiOrNone: Json -> Option<int>,
                             csvSplit: (string, Option<string>) -> seq<string>)

  /** The keyword arguments `search_annotations` passes on; an outer None is an absent keyword. */
  datatype SearchKwargs = SearchKwargs(offset: Option<Option<int>>, limit: Option<Option<int>>,
                                       query: map<string, string>, user: Option<Option<User>>)

  /**
   * `offset` and `limit` leave the parameters and are converted; every other
   * parameter, `uri` included, is a searched field; the user is passed only
   * with authorization on.
   */
  function SearchArgs(cfg: Config, args: map<string, string>, user: Option<User>, h: Helpers): (r: SearchKwargs)
    ensures forall k :: k in r.query <==> k in args && k != "offset" && k != "limit"
    ensures forall k :: k in r.query ==> r.query[k] == args[k]
    ensures r.offset.Some? <==> "offset" in args
    ensures r.offset.Some? ==> r.offset.value == h.atoiOrNone(JStr(args["offset"]))
    ensures r.limit.Some? <==> "limit" in args
    ensures r.limit.Some? ==> r.limit.value == h.atoiOrNone(JStr(args["limit"]))
    ensures r.user == if cfg.authzOn then Some(user) else None
  {
    SearchKwargs(
      if "offset" in args then Some(h.atoiOrNone(JStr(args["offset"]))) else None,
      if "limit" in args then Some(h.atoiOrNone(JStr(args["limit"]))) else None,
      args - {"offset", "limit"},
      if cfg.authzOn then Some(user) else None)
  }

  // ---------------------------------------------------------------------
  // `/search_raw`
  // ---------------------------------------------------------------------

  /** The GET parameters copied verbatim to the top of the query object. */
  const ControlKeys: set<string> :=
    {"explain", "track_scores", "from", "size", "timeout", "lowercase_expanded_terms", "analyze_wildcard"}

  const MatchAll: Json := JObj(map["match_all" := JObj(map[])])

  /** A parameter that sets a top-level entry of its own name. */
  predicate SetsTopLevel(k: string) {
    k in ControlKeys || k == "fields" || k == "sort"
  }

  /** The shape `_update_query_raw` keeps: `query` and `query.query_string` are objects, `sort` a list. */
  predicate QueryShaped(qo: map<string, Json>) {
    && ("query" in qo ==> qo["query"].JObj?
                          && ("query_string" in qo["query"].fields ==> qo["query"].fields["query_string"].JObj?))
    && ("sort" in qo ==> qo["sort"].JArr?)
  }

  /** `qo['query']` as an object (empty when absent). */
  function QueryPart(qo: map<string, Json>): map<string, Json> {
    if "query" in qo && qo["query"].JObj? then qo["query"].fields else map[]
  }

  /** `qo['query']['query_string']` as an object (empty when absent). */
  function QueryString(qo: map<string, Json>): map<string, Json> {
    var q := QueryPart(qo);
    if "query_string" in q && q["query_string"].JObj? then q["query_string"].fields else map[]
  }

  /** `qo['sort']` as a list (empty when absent). */
  function SortList(qo: map<string, Json>): seq<Json> {
    if "sort" in qo && qo["sort"].JArr? then qo["sort"].items else []
  }

  /** `sep.join(parts)`. */
  function Join(sep: string, parts: seq<string>): string {
    if parts == [] then ""
    else if |parts| == 1 then parts[0]
    else parts[0] + sep + Join(sep, parts[1..])
  }

  /** The field of a multi-segment sort value: every segment but the last, joined by `:`. */
  function SortField(split: seq<string>): string
    requires |split| >= 1
  {
    Join(":", split[..|split| - 1])
  }

  /** One `sort` value after `_csv_split(v, ':')`: a bare field, or `{field: direction}`; an empty split raises. */
  function SortEntry(split: seq<string>): Result<Json, PyError> {
    if |split| == 0 then Err(IndexError)
    else if |split| == 1 then Ok(JStr(split[0]))
    else Ok(JObj(map[SortField(split) := JStr(split[|split| - 1])]))
  }

  /** Joining all parts is joining all but the last, then the separator and the last. */
  lemma {:induction false} JoinLast(sep: string, parts: seq<string>)
    requires |parts| >= 2
    ensures Join(sep, parts) == Join(sep, parts[..|parts| - 1]) + sep + parts[|parts| - 1]
  {
    if |parts| > 2 {
      JoinLast(sep, parts[1..]);
      assert parts[1..][..|parts[1..]| - 1] == parts[..|parts| - 1][1..];
    } else {
      assert parts[..1] == [parts[0]];
    }
  }

  /**
   * A `sort` value whose split has several segments yields the one entry
   * `{SortField(split): last segment}`, and field, `:` and direction join
   * back into the split value. A single segment yields the bare field.
   */
  lemma SortEntryRejoins(split: seq<string>)
    requires |split| >= 1
    ensures |split| == 1 ==> SortEntry(split) == Ok(JStr(Join(":", split)))
    ensures |split| >= 2 ==>
              && SortEntry(split) == Ok(JObj(map[SortField(split) := JStr(split[|split| - 1])]))
              && SortField(split) + ":" + split[|split| - 1] == Join(":", split)
  {
    if |split| >= 2 {
      JoinLast(":", split);
    }
  }

  /** `_update_query_raw(qo, params, k, v)`. */
  function UpdateQueryRaw(qo: map<string, Json>, params: map<string, Json>, k: string, v: string, h: Helpers)
    : (r: Result<(map<string, Json>, map<string, Json>), PyError>)
    requires QueryShaped(qo)
    ensures r.Err? <==> k == "sort" && h.csvSplit(v, Some(":")) == []
    ensures r.Ok? ==>
              var (qo', params') := r.value;
              && QueryShaped(qo') && "query" in qo' && "query_string" in QueryPart(qo')
              && QueryString(qo') == (if k == "q" then QueryString(qo)["query" := JStr(v)]
                                      else if k == "df" then QueryString(qo)["default_field" := JStr(v)]
                                      else QueryString(qo))
              && QueryPart(qo') - {"query_string"} == QueryPart(qo) - {"query_string"}
              && (forall key :: key != "query" && !(key == k && SetsTopLevel(k)) ==>
                    (key in qo' <==> key in qo) && (key in qo ==> qo'[key] == qo[key]))
              && (k in ControlKeys ==> k in qo' && qo'[k] == JStr(v))
              && (k == "fields" ==> k in qo' && qo'[k] == Strings(h.csvSplit(v, None)))
              && (k == "sort" ==> "sort" in qo' && qo'["sort"] == JArr(SortList(qo) + [SortEntry(h.csvSplit(v, Some(":"))).value]))
              && params' == (if k == "search_type" then params[k := JStr(v)] else params)
  {
    var q := QueryPart(qo);
    var qs := QueryString(qo);
    var qs' := if k == "q" then qs["query" := JStr(v)]
               else if k == "df" then qs["default_field" := JStr(v)]
               else qs;
    var qo1 := qo["query" := JObj(q["query_string" := JObj(qs')])];
    if k in ControlKeys then Ok((qo1[k := JStr(v)], params))
    else if k == "fields" then Ok((qo1[k := Strings(h.csvSplit(v, None))], params))
    else if k == "sort" then
      match SortEntry(h.csvSplit(v, Some(":")))
      case Err(e) => Err(e)
      case Ok(entry) => Ok((qo1["sort" := JArr(SortList(qo) + [entry])], params))
    else if k == "search_type" then Ok((qo1, params[k := JStr(v)]))
    else Ok((qo1, params))
  }

  /**
   * `_update_query_raw(qo, params, k, v)` step by step: update the
   * `query.query_string` object (created when absent), write it back into
   * `qo` (the source shares the nested objects by reference), then apply a
   * top-level parameter.
   */
  method ApplyQueryParameter(qo: map<string, Json>, params: map<string, Json>, k: string, v: string, h: Helpers)
    returns (r: Result<(map<string, Json>, map<string, Json>), PyError>)
    requires QueryShaped(qo)
    ensures r == UpdateQueryRaw(qo, params, k, v, h)
  {
    var query, ps := qo, params;
    var q: map<string, Json> := map[];
    if "query" in query {
      q := query["query"].fields;
    }
    var qs: map<string, Json> := map[];
    if "query_string" in q {
      qs := q["query_string"].fields;
    }
    if k == "q" {
      qs := qs["query" := JStr(v)];
    } else if k == "df" {
      qs := qs["default_field" := JStr(v)];
    }
    query := query["query" := JObj(q["query_string" := JObj(qs)])];
    if k in ControlKeys {
      query := query[k := JStr(v)];
    } else if k == "fields" {
      query := query[k := Strings(h.csvSplit(v, None))];
    } else if k == "sort" {
      var sorts: seq<Json> := [];
      if "sort" in query {
        sorts := query["sort"].items;
      }
      var entry := SortEntry(h.csvSplit(v, Some(":")));
      if entry.Err? {
        return Err(entry.error);
      }
      query := query["sort" := JArr(sorts + [entry.value])];
    } else if k == "search_type" {
      ps := ps[k := JStr(v)];
    }
    r := Ok((query, ps));
  }

  /** The query object and params after `_update_query_raw` for each GET parameter in turn. */
  function FoldArgs(args: seq<(string, string)>, h: Helpers): (r: Result<(map<string, Json>, map<string, Json>), PyError>)
    ensures r.Ok? ==> QueryShaped(r.value.0)
    ensures r.Ok? && args != [] ==> "query" in r.value.0
    ensures args == [] ==> r == Ok((map[], map[]))
  {
    if args == [] then Ok((map[], map[]))
    else
      match FoldArgs(args[..|args| - 1], h)
      case Err(e) => Err(e)
      case Ok((qo, params)) => UpdateQueryRaw(qo, params, args[|args| - 1].0, args[|args| - 1].1, h)
  }

  /** Once a parameter raises, so does the whole loop. */
  lemma {:induction false} FoldErrSticky(args: seq<(string, string)>, n: nat, h: Helpers)
    requires n <= |args| && FoldArgs(args[..n], h).Err?
    ensures FoldArgs(args, h) == FoldArgs(args[..n], h)
    decreases |args| - n
  {
    if n < |args| {
      assert args[..n + 1][..n] == args[..n];
      FoldErrSticky(args, n + 1, h);
    } else {
      assert args[..n] == args;
    }
  }

  /** The `sort` entries of the parameters, in request order. */
  function SortEntries(args: seq<(string, string)>, h: Helpers): seq<Json> {
    if args == [] then []
    else
      var (k, v) := args[|args| - 1];
      SortEntries(args[..|args| - 1], h)
      + (if k == "sort" then (match SortEntry(h.csvSplit(v, Some(":"))) case Ok(e) => [e] case Err(_) => []) else [])
  }

  /**
   * Sort parsing appends entries in request order: the query object has a
   * `sort` list exactly when some parameter is `sort`, and it holds one
   * entry per `sort` parameter.
   */
  lemma {:induction false} SortsInRequestOrder(args: seq<(string, string)>, h: Helpers)
    requires FoldArgs(args, h).Ok?
    ensures ("sort" in FoldArgs(args, h).value.0) <==> exists i :: 0 <= i < |args| && args[i].0 == "sort"
    ensures SortList(FoldArgs(args, h).value.0) == SortEntries(args, h)
  {
    if args != [] {
      var init := args[..|args| - 1];
      var (k, v) := args[|args| - 1];
      var (qo, params) := FoldArgs(init, h).value;
      SortsInRequestOrder(init, h);
      SortStep(qo, params, k, v, h);
      assert forall i :: 0 <= i < |init| ==> init[i] == args[i];
      if k != "sort" {
        assert (exists i :: 0 <= i < |args| && args[i].0 == "sort") ==>
               (exists i :: 0 <= i < |init| && init[i].0 == "sort");
      } else {
        assert args[|args| - 1].0 == "sort";
      }
    }
  }

  /** One parameter's effect on the `sort` list. */
  lemma SortStep(qo: map<string, Json>, params: map<string, Json>, k: string, v: string, h: Helpers)
    requires QueryShaped(qo) && UpdateQueryRaw(qo, params, k, v, h).Ok?
    ensures var qo' := UpdateQueryRaw(qo, params, k, v, h).value.0;
            && ("sort" in qo' <==> "sort" in qo || k == "sort")
            && SortList(qo') == SortList(qo)
                 + (if k == "sort" then [SortEntry(h.csvSplit(v, Some(":"))).value] else [])
  {
  }

  /** A parameter the builder does not know only creates the `query.query_string` skeleton. */
  lemma UnknownParameterIgnored(args: seq<(string, string)>, k: string, v: string, h: Helpers)
    requires FoldArgs(args, h).Ok? && args != []
    requires !SetsTopLevel(k) && k != "q" && k != "df" && k != "search_type"
    ensures FoldArgs(args + [(k, v)], h) == FoldArgs(args, h)
  {
    assert (args + [(k, v)])[..|args|] == args;
    var (qo, params) := FoldArgs(args, h).value;
    var r := UpdateQueryRaw(qo, params, k, v, h).value.0;
    assert QueryPart(r) == QueryPart(qo);
    assert r == qo;
  }

  function Max(a: int, b: int): int { if a < b then b else a }
  function Min(a: int, b: int): int { if a < b then a else b }

  /**
   * The paging clamp applied to both the query object and the params:
   * `from` becomes a number of at least 0, `size` a number between 0 and the
   * maximal page size; nothing else changes.
   */
  function ClampPaging(o: map<string, Json>, h: Helpers, maxSize: nat): (r: map<string, Json>)
    ensures r.Keys == o.Keys
    ensures forall k :: k in o && k != "from" && k != "size" ==> r[k] == o[k]
    ensures "from" in r ==> r["from"] == JNum(Max(0, h.atoi(o["from"]))) && r["from"].n >= 0
    ensures "size" in r ==> r["size"] == JNum(Min(maxSize, Max(0, h.atoi(o["size"]))))
                            && 0 <= r["size"].n <= maxSize
  {
    var o1 := if "from" in o then o["from" := JNum(Max(0, h.atoi(o["from"])))] else o;
    if "size" in o1 then o1["size" := JNum(Min(maxSize, Max(0, h.atoi(o1["size"]))))] else o1
  }

  /** `from`, where present, is a number of at least 0; `size`, where present, one between 0 and `maxSize`. */
  predicate PagingBounded(o: map<string, Json>, maxSize: nat) {
    && ("from" in o ==> o["from"].JNum? && o["from"].n >= 0)
    && ("size" in o ==> o["size"].JNum? && 0 <= o["size"].n <= maxSize)
  }

  /** A raw search request: GET parameters in order, or a POST body (None when it cannot be decoded) with URL parameters. */
  datatype RawRequest =
    | GetRequest(args: seq<(string, string)>)
    | PostRequest(body: Option<Json>, urlArgs: map<string, string>)

  function ArgsJson(args: map<string, string>): map<string, Json> {
    map k | k in args :: JStr(args[k])
  }

  /** What `_build_query_raw(request)` returns, or the exception it raises. */
  function RawQuery(req: RawRequest, h: Helpers, maxSize: nat): Result<(map<string, Json>, map<string, Json>), PyError> {
    match req
    case GetRequest(args) =>
      (match FoldArgs(args, h)
       case Err(e) => Err(e)
       case Ok((qo, params)) =>
         var query := if "query" in qo then qo else qo["query" := MatchAll];
         Ok((ClampPaging(query, h, maxSize), ClampPaging(params, h, maxSize))))
    case PostRequest(body, urlArgs) =>
      if body.None? then Err(ValueError)
      else if !body.value.JObj? then Err(TypeError)
      else Ok((ClampPaging(body.value.fields, h, maxSize), ClampPaging(ArgsJson(urlArgs), h, maxSize)))
  }

  /** The GET loop of `_build_query_raw`: `_update_query_raw` for each parameter in turn. */
  method ApplyQueryParameters(args: seq<(string, string)>, h: Helpers)
    returns (r: Result<(map<string, Json>, map<string, Json>), PyError>)
    ensures r == FoldArgs(args, h)
  {
    var query: map<string, Json> := map[];
    var params: map<string, Json> := map[];
    var i := 0;
    while i < |args|
      invariant 0 <= i <= |args|
      invariant FoldArgs(args[..i], h) == Ok((query, params))
    {
      assert args[..i + 1][..i] == args[..i];
      var step := ApplyQueryParameter(query, params, args[i].0, args[i].1, h);
      assert FoldArgs(args[..i + 1], h) == step;
      if step.Err? {
        FoldErrSticky(args, i + 1, h);
        return Err(step.error);
      }
      query, params := step.value.0, step.value.1;
      i := i + 1;
    }
    assert args[..i] == args;
    r := Ok((query, params));
  }

  /** `_build_query_raw(request)`. */
  method BuildQueryRaw(req: RawRequest, h: Helpers, maxSize: nat)
    returns (r: Result<(map<string, Json>, map<string, Json>), PyError>)
    ensures r == RawQuery(req, h, maxSize)
  {
    var query: map<string, Json> := map[];
    var params: map<string, Json> := map[];
    match req {
      case GetRequest(args) =>
        var folded := ApplyQueryParameters(args, h);
        if folded.Err? {
          return Err(folded.error);
        }
        query, params := folded.value.0, folded.value.1;
        if "query" !in query {
          query := query["query" := MatchAll];
        }
      case PostRequest(body, urlArgs) =>
        if body.None? {
          return Err(ValueError);
        }
        if !body.value.JObj? {
          return Err(TypeError);
        }
        query := body.value.fields;
        params := ArgsJson(urlArgs);
    }
    params := ClampPaging(params, h, maxSize);
    query := ClampPaging(query, h, maxSize);
    r := Ok((query, params));
  }

  /**
   * After `_build_query_raw`, `from` is at least 0 and `size` lies between 0
   * and the maximal page size in both the query and the params; a GET
   * query always has a `query` entry, which is `match_all` when there were
   * no parameters.
   */
  lemma RawQueryBounds(req: RawRequest, h: Helpers, maxSize: nat)
    requires RawQuery(req, h, maxSize).Ok?
    ensures var (q, p) := RawQuery(req, h, maxSize).value;
            && PagingBounded(q, maxSize) && PagingBounded(p, maxSize)
            && (req.GetRequest? ==> "query" in q)
            && (req == GetRequest([]) ==> q == map["query" := MatchAll] && p == map[])
  {
    var (q, p) := RawQuery(req, h, maxSize).value;
    if req == GetRequest([]) {
      assert FoldArgs([], h) == Ok((map[], map[]));
    }
  }

  /**
   * The composition of the two raw builders: applying the annotation
   * model's permission wrapper to the query that the store builds from GET
   * parameters succeeds and wraps exactly that query in the filter. How the
   * store's query reaches the wrapper (through `search_raw`) is not part of
   * this model.
   */
  lemma RawGetSearchIsFiltered(cfg: Config, args: seq<(string, string)>, h: Helpers, filter: Json)
    requires cfg.authzOn && Truthy(filter)
    requires RawQuery(GetRequest(args), h, cfg.resultsMaxSize).Ok?
    ensures var (q, p) := RawQuery(GetRequest(args), h, cfg.resultsMaxSize).value;
            && Annotations.BuildQueryRaw(cfg, q, p, filter).Ok?
            && UnwrapQuery(Annotations.BuildQueryRaw(cfg, q, p, filter).value.0) == Some((q, filter))
  {
    RawQueryBounds(GetRequest(args), h, cfg.resultsMaxSize);
  }
}
