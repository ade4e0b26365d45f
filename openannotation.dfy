/**
 * The JSON-LD rendering of an annotation in the Open Annotation data
 * model (community draft of 2013-02-08): the text comment and the tags
 * become bodies, the annotated page or its selected ranges become targets,
 * and the owner, the timestamps and the motivations are copied over.
 *
 * Every property is a pure function of the annotation's fields. A Python
 * exception that would escape a property is an `Err`.
 */
module OpenAnnotation {
  import opened JsonData

  const OaContext: string := "http://www.w3.org/ns/oa-context-20130208.json"
  const AnnotatorNamespace: string := "http://annotatorjs.org/ns/"

  /** `@context`: the Open Annotation context, the `annotator` prefix and, when given, `@base`. */
  function Context(base: Option<string>): Json {
    var fixed := [JStr(OaContext), JObj(map["annotator" := JStr(AnnotatorNamespace)])];
    JArr(if base.Some? then fixed + [JObj(map["@base" := JStr(base.value)])] else fixed)
  }

  // ---------------------------------------------------------------------
  // Bodies
  // ---------------------------------------------------------------------

  /** A plain-text body of the given RDF types. */
  function PlainTextBody(types: seq<string>, chars: Json): Json {
    JObj(map["@type" := Strings(types), "dc:format" := JStr("text/plain"), "cnt:chars" := chars])
  }

  function TextBody(text: Json): Json {
    PlainTextBody(["dctypes:Text", "cnt:ContentAsText"], text)
  }

  function TagBody(tag: Json): Json {
    PlainTextBody(["oa:Tag", "cnt:ContentAsText"], tag)
  }

  /** The `cnt:chars` content of a body. */
  function Chars(body: Json): Json {
    if body.JObj? then Get(body.fields, "cnt:chars") else JNull
  }

  /** The RDF types of a body. */
  function TypesOf(body: Json): Json {
    if body.JObj? then Get(body.fields, "@type") else JNull
  }

  /** `textual_bodies`: one Text body for a non-empty `text`, none otherwise. */
  function TextualBodies(ann: map<string, Json>): seq<Json> {
    if !Truthy(Get(ann, "text")) then [] else [TextBody(ann["text"])]
  }

  /** A missing or empty text gives no body; otherwise one Text body that carries the text. */
  lemma TextualBodiesCarryText(ann: map<string, Json>)
    ensures TextualBodies(ann) == [] <==> !Truthy(Get(ann, "text"))
    ensures |TextualBodies(ann)| <= 1
    ensures TextualBodies(ann) != [] ==>
              Chars(TextualBodies(ann)[0]) == ann["text"]
              && TypesOf(TextualBodies(ann)[0]) == JArr([JStr("dctypes:Text"), JStr("cnt:ContentAsText")])
  {
  }

  /**
   * The values `for tag in self['tags']` visits: the elements of a list,
   * the characters of a string, nothing for an absent key or an empty
   * object; other values are not iterable.
   */
  function TagValues(ann: map<string, Json>): Result<seq<Json>, PyError> {
    if "tags" !in ann then Ok([])
    else
      match ann["tags"]
      case JArr(items) => Ok(items)
      case JStr(s) => Ok(seq(|s|, i requires 0 <= i < |s| => JStr([s[i]])))
      case JObj(m) => if m == map[] then Ok([]) else Err(TypeError)
      case _ => Err(TypeError)
  }

  /** One Tag body per value, in order. */
  function TagBodies(values: seq<Json>): seq<Json> {
    seq(|values|, i requires 0 <= i < |values| => TagBody(values[i]))
  }

  /** `tags`. */
  function Tags(ann: map<string, Json>): Result<seq<Json>, PyError> {
    match TagValues(ann)
    case Ok(vs) => Ok(TagBodies(vs))
    case Err(e) => Err(e)
  }

  /** The contents of a list of bodies. */
  function CharsOf(bodies: seq<Json>): (r: seq<Json>)
    ensures |r| == |bodies|
    ensures forall i :: 0 <= i < |bodies| ==> r[i] == Chars(bodies[i])
  {
    if bodies == [] then [] else CharsOf(bodies[..|bodies| - 1]) + [Chars(bodies[|bodies| - 1])]
  }

  /**
   * The Tag bodies give the tags back: one body per tag, same order and
   * count, each typed `oa:Tag`; no `tags` key gives no bodies.
   */
  lemma {:induction false} TagsRoundTrip(ann: map<string, Json>)
    ensures Tags(ann).Ok? <==> TagValues(ann).Ok?
    ensures Tags(ann).Ok? ==> CharsOf(Tags(ann).value) == TagValues(ann).value
    ensures Tags(ann).Ok? ==> forall i :: 0 <= i < |Tags(ann).value| ==>
              TypesOf(Tags(ann).value[i]) == JArr([JStr("oa:Tag"), JStr("cnt:ContentAsText")])
    ensures "tags" !in ann ==> Tags(ann) == Ok([])
    ensures "tags" in ann && ann["tags"].JArr? ==> Tags(ann).Ok? && |Tags(ann).value| == |ann["tags"].items|
  {
    if Tags(ann).Ok? {
      var vs := TagValues(ann).value;
      var bodies := Tags(ann).value;
      assert |CharsOf(bodies)| == |vs|;
      forall i | 0 <= i < |vs|
        ensures CharsOf(bodies)[i] == vs[i]
      {
        assert bodies[i] == TagBody(vs[i]);
      }
    }
  }

  /** `has_body`: the textual bodies followed by the tags. */
  function HasBody(ann: map<string, Json>): Result<seq<Json>, PyError> {
    match Tags(ann)
    case Ok(tags) => Ok(TextualBodies(ann) + tags)
    case Err(e) => Err(e)
  }

  /** The textual bodies come first, then each tag, and nothing else. */
  lemma BodiesInOrder(ann: map<string, Json>)
    ensures HasBody(ann).Ok? <==> Tags(ann).Ok?
    ensures HasBody(ann).Ok? ==>
              var b := HasBody(ann).value;
              var n := |TextualBodies(ann)|;
              && |b| == n + |Tags(ann).value|
              && b[..n] == TextualBodies(ann)
              && b[n..] == Tags(ann).value
  {
  }

  /** `motivated_by`: commenting when there is a text body, tagging when there are tags. */
  function MotivatedBy(ann: map<string, Json>): Result<seq<string>, PyError> {
    match Tags(ann)
    case Err(e) => Err(e)
    case Ok(tags) =>
      Ok((if TextualBodies(ann) != [] then ["oa:commenting"] else [])
         + (if tags != [] then ["oa:tagging"] else []))
  }

  /**
   * `oa:commenting` is there exactly when the annotation has a non-empty
   * text, `oa:tagging` exactly when it has tags; commenting comes first
   * and nothing appears twice.
   */
  lemma MotivationsMatchBodies(ann: map<string, Json>)
    ensures MotivatedBy(ann).Ok? <==> TagValues(ann).Ok?
    ensures MotivatedBy(ann).Ok? ==>
              var m := MotivatedBy(ann).value;
              && ("oa:commenting" in m <==> Truthy(Get(ann, "text")))
              && ("oa:tagging" in m <==> TagValues(ann).value != [])
              && (forall x :: x in m ==> x == "oa:commenting" || x == "oa:tagging")
              && (forall i, j :: 0 <= i < j < |m| ==> m[i] == "oa:commenting" && m[j] == "oa:tagging")
  {
  }

  // ---------------------------------------------------------------------
  // Targets
  // ---------------------------------------------------------------------

  /** The exception building a selector from one range raises, if any (keys are read in this order). */
  function RangeError(range: Json): Option<PyError> {
    if !range.JObj? then Some(TypeError)
    else if "start" !in range.fields then Some(KeyError("start"))
    else if "end" !in range.fields then Some(KeyError("end"))
    else if "startOffset" !in range.fields then Some(KeyError("startOffset"))
    else if "endOffset" !in range.fields then Some(KeyError("endOffset"))
    else None
  }

  /** A `SpecificResource` target: the page with a text-range selector for one range. */
  function RangeTarget(uri: Json, range: map<string, Json>): Json
    requires RangeError(JObj(range)).None?
  {
    var selector := map[
      "@type" := JStr("annotator:TextRangeSelector"),
      "annotator:startContainer" := range["start"],
      "annotator:endContainer" := range["end"],
      "annotator:startOffset" := range["startOffset"],
      "annotator:endOffset" := range["endOffset"]];
    JObj(map["@type" := JStr("oa:SpecificResource"), "hasSource" := uri, "hasSelector" := JObj(selector)])
  }

  /**
   * One target per range, in order; the first range that is not an object
   * with the four range keys raises.
   */
  function RangeTargets(uri: Json, ranges: seq<Json>): (r: Result<seq<Json>, PyError>)
    ensures r.Ok? <==> forall i :: 0 <= i < |ranges| ==> RangeError(ranges[i]).None?
    ensures r.Ok? ==> |r.value| == |ranges|
                      && forall i :: 0 <= i < |ranges| ==> r.value[i] == RangeTarget(uri, ranges[i].fields)
    ensures r.Err? ==> exists i :: 0 <= i < |ranges| && RangeError(ranges[i]) == Some(r.error)
                                   && forall j :: 0 <= j < i ==> RangeError(ranges[j]).None?
  {
    if ranges == [] then Ok([])
    else
      match RangeError(ranges[0])
      case Some(e) => Err(e)
      case None =>
        var first := RangeTarget(uri, ranges[0].fields);
        match RangeTargets(uri, ranges[1..])
        case Err(e) =>
          assert forall i :: 1 <= i < |ranges| ==> ranges[i] == ranges[1..][i - 1];
          assert exists i :: 1 <= i < |ranges| && RangeError(ranges[i]) == Some(e)
                             && forall j :: 0 <= j < i ==> RangeError(ranges[j]).None? by {
            var k :| 0 <= k < |ranges[1..]| && RangeError(ranges[1..][k]) == Some(e)
                     && forall j :: 0 <= j < k ==> RangeError(ranges[1..][j]).None?;
            assert RangeError(ranges[k + 1]) == Some(e);
          }
          Err(e)
        case Ok(rest) =>
          assert forall i :: 1 <= i < |ranges| ==> ranges[i] == ranges[1..][i - 1];
          Ok([first] + rest)
  }

  /** `has_target`. */
  function HasTarget(ann: map<string, Json>): Result<seq<Json>, PyError> {
    if "uri" !in ann then Ok([])
    else if Truthy(Get(ann, "ranges")) then
      (if ann["ranges"].JArr? then RangeTargets(ann["uri"], ann["ranges"].items) else Err(TypeError))
    else Ok([ann["uri"]])
  }

  /** The page a target points at. */
  function SourceOf(target: Json): Json {
    if target.JObj? then Get(target.fields, "hasSource") else JNull
  }

  /** The selector name under which a range key is copied. */
  function SelectorKey(k: string): string {
    match k
    case "start" => "annotator:startContainer"
    case "end" => "annotator:endContainer"
    case "startOffset" => "annotator:startOffset"
    case _ => "annotator:endOffset"
  }

  const RangeKeys: seq<string> := ["start", "end", "startOffset", "endOffset"]

  /** The range field `k` read back from a target's selector. */
  function RangeFieldOf(target: Json, k: string): Json {
    if target.JObj? && "hasSelector" in target.fields && target.fields["hasSelector"].JObj?
    then Get(target.fields["hasSelector"].fields, SelectorKey(k))
    else JNull
  }

  /**
   * Without a `uri` there are no targets; with non-empty `ranges` there is
   * one `oa:SpecificResource` per range, in order, pointing at the uri and
   * giving back the range's four fields; otherwise the page itself is the
   * only target.
   */
  lemma TargetsCarryRanges(ann: map<string, Json>)
    ensures "uri" !in ann ==> HasTarget(ann) == Ok([])
    ensures "uri" in ann && !Truthy(Get(ann, "ranges")) ==> HasTarget(ann) == Ok([ann["uri"]])
    ensures "uri" in ann && Truthy(Get(ann, "ranges")) && HasTarget(ann).Ok? ==>
              var ts := HasTarget(ann).value;
              && ann["ranges"].JArr? && |ts| == |ann["ranges"].items|
              && forall i :: 0 <= i < |ts| ==>
                   && ts[i].JObj? && Get(ts[i].fields, "@type") == JStr("oa:SpecificResource")
                   && SourceOf(ts[i]) == ann["uri"]
                   && forall k :: k in RangeKeys ==> RangeFieldOf(ts[i], k) == ann["ranges"].items[i].fields[k]
  {
    if "uri" in ann && Truthy(Get(ann, "ranges")) && HasTarget(ann).Ok? {
      var rs := ann["ranges"].items;
      forall i | 0 <= i < |rs|
        ensures RangeError(rs[i]).None?
        ensures var t := RangeTarget(ann["uri"], rs[i].fields);
                && t.JObj? && Get(t.fields, "@type") == JStr("oa:SpecificResource") && SourceOf(t) == ann["uri"]
                && forall k :: k in RangeKeys ==> RangeFieldOf(t, k) == rs[i].fields[k]
      {
        RangeTargetCarries(ann["uri"], rs[i].fields);
      }
    }
  }

  /** A target built from a range points at its page and gives back the range's four fields. */
  lemma RangeTargetCarries(uri: Json, range: map<string, Json>)
    requires RangeError(JObj(range)).None?
    ensures var t := RangeTarget(uri, range);
            && t.JObj? && Get(t.fields, "@type") == JStr("oa:SpecificResource") && SourceOf(t) == uri
            && forall k :: k in RangeKeys ==> RangeFieldOf(t, k) == range[k]
  {
  }

  // ---------------------------------------------------------------------
  // Agent, times and the whole document
  // ---------------------------------------------------------------------

  /** `annotated_by`: `[]` for a falsy owner, a `foaf:Agent` named by the owner otherwise. */
  function AnnotatedBy(ann: map<string, Json>): Json {
    if !Truthy(Get(ann, "user")) then JArr([])
    else JObj(map["@type" := JStr("foaf:Agent"), "foaf:name" := ann["user"]])
  }

  /** `annotated_at`: the creation time, None when it is missing or falsy. */
  function AnnotatedAt(ann: map<string, Json>): Json {
    if Truthy(Get(ann, "created")) then ann["created"] else JNull
  }

  /** `serialized_at`: the last update time, None when it is missing or falsy. */
  function SerializedAt(ann: map<string, Json>): Json {
    if Truthy(Get(ann, "updated")) then ann["updated"] else JNull
  }

  /**
   * The agent is `[]` exactly for a falsy owner and otherwise a
   * `foaf:Agent` named by the owner; `annotatedAt` and `serializedAt` are
   * the `created` and `updated` fields when those are set, None otherwise.
   */
  lemma AgentAndTimesCopied(ann: map<string, Json>)
    ensures AnnotatedBy(ann) == JArr([]) <==> !Truthy(Get(ann, "user"))
    ensures Truthy(Get(ann, "user")) ==>
              AnnotatedBy(ann).JObj? && Get(AnnotatedBy(ann).fields, "foaf:name") == ann["user"]
              && Get(AnnotatedBy(ann).fields, "@type") == JStr("foaf:Agent")
    ensures AnnotatedAt(ann) == (if Truthy(Get(ann, "created")) then ann["created"] else JNull)
    ensures SerializedAt(ann) == (if Truthy(Get(ann, "updated")) then ann["updated"] else JNull)
  {
  }

  /** `serialized_by`: the store as a software agent. */
  const SerializedBy: Json := JObj(map[
    "@id" := JStr("annotator:annotator-store"),
    "@type" := JStr("prov:Software-agent"),
    "foaf:name" := JStr("annotator-store"),
    "foaf:homepage" := JObj(map["@id" := JStr("http://annotatorjs.org")])])

  /** The entry order of the rendered document. */
  const JsonLdKeys: seq<string> := ["@context", "@id", "@type", "hasBody", "hasTarget", "annotatedBy",
                                    "annotatedAt", "serializedBy", "serializedAt", "motivatedBy"]

  /** `jsonld`, as the ordered entries of its dictionary; `base` is `jsonld_baseurl`. */
  function JsonLd(ann: map<string, Json>, base: Option<string>): Result<seq<(string, Json)>, PyError> {
    if "id" !in ann then Err(KeyError("id"))
    else
      match HasBody(ann)
      case Err(e) => Err(e)
      case Ok(bodies) =>
        match HasTarget(ann)
        case Err(e) => Err(e)
        case Ok(targets) =>
          match MotivatedBy(ann)
          case Err(e) => Err(e)
          case Ok(motivations) =>
            Ok([("@context", Context(base)), ("@id", ann["id"]), ("@type", JStr("oa:Annotation")),
                ("hasBody", JArr(bodies)), ("hasTarget", JArr(targets)), ("annotatedBy", AnnotatedBy(ann)),
                ("annotatedAt", AnnotatedAt(ann)), ("serializedBy", SerializedBy),
                ("serializedAt", SerializedAt(ann)), ("motivatedBy", Strings(motivations))])
  }

  /** The value of the first entry named `key`. */
  function Lookup(entries: seq<(string, Json)>, key: string): Option<Json> {
    if entries == [] then None
    else if entries[0].0 == key then Some(entries[0].1)
    else Lookup(entries[1..], key)
  }

  /**
   * The rendering fails exactly when the id is missing, the tags are not
   * iterable or a range is malformed. Otherwise its entries come in the
   * fixed order; `@id` is the annotation's id and `@type` is
   * `oa:Annotation`; the context holds the two fixed entries, plus `@base`
   * exactly when a base URL is set; each property entry is its property.
   */
  lemma JsonLdShape(ann: map<string, Json>, base: Option<string>)
    ensures JsonLd(ann, base).Ok? <==> "id" in ann && TagValues(ann).Ok? && HasTarget(ann).Ok?
    ensures "id" !in ann ==> JsonLd(ann, base) == Err(KeyError("id"))
    ensures JsonLd(ann, base).Ok? ==>
              var d := JsonLd(ann, base).value;
              && |d| == |JsonLdKeys| && (forall i :: 0 <= i < |d| ==> d[i].0 == JsonLdKeys[i])
              && Lookup(d, "@id") == Some(ann["id"])
              && Lookup(d, "@type") == Some(JStr("oa:Annotation"))
              && Lookup(d, "@context") == Some(Context(base))
              && Lookup(d, "hasBody") == Some(JArr(HasBody(ann).value))
              && Lookup(d, "hasTarget") == Some(JArr(HasTarget(ann).value))
              && Lookup(d, "annotatedBy") == Some(AnnotatedBy(ann))
              && Lookup(d, "annotatedAt") == Some(AnnotatedAt(ann))
              && Lookup(d, "serializedBy") == Some(SerializedBy)
              && Lookup(d, "serializedAt") == Some(SerializedAt(ann))
              && Lookup(d, "motivatedBy") == Some(Strings(MotivatedBy(ann).value))
  {
    if JsonLd(ann, base).Ok? {
      var d := JsonLd(ann, base).value;
      LookupRenderedFirst(d[0].1, d[1].1, d[2].1, d[3].1, d[4].1, d[5].1, d[6].1, d[7].1, d[8].1, d[9].1);
      LookupRenderedMiddle(d[0].1, d[1].1, d[2].1, d[3].1, d[4].1, d[5].1, d[6].1, d[7].1, d[8].1, d[9].1);
      LookupRenderedLast(d[0].1, d[1].1, d[2].1, d[3].1, d[4].1, d[5].1, d[6].1, d[7].1, d[8].1, d[9].1);
      assert d == Rendered(d[0].1, d[1].1, d[2].1, d[3].1, d[4].1, d[5].1, d[6].1, d[7].1, d[8].1, d[9].1);
    }
  }

  /** A rendering with the given entry values, in `JsonLdKeys` order. */
  function Rendered(c: Json, id: Json, ty: Json, body: Json, target: Json,
                    agent: Json, created: Json, serBy: Json, serAt: Json, motives: Json): seq<(string, Json)>
  {
    [("@context", c), ("@id", id), ("@type", ty), ("hasBody", body), ("hasTarget", target),
     ("annotatedBy", agent), ("annotatedAt", created), ("serializedBy", serBy), ("serializedAt", serAt),
     ("motivatedBy", motives)]
  }

  /** The first four entry names of a rendering find their own values. */
  lemma LookupRenderedFirst(c: Json, id: Json, ty: Json, body: Json, target: Json,
                       agent: Json, created: Json, serBy: Json, serAt: Json, motives: Json)
    ensures var d := Rendered(c, id, ty, body, target, agent, created, serBy, serAt, motives);
            && Lookup(d, "@context") == Some(c) && Lookup(d, "@id") == Some(id)
            && Lookup(d, "@type") == Some(ty) && Lookup(d, "hasBody") == Some(body)
  {
    var d := Rendered(c, id, ty, body, target, agent, created, serBy, serAt, motives);
    LookupAt(d, 0); LookupAt(d, 1); LookupAt(d, 2); LookupAt(d, 3);
  }

  /** The target, agent and creation time entries of a rendering find their own values. */
  lemma LookupRenderedMiddle(c: Json, id: Json, ty: Json, body: Json, target: Json,
                       agent: Json, created: Json, serBy: Json, serAt: Json, motives: Json)
    ensures var d := Rendered(c, id, ty, body, target, agent, created, serBy, serAt, motives);
            && Lookup(d, "hasTarget") == Some(target) && Lookup(d, "annotatedBy") == Some(agent)
            && Lookup(d, "annotatedAt") == Some(created)
  {
    var d := Rendered(c, id, ty, body, target, agent, created, serBy, serAt, motives);
    LookupAt(d, 4); LookupAt(d, 5); LookupAt(d, 6);
  }

  /** The last three entry names of a rendering find their own values. */
  lemma LookupRenderedLast(c: Json, id: Json, ty: Json, body: Json, target: Json,
                       agent: Json, created: Json, serBy: Json, serAt: Json, motives: Json)
    ensures var d := Rendered(c, id, ty, body, target, agent, created, serBy, serAt, motives);
            && Lookup(d, "serializedBy") == Some(serBy)
            && Lookup(d, "serializedAt") == Some(serAt) && Lookup(d, "motivatedBy") == Some(motives)
  {
    var d := Rendered(c, id, ty, body, target, agent, created, serBy, serAt, motives);
    LookupAt(d, 7); LookupAt(d, 8); LookupAt(d, 9);
  }

  /** In entries whose earlier names differ from the `i`th, that name finds the `i`th value. */
  lemma {:induction false} LookupAt(entries: seq<(string, Json)>, i: nat)
    requires i < |entries| && forall j :: 0 <= j < i ==> entries[j].0 != entries[i].0
    ensures Lookup(entries, entries[i].0) == Some(entries[i].1)
  {
    if i > 0 {
      assert forall j :: 0 <= j < i - 1 ==> entries[1..][j] == entries[j + 1];
      LookupAt(entries[1..], i - 1);
    }
  }

  /** The context has its base entry exactly when a base URL is set. */
  lemma ContextBase(base: Option<string>)
    ensures Context(base).JArr?
    ensures |Context(base).items| == if base.Some? then 3 else 2
    ensures Context(base).items[0] == JStr(OaContext)
    ensures Context(base).items[1] == JObj(map["annotator" := JStr(AnnotatorNamespace)])
    ensures base.Some? ==> Context(base).items[2] == JObj(map["@base" := JStr(base.value)])
  {
  }

  /**
   * The annotation of the store's own JSON-LD test, with its two
   * timestamps left as inputs.
   */
  function TestAnnotation(created: Json, updated: Json): map<string, Json> {
    map[
      "id" := JStr("1234"),
      "text" := JStr("blablabla"),
      "uri" := JStr("http://localhost:4000/dev.html"),
      "ranges" := JArr([JObj(map[
        "start" := JStr("/ul[1]/li[1]"),
        "end" := JStr("/ul[1]/li[1]"),
        "startOffset" := JNum(0),
        "endOffset" := JNum(26)])]),
      "user" := JStr("alice"),
      "quote" := JStr("Lorem ipsum dolor sit amet"),
      "consumer" := JStr("mockconsumer"),
      "permissions" := JObj(map["read" := JArr([]), "admin" := JArr([]), "update" := JArr([]), "delete" := JArr([])]),
      "created" := created,
      "updated" := updated]
  }

  /** That annotation's single body is the text comment, as the test expects. */
  lemma TestAnnotationBodies(created: Json, updated: Json)
    ensures HasBody(TestAnnotation(created, updated)) == Ok([JObj(map[
              "@type" := JArr([JStr("dctypes:Text"), JStr("cnt:ContentAsText")]),
              "dc:format" := JStr("text/plain"),
              "cnt:chars" := JStr("blablabla")])])
    ensures MotivatedBy(TestAnnotation(created, updated)) == Ok(["oa:commenting"])
  {
    var ann := TestAnnotation(created, updated);
    assert "tags" !in ann;
    assert |TagBodies([])| == 0;
    assert Tags(ann) == Ok([]);
    assert ann["text"] == JStr("blablabla");
    assert TextualBodies(ann) == [TextBody(JStr("blablabla"))];
    var types := Strings(["dctypes:Text", "cnt:ContentAsText"]);
    assert types.items == [JStr("dctypes:Text"), JStr("cnt:ContentAsText")];
    assert MotivatedBy(ann) == Ok(["oa:commenting"] + []);
    assert HasBody(ann) == Ok([TextBody(JStr("blablabla"))] + []);
    assert ["oa:commenting"] + [] == ["oa:commenting"];
    assert types == JArr([JStr("dctypes:Text"), JStr("cnt:ContentAsText")]);
    assert [TextBody(JStr("blablabla"))] + [] == [TextBody(JStr("blablabla"))];
  }

  /** That annotation's single target is its one range on the page, as the test expects. */
  lemma TestAnnotationTargets(created: Json, updated: Json)
    ensures HasTarget(TestAnnotation(created, updated)) == Ok([JObj(map[
              "@type" := JStr("oa:SpecificResource"),
              "hasSource" := JStr("http://localhost:4000/dev.html"),
              "hasSelector" := JObj(map[
                "@type" := JStr("annotator:TextRangeSelector"),
                "annotator:startContainer" := JStr("/ul[1]/li[1]"),
                "annotator:endContainer" := JStr("/ul[1]/li[1]"),
                "annotator:startOffset" := JNum(0),
                "annotator:endOffset" := JNum(26)])])])
  {
    var ann := TestAnnotation(created, updated);
    assert "uri" in ann && ann["ranges"] == JArr([ann["ranges"].items[0]]);
    var range := ann["ranges"].items[0];
    var ts := RangeTargets(ann["uri"], [range]).value;
    assert ts == [RangeTarget(ann["uri"], range.fields)];
  }

  /** The expected values of that test: id, type, the text body, the range target, the owner agent and the times. */
  lemma JsonLdOfTestAnnotation(created: Json, updated: Json)
    requires Truthy(created) && Truthy(updated)
    ensures var r := JsonLd(TestAnnotation(created, updated), None);
            && r.Ok?
            && Lookup(r.value, "@id") == Some(JStr("1234"))
            && Lookup(r.value, "@type") == Some(JStr("oa:Annotation"))
            && Lookup(r.value, "hasBody") == Some(JArr(HasBody(TestAnnotation(created, updated)).value))
            && Lookup(r.value, "hasTarget") == Some(JArr(HasTarget(TestAnnotation(created, updated)).value))
            && Lookup(r.value, "annotatedBy") == Some(JObj(map["@type" := JStr("foaf:Agent"), "foaf:name" := JStr("alice")]))
            && Lookup(r.value, "annotatedAt") == Some(created)
            && Lookup(r.value, "serializedAt") == Some(updated)
            && Lookup(r.value, "motivatedBy") == Some(JArr([JStr("oa:commenting")]))
  {
    var ann := TestAnnotation(created, updated);
    TestAnnotationBodies(created, updated);
    TestAnnotationTargets(created, updated);
    JsonLdShape(ann, None);
    assert Strings(["oa:commenting"]).items == [JStr("oa:commenting")];
  }
}
